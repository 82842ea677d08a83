/** The authoritative match loop, `runMatch` of internal/matchmaking/service.go, and what it records. */
module Match {
  import opened Words
  import opened CombatTypes
  import opened Order
  import opened Rng
  import opened Invariant
  import opened Shape
  import opened Runs
  import opened Resolver
  import opened Simulator
  import opened Replay
  import opened Slots

  const SALT1: nat := 0xA5A5A5A5A5A5A5A5
  const SALT2: nat := 0x5A5A5A5A5A5A5A5A

  /** The seed of a slot's own generator. */
  function SeedWithSalt(seed: Word, salt: nat): Word {
    var mixed := Xor(seed, Bits(salt, 64));
    if mixed == ZERO then Bits(1, 64) else mixed
  }

  /** What the outside world does during one turn of the loop: whether the match is cancelled first, how the two
      waits end and in which order they do, the clock, and whether the animation plays to its end. */
  datatype Moment = Moment(cancelled: bool, a1: Arrival, a2: Arrival, swapped: bool, clockMs: int, animated: bool)

  datatype Row = Row(turn: int, relativeMs: int, inputs: seq<TurnInput>, stateHash: nat, rollHash: nat)

  datatype ResultType = Draw | WonByKo | WonBySubmission

  datatype Verdict = Verdict(how: ResultType, winner: Option<Id>)

  datatype Ending = Aborted | Cancelled | Completed(seed: Word, initial: MatchState, rows: seq<Row>, verdict: Verdict)

  function MapResult(o: Outcome): Verdict {
    if !o.finished then Verdict(Draw, None)
    else match o.how
      case KO => Verdict(WonByKo, Some(o.winner))
      case Submission => Verdict(WonBySubmission, Some(o.winner))
      case NoMethod => if o.winner == [] then Verdict(Draw, None) else Verdict(WonByKo, Some(o.winner))
  }

  /** The recorded rows as a replay reads them. */
  function EventsOf(rows: seq<Row>): (events: seq<InputEvent>)
    ensures |events| == |rows|
    ensures forall i :: 0 <= i < |rows| ==>
              events[i] == InputEvent(rows[i].turn, rows[i].relativeMs, rows[i].inputs)
  {
    if rows == [] then []
    else
      var row := rows[|rows| - 1];
      EventsOf(rows[..|rows| - 1]) + [InputEvent(row.turn, row.relativeMs, row.inputs)]
  }

  function Arrivals1(moments: seq<Moment>): seq<Arrival> {
    seq(|moments|, i requires 0 <= i < |moments| => moments[i].a1)
  }

  function Arrivals2(moments: seq<Moment>): seq<Arrival> {
    seq(|moments|, i requires 0 <= i < |moments| => moments[i].a2)
  }

  /** Every row is numbered by its place and carries the checksums of the result it stands for. */
  predicate Faithful(rows: seq<Row>, results: seq<TurnResult>) {
    && |rows| == |results|
    && forall i :: 0 <= i < |rows| ==>
         && rows[i].turn == i + 1 == results[i].next.turn
         && rows[i].stateHash == results[i].stateHash && rows[i].rollHash == results[i].rollHash
  }

  /** The record of a match and a playback of it agree turn by turn. */
  ghost predicate Replays(seed: Word, initial: MatchState, rows: seq<Row>, final: MatchState, live: seq<TurnResult>) {
    Playback(seed, initial, EventsOf(rows)) == Some(Track(final, live)) && Faithful(rows, live)
  }

  lemma PlaybackStep(seed: Word, initial: MatchState, events: seq<InputEvent>, e: InputEvent, t: Track, r: TurnResult)
    requires Playback(seed, initial, events) == Some(t)
    requires StepSpec(t.state, e.inputs) == Some(r) && e.turn == t.state.turn + 1
    ensures Playback(seed, initial, events + [e]) == Some(Track(r.next, t.results + [r]))
  {
    hide StepSpec, Seeded;
    assert (events + [e])[..|events|] == events;
  }

  lemma EventsOfSnoc(rows: seq<Row>, row: Row)
    ensures EventsOf(rows + [row]) == EventsOf(rows) + [InputEvent(row.turn, row.relativeMs, row.inputs)]
  {
    assert (rows + [row])[..|rows|] == rows;
  }

  /** One more step of the simulator, recorded, replays as well. */
  lemma RecordExtends(seed: Word, initial: MatchState, rows: seq<Row>, m: MatchState, live: seq<TurnResult>,
                      row: Row, r: TurnResult)
    requires Replays(seed, initial, rows, m, live) && m.turn == |rows|
    requires StepSpec(m, row.inputs) == Some(r) && r.next.turn == m.turn + 1
    requires row.turn == r.next.turn && row.stateHash == r.stateHash && row.rollHash == r.rollHash
    ensures Replays(seed, initial, rows + [row], r.next, live + [r])
  {
    hide StepSpec, Playback, EventsOf;
    EventsOfSnoc(rows, row);
    PlaybackStep(seed, initial, EventsOf(rows), InputEvent(row.turn, row.relativeMs, row.inputs), Track(m, live), r);
  }

  lemma StepAdvances(m: MatchState, inputs: seq<TurnInput>)
    requires StepSpec(m, inputs).Some?
    ensures var n := StepSpec(m, inputs).value.next;
            n.turn == m.turn + 1 && n.p1.id == m.p1.id && n.p2.id == m.p2.id
  {
    hide Turn.Play, InputOf, Checksum.StateHash, Checksum.RollHash, Iterate;
    PlayAdvances(m, Canonical(m, inputs).value, TapeOf(m.rng));
  }

  /** Inputs from the two fighters are always acceptable, and so is their canonical form. */
  lemma PairIsAcceptable(m: MatchState, i1: TurnInput, i2: TurnInput)
    requires ProperIds(m) && i1.player == m.p1.id && i2.player == m.p2.id
    ensures Acceptable(m, [i1, i2])
  {
  }

  lemma CanonicalHasNoFault(m: MatchState, inputs: seq<TurnInput>)
    requires Canonical(m, inputs).Some?
    ensures Fault(m, Canonical(m, inputs).value).None?
  {
    hide InputOf;
    CanonicalIsIdempotent(m, inputs);
    FaultMeaning(m, Canonical(m, inputs).value);
  }

  /** Distinct players, slots and generators. */
  ghost predicate AtTheTable(sim: CombatSimulator, slot1: MatchSlot, slot2: MatchSlot)
    reads sim, sim.rng
  {
    && sim.Valid() && ProperIds(sim.state)
    && slot1 != slot2 && slot1.npcRng != slot2.npcRng && slot1.npcRng != sim.rng && slot2.npcRng != sim.rng
    && slot1.id == sim.state.p1.id && slot2.id == sim.state.p2.id
  }

  // ---------- the course of a match as a function ----------

  /** Everything a match carries from turn to turn: the combat state and who controls the two slots. */
  datatype Live = Live(state: MatchState, c1: Control, c2: Control)

  datatype Round = Stopped | Failed | Played(inputs: seq<TurnInput>, result: TurnResult)

  /** A human's wait was cancelled. */
  predicate Interrupted(l: Live, now: Moment) {
    (!l.c1.npc && now.a1 == Cancel) || (!l.c2.npc && now.a2 == Cancel)
  }

  /** One turn: both slots contribute, and the canonical pair is resolved. */
  function RoundSpec(l: Live, now: Moment): (Round, Live) {
    var (c1, i1) := SlotTurn(l.state, l.state.p1.id, l.c1, now.a1);
    var (c2, i2) := SlotTurn(l.state, l.state.p2.id, l.c2, now.a2);
    if Interrupted(l, now) then (Stopped, l)
    else
      match Canonical(l.state, [i1, i2])
      case None => (Failed, l)
      case Some(pair) =>
        match StepSpec(l.state, pair)
        case None => (Failed, l)
        case Some(r) => (Played(pair, r), Live(r.next, c1, c2))
  }

  function RowOf(round: Round, startMs: int, clockMs: int): Row
    requires round.Played?
  {
    Row(round.result.next.turn, if clockMs - startMs < 0 then 0 else clockMs - startMs, round.inputs,
        round.result.stateHash, round.result.rollHash)
  }

  /** A match in progress: what is recorded and what was shown, and whether the loop has seen that it is over. */
  datatype Course = Course(live: Live, rows: seq<Row>, results: seq<TurnResult>, over: bool)

  function Onward(c: Course, startMs: int, now: Moment): Option<Course> {
    if c.over then Some(c)
    else if now.cancelled then None
    else if c.live.state.outcome.finished then Some(c.(over := true))
    else
      var (round, live) := RoundSpec(c.live, now);
      if !round.Played? || !now.animated then None
      else Some(Course(live, c.rows + [RowOf(round, startMs, now.clockMs)], c.results + [round.result], false))
  }

  /** The loop over the given moments, or nothing when it is cut short. The field `swapped` plays no part. */
  function CourseOf(start: Live, startMs: int, moments: seq<Moment>): Option<Course> {
    if moments == [] then Some(Course(start, [], [], false))
    else
      match CourseOf(start, startMs, moments[..|moments| - 1])
      case None => None
      case Some(c) => Onward(c, startMs, moments[|moments| - 1])
  }

  lemma CourseSnoc(start: Live, startMs: int, moments: seq<Moment>, n: nat)
    requires n < |moments|
    ensures CourseOf(start, startMs, moments[..n + 1]) ==
            match CourseOf(start, startMs, moments[..n])
            case None => None
            case Some(c) => Onward(c, startMs, moments[n])
  {
    hide Onward;
    assert moments[..n + 1][..n] == moments[..n];
  }

  /** A match that was cut short, or is over, stays so. */
  lemma {:induction false} CourseSettles(start: Live, startMs: int, moments: seq<Moment>, n: nat)
    requires n <= |moments|
    requires CourseOf(start, startMs, moments[..n]).Some? ==> CourseOf(start, startMs, moments[..n]).value.over
    ensures CourseOf(start, startMs, moments) == CourseOf(start, startMs, moments[..n])
    decreases |moments| - n
  {
    hide RoundSpec;
    if n == |moments| {
      assert moments[..n] == moments;
    } else {
      CourseSnoc(start, startMs, moments, n);
      CourseSettles(start, startMs, moments, n + 1);
    }
  }

  lemma OpenIsDraw(o: Outcome)
    ensures !o.finished ==> MapResult(o) == Verdict(Draw, None)
  {
  }

  lemma NoArrivals(moments: seq<Moment>)
    ensures Arrivals1(moments[..0]) == [] && Arrivals2(moments[..0]) == [] && Flags([]) == (false, 0)
  {
  }

  lemma ArrivalsSnoc(moments: seq<Moment>, n: nat)
    requires n < |moments|
    ensures Arrivals1(moments[..n + 1]) == Arrivals1(moments[..n]) + [moments[n].a1]
    ensures Arrivals2(moments[..n + 1]) == Arrivals2(moments[..n]) + [moments[n].a2]
  {
  }

  lemma NothingRecorded(seed: Word, initial: MatchState)
    ensures Replays(seed, initial, [], initial.(rng := Seeded(seed)), [])
  {
    hide Seeded;
  }

  // ---------- what holds of every course ----------

  /** A new match: nobody has been taken over yet. */
  predicate AtStart(seed: Word, initial: MatchState, start: Live) {
    && start.state == initial.(rng := Seeded(seed)) && initial.turn == 0 && ProperIds(initial)
    && !start.c1.npc && !start.c2.npc && start.c1.streak == start.c2.streak == 0
  }

  /** The record replays to what was shown, numbered from 1, and control of the slots follows the arrivals. */
  ghost predicate TrueRecord(seed: Word, initial: MatchState, c: Course, moments: seq<Moment>) {
    var n := |c.rows|;
    && n <= |moments| && c.live.state.turn == n
    && c.live.state.p1.id == initial.p1.id && c.live.state.p2.id == initial.p2.id
    && Replays(seed, initial, c.rows, c.live.state, c.results)
    && (c.live.c1.npc, c.live.c1.streak) == Flags(Arrivals1(moments[..n]))
    && (c.live.c2.npc, c.live.c2.streak) == Flags(Arrivals2(moments[..n]))
    && Uncancelled(Arrivals1(moments[..n])) && Uncancelled(Arrivals2(moments[..n]))
    && (c.over ==> c.live.state.outcome.finished)
    && (!c.over ==> n == |moments|)
  }

  lemma RoundIsStep(l: Live, now: Moment)
    requires ProperIds(l.state) && (l.c1.npc ==> l.c1.streak == 0) && (l.c2.npc ==> l.c2.streak == 0)
    requires RoundSpec(l, now).0.Played?
    ensures var (round, next) := RoundSpec(l, now);
            && StepSpec(l.state, round.inputs) == Some(round.result) && next.state == round.result.next
            && (now.a1 == Cancel ==> l.c1.npc) && (now.a2 == Cancel ==> l.c2.npc)
            && (next.c1.npc, next.c1.streak) == Stepped((l.c1.npc, l.c1.streak), now.a1)
            && (next.c2.npc, next.c2.streak) == Stepped((l.c2.npc, l.c2.streak), now.a2)
  {
    hide StepSpec, SlotTurn, Canonical, Stepped;
    FlagsStep(l.state, l.state.p1.id, l.c1, now.a1);
    FlagsStep(l.state, l.state.p2.id, l.c2, now.a2);
  }

  lemma AdvanceIsTrue(seed: Word, initial: MatchState, c: Course, startMs: int, moments: seq<Moment>, n: nat)
    requires n < |moments| && !c.over && ProperIds(initial) && TrueRecord(seed, initial, c, moments[..n])
    requires Onward(c, startMs, moments[n]).Some?
    ensures TrueRecord(seed, initial, Onward(c, startMs, moments[n]).value, moments[..n + 1])
  {
    hide StepSpec, RoundSpec, Flags, Stepped, Arrivals1, Arrivals2, Replays, Uncancelled;
    var now, d := moments[n], Onward(c, startMs, moments[n]).value;
    assert moments[..n][..n] == moments[..n] && moments[..n + 1][..n] == moments[..n];
    if !d.over {
      var m, round := c.live.state, RoundSpec(c.live, now).0;
      FlagsAtRest(Arrivals1(moments[..n]));
      FlagsAtRest(Arrivals2(moments[..n]));
      RoundIsStep(c.live, now);
      StepAdvances(m, round.inputs);
      RecordExtends(seed, initial, c.rows, m, c.results, RowOf(round, startMs, now.clockMs), round.result);
      ArrivalsSnoc(moments, n);
      FlagsSnoc(Arrivals1(moments[..n]), now.a1);
      FlagsSnoc(Arrivals2(moments[..n]), now.a2);
      UncancelledSnoc(Arrivals1(moments[..n]), now.a1);
      UncancelledSnoc(Arrivals2(moments[..n]), now.a2);
      assert moments[..n + 1][..n + 1] == moments[..n + 1];
    }
  }

  lemma TrueLater(seed: Word, initial: MatchState, c: Course, moments: seq<Moment>, n: nat)
    requires n < |moments| && c.over && TrueRecord(seed, initial, c, moments[..n])
    ensures TrueRecord(seed, initial, c, moments[..n + 1])
  {
    hide Flags, Arrivals1, Arrivals2, Replays;
    assert moments[..n][..|c.rows|] == moments[..n + 1][..|c.rows|];
  }

  /**
   Record and replay, for every seed, every pair of fighters and everything the outside world may do: whenever a
   match is recorded, playing the record back from the same seed and initial state goes through and gives the same
   results, and the computer controls a slot exactly when its arrivals say so.
   */
  lemma {:induction false} EveryMatchReplays(seed: Word, initial: MatchState, start: Live, startMs: int,
                                             moments: seq<Moment>)
    requires AtStart(seed, initial, start) && CourseOf(start, startMs, moments).Some?
    ensures TrueRecord(seed, initial, CourseOf(start, startMs, moments).value, moments)
  {
    hide Onward, Flags, Arrivals1, Arrivals2, Replays, TrueRecord, Seeded;
    if moments == [] {
      NothingRecorded(seed, initial);
      NothingIsTrue(seed, initial, start);
    } else {
      var n := |moments| - 1;
      EveryMatchReplays(seed, initial, start, startMs, moments[..n]);
      var c := CourseOf(start, startMs, moments[..n]).value;
      assert moments[..n + 1] == moments;
      CourseSnoc(start, startMs, moments, n);
      if c.over {
        TrueLater(seed, initial, c, moments, n);
        OverStays(c, startMs, moments[n]);
      } else {
        AdvanceIsTrue(seed, initial, c, startMs, moments, n);
      }
    }
  }

  lemma OverStays(c: Course, startMs: int, now: Moment)
    requires c.over
    ensures Onward(c, startMs, now) == Some(c)
  {
  }

  lemma NothingIsTrue(seed: Word, initial: MatchState, start: Live)
    requires AtStart(seed, initial, start)
    requires Replays(seed, initial, [], start.state, [])
    ensures TrueRecord(seed, initial, Course(start, [], [], false), [])
  {
    hide Replays;
    var none: seq<Moment> := [];
    NoArrivals(none);
    assert none[..0] == none;
  }

  // ---------- the loop ----------

  lemma AcceptedPair(m: MatchState, inputs: seq<TurnInput>)
    requires Acceptable(m, inputs)
    ensures Canonical(m, inputs).Some?
  {
    hide InputOf;
  }

  /** Collecting, canonicalising and stepping, once. It never fails: whatever the waits end in, two inputs of the two
      fighters come out, and an open match accepts them. */
  method PlayRound(sim: CombatSimulator, slot1: MatchSlot, slot2: MatchSlot, now: Moment) returns (round: Round)
    requires AtTheTable(sim, slot1, slot2) && !sim.state.outcome.finished
    modifies sim, sim.rng, slot1, slot1.npcRng, slot2, slot2.npcRng
    ensures sim.Valid() && round != Failed
    ensures var spec := RoundSpec(old(Live(sim.state, slot1.View(), slot2.View())), now);
            && round == spec.0
            && (round.Played? ==> Live(sim.state, slot1.View(), slot2.View()) == spec.1)
  {
    hide StepSpec, SlotTurn, Canonical, Fault, Acceptable;
    var state := sim.state;
    SlotTurnPlayer(state, slot1.id, slot1.View(), now.a1);
    SlotTurnPlayer(state, slot2.id, slot2.View(), now.a2);
    var inputs := CollectTurnInputs(state, slot1, slot2, now.a1, now.a2, now.swapped);
    if inputs.None? {
      return Stopped;
    }
    PairIsAcceptable(state, inputs.value[0], inputs.value[1]);
    assert inputs.value == [inputs.value[0], inputs.value[1]];
    AcceptedPair(state, inputs.value);
    var canonical := CanonicalizeInputs(state, inputs.value);
    if canonical.Err? {
      return Failed;
    }
    CanonicalHasNoFault(state, inputs.value);
    var step := sim.Step(canonical.value);
    if step.Err? {
      return Failed;
    }
    round := Played(canonical.value, step.value);
  }

  /** The turn loop follows `CourseOf`, which knows nothing of the order in which the replies of a turn come in:
      neither the rows nor the state, the control of the slots and their random streams depend on it. */
  method PlayTurns(sim: CombatSimulator, slot1: MatchSlot, slot2: MatchSlot, startMs: int, moments: seq<Moment>)
    returns (rows: Option<seq<Row>>)
    requires AtTheTable(sim, slot1, slot2)
    modifies sim, sim.rng, slot1, slot1.npcRng, slot2, slot2.npcRng
    ensures var course := CourseOf(old(Live(sim.state, slot1.View(), slot2.View())), startMs, moments);
            && (rows.None? <==> course.None?)
            && (rows.Some? ==>
                  && rows.value == course.value.rows
                  && Live(sim.state, slot1.View(), slot2.View()) == course.value.live)
  {
    hide RoundSpec, StepSpec;
    ghost var start := Live(sim.state, slot1.View(), slot2.View());
    var recorded: seq<Row> := [];
    ghost var live: seq<TurnResult> := [];
    var turn := 0;
    while turn < |moments|
      invariant turn <= |moments|
      invariant AtTheTable(sim, slot1, slot2)
      invariant CourseOf(start, startMs, moments[..turn])
             == Some(Course(Live(sim.state, slot1.View(), slot2.View()), recorded, live, false))
    {
      CourseSnoc(start, startMs, moments, turn);
      var now := moments[turn];
      if now.cancelled {
        CourseSettles(start, startMs, moments, turn + 1);
        return None;
      }
      if sim.state.outcome.finished {
        CourseSettles(start, startMs, moments, turn + 1);
        return Some(recorded);
      }
      ghost var before := Live(sim.state, slot1.View(), slot2.View());
      var round := PlayRound(sim, slot1, slot2, now);
      if !round.Played? {
        CourseSettles(start, startMs, moments, turn + 1);
        return None;
      }
      RoundKeepsSeats(before, now);
      var ms := if now.clockMs - startMs < 0 then 0 else now.clockMs - startMs;
      var row := Row(round.result.next.turn, ms, round.inputs, round.result.stateHash, round.result.rollHash);
      recorded := recorded + [row];
      live := live + [round.result];
      if !now.animated {
        CourseSettles(start, startMs, moments, turn + 1);
        return None;
      }
      turn := turn + 1;
    }
    assert moments[..turn] == moments;
    rows := Some(recorded);
  }

  lemma RoundKeepsSeats(l: Live, now: Moment)
    requires ProperIds(l.state) && RoundSpec(l, now).0.Played?
    ensures var m := RoundSpec(l, now).1.state;
            ProperIds(m) && m.p1.id == l.state.p1.id && m.p2.id == l.state.p2.id
  {
    hide StepSpec, SlotTurn, Canonical;
    StepAdvances(l.state, RoundSpec(l, now).0.inputs);
  }

  /** How a match between two new fighters begins. */
  function Begun(seed: Word, initial: MatchState): Live {
    Live(initial.(rng := Seeded(seed)),
         Control(false, 0, Seeded(SeedWithSalt(seed, SALT1))), Control(false, 0, Seeded(SeedWithSalt(seed, SALT2))))
  }

  /** What `runMatch` makes of the moments. */
  function EndingOf(p1: Id, p2: Id, arch1: Archetype, arch2: Archetype, seed: Word, startMs: int,
                    moments: seq<Moment>): Ending
  {
    match (NewFighter(p1, arch1), NewFighter(p2, arch2))
    case (Some(f1), Some(f2)) =>
      var initial := NewMatchState(f1, f2);
      (match CourseOf(Begun(seed, initial), startMs, moments)
       case None => Cancelled
       case Some(c) => Completed(seed, initial, c.rows, MapResult(c.live.state.outcome)))
    case _ => Aborted
  }

  /** A match between two different players over at most |moments| turns. */
  method RunMatch(p1: Id, p2: Id, arch1: Archetype, arch2: Archetype, seed: Word, startMs: int, moments: seq<Moment>)
    returns (ending: Ending)
    requires p1 != [] && p2 != [] && p1 != p2
    ensures ending == EndingOf(p1, p2, arch1, arch2, seed, startMs, moments)
  {
    hide SeedWithSalt, CourseOf, MapResult, Seeded;
    var fighter1, fighter2 := NewFighter(p1, arch1), NewFighter(p2, arch2);
    if fighter1.None? {
      return Aborted;
    }
    if fighter2.None? {
      return Aborted;
    }
    var initial := NewMatchState(fighter1.value, fighter2.value);
    var sim := new CombatSimulator(initial, seed);
    var slot1 := new MatchSlot(p1, false, SeedWithSalt(seed, SALT1));
    var slot2 := new MatchSlot(p2, false, SeedWithSalt(seed, SALT2));
    var rows := PlayTurns(sim, slot1, slot2, startMs, moments);
    if rows.None? {
      return Cancelled;
    }
    var verdict := MapResult(sim.state.outcome);
    OpenIsDraw(sim.state.outcome);
    if !sim.state.outcome.finished {
      verdict := Verdict(Draw, None);
    }
    ending := Completed(seed, initial, rows.value, verdict);
  }

  // ---------- what reaches the store ----------

  /** In every recorded match each slot is the computer's exactly when its waits held a disconnect or two timeouts
      in a row. */
  lemma TakeoversAreDeserved(seed: Word, initial: MatchState, start: Live, startMs: int, moments: seq<Moment>)
    requires AtStart(seed, initial, start) && CourseOf(start, startMs, moments).Some?
    ensures var c := CourseOf(start, startMs, moments).value;
            && |c.rows| <= |moments|
            && var history1, history2 := Arrivals1(moments[..|c.rows|]), Arrivals2(moments[..|c.rows|]);
            && (c.live.c1.npc <==> Dropped(history1) || WentQuiet(history1))
            && (c.live.c2.npc <==> Dropped(history2) || WentQuiet(history2))
  {
    hide CourseOf, Flags, Arrivals1, Arrivals2, Replays, Uncancelled, AtStart;
    EveryMatchReplays(seed, initial, start, startMs, moments);
    var n := |CourseOf(start, startMs, moments).value.rows|;
    TakeoverMeaning(Arrivals1(moments[..n]));
    TakeoverMeaning(Arrivals2(moments[..n]));
  }

  lemma BegunIsAtStart(p1: Id, p2: Id, arch1: Archetype, arch2: Archetype, seed: Word)
    requires p1 != [] && p2 != [] && p1 != p2 && NewFighter(p1, arch1).Some? && NewFighter(p2, arch2).Some?
    ensures var initial := NewMatchState(NewFighter(p1, arch1).value, NewFighter(p2, arch2).value);
            AtStart(seed, initial, Begun(seed, initial))
  {
    hide Seeded, SeedWithSalt;
  }

  /** Every stored match replays without an error and reproduces each turn's checksums; its verdict is the outcome
      of the replayed final state. */
  lemma StoredMatchReplays(p1: Id, p2: Id, arch1: Archetype, arch2: Archetype, seed: Word, startMs: int,
                           moments: seq<Moment>)
    requires p1 != [] && p2 != [] && p1 != p2
    ensures var e := EndingOf(p1, p2, arch1, arch2, seed, startMs, moments);
            e.Completed? ==>
              var played := Playback(e.seed, e.initial, EventsOf(e.rows));
              && played.Some?
              && Faithful(e.rows, played.value.results)
              && e.verdict == MapResult(played.value.state.outcome)
              && (played.value.state.outcome.finished || |e.rows| == |moments|)
  {
    hide CourseOf, Playback, MapResult, Begun, AtStart, Faithful;
    if EndingOf(p1, p2, arch1, arch2, seed, startMs, moments).Completed? {
      BegunIsAtStart(p1, p2, arch1, arch2, seed);
      var initial := NewMatchState(NewFighter(p1, arch1).value, NewFighter(p2, arch2).value);
      EveryMatchReplays(seed, initial, Begun(seed, initial), startMs, moments);
    }
  }

  /**
   A stored match is the history of a match between new fighters, with the stored inputs and the seed's own rolls, and
   its checksums are those of that history: what is proved of matches holds of it.
   */
  lemma StoredMatchIsAMatch(p1: Id, p2: Id, arch1: Archetype, arch2: Archetype, seed: Word, startMs: int,
                            moments: seq<Moment>) returns (m: Runs.Match)
    requires p1 != [] && p2 != [] && p1 != p2
    requires EndingOf(p1, p2, arch1, arch2, seed, startMs, moments).Completed?
    ensures var e := EndingOf(p1, p2, arch1, arch2, seed, startMs, moments);
            && m.Played() && IsFresh(m.start) && m.start == e.initial.(rng := Seeded(e.seed))
            && OwnRolls(EventsOf(e.rows), m) && |m.turns| == |e.rows|
            && (forall i :: 0 <= i < |e.rows| ==>
                  && m.script[i].inputs == e.rows[i].inputs
                  && Checksum.RollHash(m.turns[i].rolls) == e.rows[i].rollHash
                  && Checksum.StateHash(m.runs[i + 1].state) == e.rows[i].stateHash)
            && e.verdict == MapResult(m.Last().state.outcome)
  {
    var e := EndingOf(p1, p2, arch1, arch2, seed, startMs, moments);
    StoredMatchIsFresh(p1, p2, arch1, arch2, seed, startMs, moments);
    hide EndingOf, Playback, MapResult, Seeded, Match.Turned, OwnRolls, Faithful, SameStory, EventsOf, IsFresh;
    StoredMatchReplays(p1, p2, arch1, arch2, seed, startMs, moments);
    m := PlaybackIsAMatch(e.seed, e.initial, EventsOf(e.rows));
    RowsTellTheStory(e.rows, Playback(e.seed, e.initial, EventsOf(e.rows)).value, m);
  }

  lemma StoredMatchIsFresh(p1: Id, p2: Id, arch1: Archetype, arch2: Archetype, seed: Word, startMs: int,
                           moments: seq<Moment>)
    requires p1 != [] && p2 != [] && p1 != p2
    ensures var e := EndingOf(p1, p2, arch1, arch2, seed, startMs, moments);
            e.Completed? ==> IsFresh(e.initial.(rng := Seeded(e.seed)))
  {
    hide CourseOf, MapResult, Begun, Seeded;
  }

  lemma RowsTellTheStory(rows: seq<Row>, t: Track, m: Runs.Match)
    requires Faithful(rows, t.results) && SameStory(t, m) && OwnRolls(EventsOf(rows), m)
    ensures |m.turns| == |rows| && |m.script| == |rows| && |m.runs| == |rows| + 1 && m.Last().state == t.state
    ensures forall i :: 0 <= i < |rows| ==>
              && m.script[i].inputs == rows[i].inputs
              && Checksum.RollHash(m.turns[i].rolls) == rows[i].rollHash
              && Checksum.StateHash(m.runs[i + 1].state) == rows[i].stateHash
  {
    hide EventsOf, Checksum.RollHash, Checksum.StateHash;
  }

  /** A match is cut short only by a cancellation or a broken-off animation, never by its players' inputs. */
  lemma {:induction false} OnlyCancellationStops(start: Live, startMs: int, moments: seq<Moment>)
    requires ProperIds(start.state)
    requires forall i :: 0 <= i < |moments| ==>
               !moments[i].cancelled && moments[i].animated && moments[i].a1 != Cancel && moments[i].a2 != Cancel
    ensures CourseOf(start, startMs, moments).Some? && ProperIds(CourseOf(start, startMs, moments).value.live.state)
  {
    hide RoundSpec;
    if moments != [] {
      var n := |moments| - 1;
      OnlyCancellationStops(start, startMs, moments[..n]);
      var c := CourseOf(start, startMs, moments[..n]).value;
      if !c.over && !c.live.state.outcome.finished {
        RoundGoesThrough(c.live, moments[n]);
        RoundKeepsSeats(c.live, moments[n]);
      }
    }
  }

  lemma RoundGoesThrough(l: Live, now: Moment)
    requires ProperIds(l.state) && !l.state.outcome.finished && !Interrupted(l, now)
    ensures RoundSpec(l, now).0.Played?
  {
    hide SlotTurn, Canonical, Acceptable, Fault;
    SlotTurnPlayer(l.state, l.state.p1.id, l.c1, now.a1);
    SlotTurnPlayer(l.state, l.state.p2.id, l.c2, now.a2);
    var inputs := [SlotTurn(l.state, l.state.p1.id, l.c1, now.a1).1, SlotTurn(l.state, l.state.p2.id, l.c2, now.a2).1];
    PairIsAcceptable(l.state, inputs[0], inputs[1]);
    AcceptedPair(l.state, inputs);
    hide StepSpec;
    AcceptedStep(l.state, inputs);
  }

  lemma AcceptedStep(m: MatchState, inputs: seq<TurnInput>)
    requires Canonical(m, inputs).Some? && !m.outcome.finished
    ensures StepSpec(m, Canonical(m, inputs).value).Some?
  {
    hide InputOf, Turn.Play;
    CanonicalIsIdempotent(m, inputs);
  }
}
