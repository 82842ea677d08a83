/** What the players command is what is played, recorded and stored; and what a stored match is said to have ended in.
    */
module Commands {
  import opened Words
  import opened CombatTypes
  import opened Rules
  import opened Order
  import opened Rng
  import opened Invariant
  import opened Runs
  import opened Ledger
  import opened Finish
  import opened Simulator
  import opened Npc
  import opened Slots
  import opened Match
  import B = Rulebook

  // ---------- one turn ----------

  /** The player's one input of the turn is `x`. */
  predicate Plays(inputs: seq<TurnInput>, id: Id, x: TurnInput) {
    x in inputs && x.player == id && forall y :: y in inputs && y.player == id ==> y == x
  }

  /** A slot in the computer's hands, this turn at the latest, plays the computer's decision; otherwise a command is
      played as it was given, undeclared actions counting as none and undeclared zones as the torso, and a lone
      timeout as doing nothing. */
  predicate PlaysItsPart(inputs: seq<TurnInput>, id: Id, taken: bool, now: Arrival, decision: Option<TurnInput>) {
    if taken then decision.Some? && Plays(inputs, id, decision.value)
    else match now
      case Command(a, z, ms) => Plays(inputs, id, TurnInput(id, B.Declared(a), B.Aim(z), ms))
      case Timeout => Plays(inputs, id, TurnInput(id, NoAction, Torso, 0))
      case _ => false
  }

  /** The same for the input alone. */
  predicate IsItsPart(x: TurnInput, id: Id, taken: bool, now: Arrival, decision: Option<TurnInput>) {
    if taken then decision == Some(x)
    else match now
      case Command(a, z, ms) => x == TurnInput(id, B.Declared(a), B.Aim(z), ms)
      case Timeout => x == TurnInput(id, NoAction, Torso, 0)
      case _ => false
  }

  lemma ComputersInput(m: MatchState, id: Id, gen: Word)
    requires id != [] && (id == m.p1.id || id == m.p2.id)
    ensures DecideSpec(m, id, gen).0 == Some(NpcInput(m, id, gen))
    ensures NormalizeInput(NpcInput(m, id, gen), id) == NpcInput(m, id, gen)
  {
    hide DecideSpec;
    DecideMeaning(m, id, gen);
  }

  lemma SlotPlaysItsPart(m: MatchState, id: Id, c: Control, now: Arrival)
    requires id != [] && (id == m.p1.id || id == m.p2.id) && (c.npc ==> c.streak == 0) && (now == Cancel ==> c.npc)
    ensures var (next, x) := SlotTurn(m, id, c, now);
            var taken := c.npc || now == Disconnect || (now == Timeout && c.streak >= 1);
            var decided := DecideSpec(m, id, c.gen);
            && next.npc == taken && x.player == id && IsItsPart(x, id, taken, now, decided.0)
            && next.gen == if taken then decided.1 else c.gen
  {
    hide DecideSpec;
    ComputersInput(m, id, c.gen);
    SlotTurnPlayer(m, id, c, now);
    hide NpcInput;
  }

  lemma PairHoldsBoth(m: MatchState, i1: TurnInput, i2: TurnInput)
    requires ProperIds(m) && i1.player == m.p1.id && i2.player == m.p2.id
    requires !i1.target.OtherZone? && !i2.target.OtherZone?
    ensures Canonical(m, [i1, i2]).Some?
    ensures var pair := Canonical(m, [i1, i2]).value; Plays(pair, m.p1.id, i1) && Plays(pair, m.p2.id, i2)
  {
    var inputs := [i1, i2];
    PairIsAcceptable(m, i1, i2);
    InputOfFacts(inputs, m.p1.id);
    InputOfFacts(inputs, m.p2.id);
    assert inputs[0] == i1 && inputs[1] == i2;
    hide InputOf, Before;
    var pair := Canonical(m, inputs).value;
    assert pair == [i1, i2] || pair == [i2, i1];
    assert i1 in pair && i2 in pair;
  }

  lemma PartIsAimed(m: MatchState, x: TurnInput, id: Id, taken: bool, now: Arrival, gen: Word)
    requires id != [] && (id == m.p1.id || id == m.p2.id) && IsItsPart(x, id, taken, now, DecideSpec(m, id, gen).0)
    ensures x.target in {Head, Torso, Legs}
    ensures forall inputs :: Plays(inputs, id, x) ==> PlaysItsPart(inputs, id, taken, now, DecideSpec(m, id, gen).0)
  {
    hide DecideSpec;
    DecideMeaning(m, id, gen);
  }

  /** What a round plays is what the two slots were told, or what the computer decides for them; and a slot's random
      stream moves on only for the computer's decisions. */
  lemma RoundPlaysTheCommands(l: Live, now: Moment)
    requires ProperIds(l.state) && (l.c1.npc ==> l.c1.streak == 0) && (l.c2.npc ==> l.c2.streak == 0)
    requires RoundSpec(l, now).0.Played?
    ensures var (round, next) := RoundSpec(l, now);
            var decided1 := DecideSpec(l.state, l.state.p1.id, l.c1.gen);
            var decided2 := DecideSpec(l.state, l.state.p2.id, l.c2.gen);
            && |round.inputs| == 2
            && PlaysItsPart(round.inputs, l.state.p1.id, next.c1.npc, now.a1, decided1.0)
            && PlaysItsPart(round.inputs, l.state.p2.id, next.c2.npc, now.a2, decided2.0)
            && next.c1.npc == (l.c1.npc || now.a1 == Disconnect || (now.a1 == Timeout && l.c1.streak >= 1))
            && next.c2.npc == (l.c2.npc || now.a2 == Disconnect || (now.a2 == Timeout && l.c2.streak >= 1))
            && next.c1.gen == (if next.c1.npc then decided1.1 else l.c1.gen)
            && next.c2.gen == (if next.c2.npc then decided2.1 else l.c2.gen)
  {
    var m, id1, id2 := l.state, l.state.p1.id, l.state.p2.id;
    hide StepSpec, SlotTurn, DecideSpec, Canonical, Plays, IsItsPart, PlaysItsPart;
    var (n1, i1) := SlotTurn(m, id1, l.c1, now.a1);
    var (n2, i2) := SlotTurn(m, id2, l.c2, now.a2);
    SlotPlaysItsPart(m, id1, l.c1, now.a1);
    SlotPlaysItsPart(m, id2, l.c2, now.a2);
    PartIsAimed(m, i1, id1, n1.npc, now.a1, l.c1.gen);
    PartIsAimed(m, i2, id2, n2.npc, now.a2, l.c2.gen);
    PairHoldsBoth(m, i1, i2);
    CanonicalIsIdempotent(m, [i1, i2]);
  }

  // ---------- the rows of a match ----------

  /** Row i was written by moment i, in the match as the moments before had left it. */
  lemma {:induction false} RowAt(start: Live, startMs: int, moments: seq<Moment>, i: nat)
    requires CourseOf(start, startMs, moments).Some? && i < |CourseOf(start, startMs, moments).value.rows|
    ensures |CourseOf(start, startMs, moments).value.rows| <= |moments|
    ensures var c, before := CourseOf(start, startMs, moments).value, CourseOf(start, startMs, moments[..i]);
            && before.Some? && !before.value.over && |before.value.rows| == i
            && RoundSpec(before.value.live, moments[i]).0.Played? && moments[i].animated && !moments[i].cancelled
            && !before.value.live.state.outcome.finished
            && c.rows[i] == RowOf(RoundSpec(before.value.live, moments[i]).0, startMs, moments[i].clockMs)
            && CourseOf(start, startMs, moments[..i + 1]) == Onward(before.value, startMs, moments[i])
  {
    hide RoundSpec, RowOf;
    var n := |moments| - 1;
    var d := CourseOf(start, startMs, moments[..n]).value;
    RowsFit(start, startMs, moments[..n]);
    RowsFit(start, startMs, moments);
    if i < |d.rows| {
      RowAt(start, startMs, moments[..n], i);
      assert moments[..n][..i] == moments[..i] && moments[..n][..i + 1] == moments[..i + 1];
    } else {
      assert i == n;
      assert moments[..i + 1] == moments;
    }
  }

  /** As long as the match is not seen to be over every moment writes a row. */
  lemma {:induction false} RowsFit(start: Live, startMs: int, moments: seq<Moment>)
    ensures CourseOf(start, startMs, moments).Some? ==>
              var c := CourseOf(start, startMs, moments).value;
              |c.rows| <= |moments| && (!c.over ==> |c.rows| == |moments|)
  {
    hide RoundSpec, RowOf;
    if moments != [] {
      RowsFit(start, startMs, moments[..|moments| - 1]);
    }
  }

  /** What a slot's arrivals so far make it play now. */
  predicate FollowsArrivals(row: Row, id: Id, history: seq<Arrival>, decision: Option<TurnInput>)
    requires history != []
  {
    PlaysItsPart(row.inputs, id, Dropped(history) || WentQuiet(history), history[|history| - 1], decision)
  }

  /** A row of a match, with the state and the random streams that it was played from. */
  predicate RowIsDue(row: Row, i: nat, live: Live, startMs: int, clockMs: int, history1: seq<Arrival>,
                     history2: seq<Arrival>)
    requires history1 != [] && history2 != []
  {
    && row.turn == i + 1 && |row.inputs| == 2
    && row.relativeMs == (if clockMs < startMs then 0 else clockMs - startMs)
    && FollowsArrivals(row, live.state.p1.id, history1, DecideSpec(live.state, live.state.p1.id, live.c1.gen).0)
    && FollowsArrivals(row, live.state.p2.id, history2, DecideSpec(live.state, live.state.p2.id, live.c2.gen).0)
  }

  lemma RowOfRound(l: Live, now: Moment, startMs: int, i: nat, history1: seq<Arrival>, history2: seq<Arrival>)
    requires ProperIds(l.state) && (l.c1.npc ==> l.c1.streak == 0) && (l.c2.npc ==> l.c2.streak == 0)
    requires RoundSpec(l, now).0.Played? && RoundSpec(l, now).1.state.turn == i + 1
    requires history1 != [] && history2 != []
    requires history1[|history1| - 1] == now.a1 && history2[|history2| - 1] == now.a2
    requires RoundSpec(l, now).1.c1.npc == (Dropped(history1) || WentQuiet(history1))
    requires RoundSpec(l, now).1.c2.npc == (Dropped(history2) || WentQuiet(history2))
    ensures RowIsDue(RowOf(RoundSpec(l, now).0, startMs, now.clockMs), i, l, startMs, now.clockMs, history1, history2)
  {
    RoundPlaysTheCommands(l, now);
    RoundState(l, now);
    hide RoundSpec, PlaysItsPart, DecideSpec, Dropped, WentQuiet;
  }

  lemma RoundState(l: Live, now: Moment)
    requires RoundSpec(l, now).0.Played?
    ensures RoundSpec(l, now).1.state == RoundSpec(l, now).0.result.next
  {
    hide StepSpec, SlotTurn, Canonical;
  }

  lemma CourseAt(seed: Word, initial: MatchState, start: Live, startMs: int, moments: seq<Moment>, i: nat)
    requires AtStart(seed, initial, start) && i <= |moments|
    requires CourseOf(start, startMs, moments[..i]).Some? && !CourseOf(start, startMs, moments[..i]).value.over
    ensures var live := CourseOf(start, startMs, moments[..i]).value.live;
            && live.state.turn == i && live.state.p1.id == initial.p1.id && live.state.p2.id == initial.p2.id
            && live.c1.npc == (Dropped(Arrivals1(moments[..i])) || WentQuiet(Arrivals1(moments[..i])))
            && live.c2.npc == (Dropped(Arrivals2(moments[..i])) || WentQuiet(Arrivals2(moments[..i])))
            && (live.c1.npc ==> live.c1.streak == 0) && (live.c2.npc ==> live.c2.streak == 0)
  {
    hide CourseOf, Flags, Arrivals1, Arrivals2, Replays, Uncancelled, Dropped, WentQuiet;
    EveryMatchReplays(seed, initial, start, startMs, moments[..i]);
    assert moments[..i][..i] == moments[..i];
    FlagsAtRest(Arrivals1(moments[..i]));
    FlagsAtRest(Arrivals2(moments[..i]));
    TakeoverMeaning(Arrivals1(moments[..i]));
    TakeoverMeaning(Arrivals2(moments[..i]));
  }

  /** Row after row, a match plays what its slots were told at that moment, or the computer's decisions. */
  lemma CourseFollowsCommands(seed: Word, initial: MatchState, start: Live, startMs: int, moments: seq<Moment>, i: nat)
    requires AtStart(seed, initial, start) && CourseOf(start, startMs, moments).Some?
    requires i < |CourseOf(start, startMs, moments).value.rows|
    ensures i < |moments| && CourseOf(start, startMs, moments[..i]).Some?
    ensures var live := CourseOf(start, startMs, moments[..i]).value.live;
            && live.state.p1.id == initial.p1.id && live.state.p2.id == initial.p2.id
            && RowIsDue(CourseOf(start, startMs, moments).value.rows[i], i, live, startMs, moments[i].clockMs,
                        Arrivals1(moments[..i + 1]), Arrivals2(moments[..i + 1]))
  {
    hide CourseOf, RoundSpec, Dropped, WentQuiet, RowIsDue;
    RowAt(start, startMs, moments, i);
    CourseAt(seed, initial, start, startMs, moments, i);
    CourseAt(seed, initial, start, startMs, moments, i + 1);
    ArrivalsSnoc(moments, i);
    hide Arrivals1, Arrivals2;
    var before := CourseOf(start, startMs, moments[..i]).value;
    RowOfRound(before.live, moments[i], startMs, i, Arrivals1(moments[..i + 1]), Arrivals2(moments[..i + 1]));
  }

  /** A stored row is due: `before` is the match as the moments before have left it. */
  predicate StoredRowIsDue(e: Ending, p1: Id, p2: Id, startMs: int, moments: seq<Moment>, i: nat)
    requires e.Completed? && i < |e.rows|
  {
    && i < |moments|
    && var before := CourseOf(Begun(e.seed, e.initial), startMs, moments[..i]);
       && before.Some? && before.value.live.state.p1.id == p1 && before.value.live.state.p2.id == p2
       && RowIsDue(e.rows[i], i, before.value.live, startMs, moments[i].clockMs,
                   Arrivals1(moments[..i + 1]), Arrivals2(moments[..i + 1]))
  }

  /**
   Row i of a stored match is dated by the clock at moment i and holds, for each slot, the command of that moment, or
   doing nothing after a first timeout, or, once a disconnect or two timeouts in a row have handed the slot over, what
   the computer decides in the match as the first i moments left it.
   */
  lemma StoredRowsAreTheCommands(p1: Id, p2: Id, arch1: Archetype, arch2: Archetype, seed: Word, startMs: int,
                                 moments: seq<Moment>, i: nat)
    requires p1 != [] && p2 != [] && p1 != p2
    requires EndingOf(p1, p2, arch1, arch2, seed, startMs, moments).Completed?
    requires i < |EndingOf(p1, p2, arch1, arch2, seed, startMs, moments).rows|
    ensures StoredRowIsDue(EndingOf(p1, p2, arch1, arch2, seed, startMs, moments), p1, p2, startMs, moments, i)
  {
    BegunIsAtStart(p1, p2, arch1, arch2, seed);
    var initial := NewMatchState(NewFighter(p1, arch1).value, NewFighter(p2, arch2).value);
    hide CourseOf, MapResult, Begun, AtStart, RowIsDue, Arrivals1, Arrivals2;
    CourseFollowsCommands(seed, initial, Begun(seed, initial), startMs, moments, i);
  }

  // ---------- how a match begins, and when it is cut short ----------

  /** A match is refused exactly for an archetype that is none; a stored one is between the two players that were
      called, each with the archetype they came with and nothing else that tells them apart, under the match's own
      seed. */
  lemma StoredMatchesBegin(p1: Id, p2: Id, arch1: Archetype, arch2: Archetype, seed: Word, startMs: int,
                           moments: seq<Moment>)
    ensures var e := EndingOf(p1, p2, arch1, arch2, seed, startMs, moments);
            && (e == Aborted <==> arch1.OtherArchetype? || arch2.OtherArchetype?)
            && (e.Completed? ==>
                  && e.seed == seed && e.initial.turn == 0 && e.initial.combat == Neutral && e.initial.distance == 1
                  && e.initial.outcome == Outcome(false, [], NoMethod)
                  && e.initial.p1.id == p1 && e.initial.p1.archetype == arch1 && B.Rested(e.initial.p1)
                  && e.initial.p2.id == p2 && e.initial.p2.archetype == arch2 && B.Rested(e.initial.p2))
  {
    hide CourseOf, MapResult, Begun;
  }

  /** A moment at which the loop gives up. */
  predicate GivesUp(c: Course, now: Moment) {
    !c.over && (now.cancelled || (!c.live.state.outcome.finished && (Interrupted(c.live, now) || !now.animated)))
  }

  predicate CutAt(start: Live, startMs: int, moments: seq<Moment>, n: nat)
    requires n < |moments|
  {
    var c := CourseOf(start, startMs, moments[..n]);
    c.Some? && GivesUp(c.value, moments[n])
  }

  lemma OnwardStops(c: Course, startMs: int, now: Moment)
    requires ProperIds(c.live.state)
    ensures Onward(c, startMs, now).None? <==> GivesUp(c, now)
    ensures Onward(c, startMs, now).Some? ==> ProperIds(Onward(c, startMs, now).value.live.state)
  {
    hide RoundSpec, Interrupted, RowOf;
    if !c.over && !c.live.state.outcome.finished && !now.cancelled {
      InterruptedStops(c.live, now);
      if !Interrupted(c.live, now) {
        RoundGoesThrough(c.live, now);
        RoundKeepsSeats(c.live, now);
      }
    }
  }

  lemma InterruptedStops(l: Live, now: Moment)
    ensures Interrupted(l, now) ==> !RoundSpec(l, now).0.Played?
  {
    hide StepSpec, SlotTurn, Canonical, Interrupted;
  }

  /** A match is cut short exactly when at some moment before its end it is cancelled, a wait of a human is, or the
      animation does not play to its end. */
  lemma {:induction false} StopsExactly(start: Live, startMs: int, moments: seq<Moment>)
    requires ProperIds(start.state)
    ensures CourseOf(start, startMs, moments).None? <==>
              exists n :: 0 <= n < |moments| && CutAt(start, startMs, moments, n)
    ensures CourseOf(start, startMs, moments).Some? ==> ProperIds(CourseOf(start, startMs, moments).value.live.state)
  {
    hide Onward, CutAt;
    if moments != [] {
      var n, c := |moments| - 1, CourseOf(start, startMs, moments[..|moments| - 1]);
      StopsExactly(start, startMs, moments[..n]);
      CutHere(start, startMs, moments, n);
      forall k | 0 <= k < n ensures CutAt(start, startMs, moments[..n], k) <==> CutAt(start, startMs, moments, k) {
        CutEarlier(start, startMs, moments, n, k);
      }
      if c.Some? {
        OnwardStops(c.value, startMs, moments[n]);
      } else {
        var k :| 0 <= k < n && CutAt(start, startMs, moments[..n], k);
        assert CutAt(start, startMs, moments, k);
      }
    }
  }

  lemma CutHere(start: Live, startMs: int, moments: seq<Moment>, n: nat)
    requires n < |moments|
    ensures CutAt(start, startMs, moments, n) <==>
              CourseOf(start, startMs, moments[..n]).Some?
              && GivesUp(CourseOf(start, startMs, moments[..n]).value, moments[n])
  {
  }

  lemma CutEarlier(start: Live, startMs: int, moments: seq<Moment>, n: nat, k: nat)
    requires k < n <= |moments|
    ensures CutAt(start, startMs, moments[..n], k) <==> CutAt(start, startMs, moments, k)
  {
    assert moments[..n][..k] == moments[..k];
    hide CourseOf, GivesUp;
  }

  // ---------- the verdict ----------

  predicate Submitted(log: seq<Event>, winner: Id) {
    exists e :: e in log && e.kind == MatchFinished && e.detail == BySubmission && e.player == winner
  }

  /** A knock-out is a match with a fighter down, won by the one left standing; a draw one that is still open; and a
      submission any other, won by the one of the two whom the log says to have submitted the other. */
  predicate RightVerdict(v: Verdict, s: MatchState, log: seq<Event>) {
    && (v.how == WonByKo <==> s.p1.hp == 0 || s.p2.hp == 0)
    && (v.how == Draw <==> !s.outcome.finished)
    && (v.how == WonBySubmission <==> s.outcome.finished && s.p1.hp > 0 && s.p2.hp > 0)
    && (v.how == Draw ==> v.winner == None)
    && (v.how == WonByKo ==> v.winner == Some(if s.p1.hp == 0 then s.p2.id else s.p1.id))
    && (v.how == WonBySubmission ==>
          || (v.winner == Some(s.p1.id) && Submitted(log, s.p1.id) && !Submitted(log, s.p2.id))
          || (v.winner == Some(s.p2.id) && Submitted(log, s.p2.id) && !Submitted(log, s.p1.id)))
  }

  lemma {:induction false} FinishesAre(log: seq<Event>)
    ensures forall e :: e in Finishes(log) <==> e in log && e.kind == MatchFinished
  {
    if log != [] {
      var n := |log| - 1;
      FinishesAre(log[..n]);
      assert log == log[..n] + [log[n]];
    }
  }

  lemma OneSubmission(log: seq<Event>, o: Outcome, id: Id)
    requires Tells(Finishes(log), o) && o.finished && o.how == Submission
    ensures Submitted(log, id) <==> id == o.winner
  {
    FinishesAre(log);
    var end := Finishes(log)[0];
    assert end in Finishes(log);
    hide Finishes;
  }

  lemma OutcomeIsJudged(s: MatchState, log: seq<Event>)
    requires Inv(s) && Tells(Finishes(log), s.outcome)
    ensures RightVerdict(MapResult(s.outcome), s, log)
  {
    hide Submitted, Finishes, LossCap;
    if s.outcome.finished && s.outcome.how == Submission {
      OneSubmission(log, s.outcome, s.p1.id);
      OneSubmission(log, s.outcome, s.p2.id);
    }
  }

  /** The verdict stored for a match is the right one about its last state and its log. */
  lemma StoredVerdictIsRight(p1: Id, p2: Id, arch1: Archetype, arch2: Archetype, seed: Word, startMs: int,
                             moments: seq<Moment>) returns (m: Runs.Match)
    requires p1 != [] && p2 != [] && p1 != p2
    requires EndingOf(p1, p2, arch1, arch2, seed, startMs, moments).Completed?
    ensures var e := EndingOf(p1, p2, arch1, arch2, seed, startMs, moments);
            && m.Played() && IsFresh(m.start) && m.start == e.initial.(rng := Seeded(e.seed)) && |m.turns| == |e.rows|
            && (forall i :: 0 <= i < |e.rows| ==> m.script[i].inputs == e.rows[i].inputs)
            && RightVerdict(e.verdict, m.Last().state, m.Last().log)
  {
    hide EndingOf, MapResult, Seeded, RightVerdict, Runs.Match.Turned, Tells, Finishes, Inv, Sane;
    m := StoredMatchIsAMatch(p1, p2, arch1, arch2, seed, startMs, moments);
    MatchIsJudged(m);
  }

  lemma MatchIsJudged(m: Runs.Match)
    requires IsFresh(m.start) && m.Played()
    ensures RightVerdict(MapResult(m.Last().state.outcome), m.Last().state, m.Last().log)
  {
    hide Inv, Tells, Finishes, RightVerdict, MapResult, IsFresh, AllAbout, Timed;
    LogTellsTheOutcome(m, |m.runs| - 1);
    ReachableStates(m, |m.runs| - 1);
    OutcomeIsJudged(m.Last().state, m.Last().log);
  }
}
