/** Deterministic replays: internal/replay/replay.go. */
module Replay {
  import opened Words
  import opened CombatTypes
  import opened Order
  import opened Rng
  import Turn
  import Shape
  import opened Runs
  import opened Resolver
  import opened Simulator

  datatype InputEvent = InputEvent(turn: int, relativeMs: int, inputs: seq<TurnInput>)

  datatype Record = Record(seed: Word, initial: MatchState, inputs: seq<InputEvent>)

  datatype ReplayError = MissingIds | WrongTurn(index: nat) | StepFailed(index: nat, error: ResolveError)

  /** How far a playback has got. */
  datatype Track = Track(state: MatchState, results: seq<TurnResult>)

  /** Playing recorded inputs from a new simulator. A recorded turn of 0 is not checked. */
  function Playback(seed: Word, initial: MatchState, events: seq<InputEvent>): Option<Track> {
    if events == [] then Some(Track(initial.(rng := Seeded(seed)), []))
    else
      var e := events[|events| - 1];
      match Playback(seed, initial, events[..|events| - 1])
      case None => None
      case Some(t) =>
        if e.turn != 0 && e.turn != t.state.turn + 1 then None
        else match StepSpec(t.state, e.inputs)
          case None => None
          case Some(r) => Some(Track(r.next, t.results + [r]))
  }

  lemma {:induction false} PlaybackPrefix(seed: Word, initial: MatchState, events: seq<InputEvent>, n: nat)
    requires n <= |events| && Playback(seed, initial, events[..n]).None?
    ensures Playback(seed, initial, events).None?
  {
    hide StepSpec;
    if n == |events| {
      assert events[..n] == events;
    } else {
      assert events[..|events| - 1][..n] == events[..n];
      PlaybackPrefix(seed, initial, events[..|events| - 1], n);
    }
  }

  /** The state that the i-th recorded input is played from, told by the results before it. */
  function StateAt(seed: Word, initial: MatchState, results: seq<TurnResult>, i: nat): MatchState
    requires i <= |results|
  {
    if i == 0 then initial.(rng := Seeded(seed)) else results[i - 1].next
  }

  /** Each result is what its recorded inputs make of the state before, and no recorded turn number contradicts it. */
  predicate Reproduces(seed: Word, initial: MatchState, events: seq<InputEvent>, results: seq<TurnResult>) {
    && |results| == |events|
    && forall i :: 0 <= i < |events| ==>
         && (events[i].turn == 0 || events[i].turn == initial.turn + i + 1)
         && StepSpec(StateAt(seed, initial, results, i), events[i].inputs) == Some(results[i])
         && results[i].next.turn == initial.turn + i + 1
  }

  /** A playback goes through exactly when there are results like this, and then it has them. */
  lemma ReproducesMore(seed: Word, initial: MatchState, events: seq<InputEvent>, results: seq<TurnResult>,
                       e: InputEvent, r: TurnResult)
    requires Reproduces(seed, initial, events, results)
    requires var m := StateAt(seed, initial, results, |results|);
             && (e.turn == 0 || e.turn == m.turn + 1) && StepSpec(m, e.inputs) == Some(r) && r.next.turn == m.turn + 1
    ensures Reproduces(seed, initial, events + [e], results + [r])
    ensures StateAt(seed, initial, results + [r], |results| + 1) == r.next
  {
    hide StepSpec, Seeded, StateAt;
    forall i | 0 <= i <= |results|
      ensures StateAt(seed, initial, results + [r], i) == StateAt(seed, initial, results, i)
    {
      EarlierState(seed, initial, results, r, i);
    }
    NextState(seed, initial, results + [r], |results|);
    StateTurn(seed, initial, events, results);
  }

  lemma StateTurn(seed: Word, initial: MatchState, events: seq<InputEvent>, results: seq<TurnResult>)
    requires Reproduces(seed, initial, events, results)
    ensures StateAt(seed, initial, results, |results|).turn == initial.turn + |results|
  {
    hide StepSpec, Seeded;
  }

  lemma EarlierState(seed: Word, initial: MatchState, results: seq<TurnResult>, r: TurnResult, i: nat)
    requires i <= |results|
    ensures StateAt(seed, initial, results + [r], i) == StateAt(seed, initial, results, i)
  {
  }

  lemma {:induction false} PlaybackReproduces(seed: Word, initial: MatchState, events: seq<InputEvent>)
    ensures var t := Playback(seed, initial, events);
            t.Some? ==>
              && Reproduces(seed, initial, events, t.value.results) && |t.value.results| == |events|
              && t.value.state == StateAt(seed, initial, t.value.results, |events|)
  {
    hide StepSpec, Seeded;
    if events != [] && Playback(seed, initial, events).Some? {
      var n := |events| - 1;
      PlaybackReproduces(seed, initial, events[..n]);
      var t := Playback(seed, initial, events[..n]).value;
      hide Reproduces, StateAt;
      StepTurns(t.state, events[n].inputs);
      ReproducesMore(seed, initial, events[..n], t.results, events[n], StepSpec(t.state, events[n].inputs).value);
      assert events[..n] + [events[n]] == events;
    }
  }

  lemma StepTurns(m: MatchState, inputs: seq<TurnInput>)
    ensures StepSpec(m, inputs).Some? ==> StepSpec(m, inputs).value.next.turn == m.turn + 1
  {
    hide Turn.Play, InputOf, Checksum.StateHash, Checksum.RollHash, Iterate;
    if StepSpec(m, inputs).Some? {
      CanonicalIsPair(m, inputs);
      Shape.PlayAdvances(m, Canonical(m, inputs).value, TapeOf(m.rng));
    }
  }

  lemma ReproducesPrefix(seed: Word, initial: MatchState, events: seq<InputEvent>, results: seq<TurnResult>)
    requires Reproduces(seed, initial, events, results) && events != []
    ensures Reproduces(seed, initial, events[..|events| - 1], results[..|events| - 1])
    ensures var n := |events| - 1;
            StateAt(seed, initial, results[..n], n) == StateAt(seed, initial, results, n)
  {
    hide StepSpec, Seeded;
    var n := |events| - 1;
    forall i | 0 <= i < n ensures StateAt(seed, initial, results[..n], i) == StateAt(seed, initial, results, i) {
    }
  }

  lemma LastReproduced(seed: Word, initial: MatchState, events: seq<InputEvent>, results: seq<TurnResult>)
    requires Reproduces(seed, initial, events, results) && events != []
    ensures var n := |events| - 1;
            var m, e := StateAt(seed, initial, results, n), events[n];
            && (e.turn == 0 || e.turn == m.turn + 1) && StepSpec(m, e.inputs) == Some(results[n])
  {
    hide StepSpec, Seeded;
  }

  lemma LastPlayed(seed: Word, initial: MatchState, events: seq<InputEvent>, t: Track, r: TurnResult)
    requires events != [] && Playback(seed, initial, events[..|events| - 1]) == Some(t)
    requires var e := events[|events| - 1];
             (e.turn == 0 || e.turn == t.state.turn + 1) && StepSpec(t.state, e.inputs) == Some(r)
    ensures Playback(seed, initial, events) == Some(Track(r.next, t.results + [r]))
  {
    hide StepSpec, Seeded;
  }

  lemma NextState(seed: Word, initial: MatchState, results: seq<TurnResult>, n: nat)
    requires |results| == n + 1
    ensures StateAt(seed, initial, results, n + 1) == results[n].next && results[..n] + [results[n]] == results
  {
  }

  lemma NothingPlayed(seed: Word, initial: MatchState, results: seq<TurnResult>)
    requires Reproduces(seed, initial, [], results)
    ensures Playback(seed, initial, []) == Some(Track(StateAt(seed, initial, results, 0), results))
  {
    hide StepSpec, Seeded;
  }

  lemma {:induction false} ReproducedIsPlayed(seed: Word, initial: MatchState, events: seq<InputEvent>,
                                              results: seq<TurnResult>)
    requires Reproduces(seed, initial, events, results)
    ensures |results| == |events|
    ensures Playback(seed, initial, events) == Some(Track(StateAt(seed, initial, results, |events|), results))
  {
    assert |results| == |events|;
    hide StepSpec, Seeded, Reproduces, Playback, StateAt;
    if events == [] {
      NothingPlayed(seed, initial, results);
    } else {
      var n := |events| - 1;
      LastReproduced(seed, initial, events, results);
      ReproducesPrefix(seed, initial, events, results);
      ReproducedIsPlayed(seed, initial, events[..n], results[..n]);
      LastPlayed(seed, initial, events, Track(StateAt(seed, initial, results, n), results[..n]), results[n]);
      NextState(seed, initial, results, n);
    }
  }

  lemma NothingReproduces(seed: Word, initial: MatchState, events: seq<InputEvent>)
    requires Playback(seed, initial, events).None?
    ensures forall results :: !Reproduces(seed, initial, events, results)
  {
    hide *;
    forall results | Reproduces(seed, initial, events, results) ensures false {
      ReproducedIsPlayed(seed, initial, events, results);
    }
  }

  /** A replay goes through exactly when every recorded input in turn resolves under its recorded number; and the
      results are then those that this gives. */
  method Replay(record: Record) returns (r: Result<seq<TurnResult>, ReplayError>)
    ensures r.Ok? ==> Reproduces(record.seed, record.initial, record.inputs, r.value)
    ensures r.Err? && r.error != MissingIds ==>
              forall results :: !Reproduces(record.seed, record.initial, record.inputs, results)
    ensures r.Ok? ==>
              var t := Playback(record.seed, record.initial, record.inputs);
              t.Some? && t.value.results == r.value
    ensures r.Err? ==> Playback(record.seed, record.initial, record.inputs).None? || r.error == MissingIds
    ensures r.Err? && r.error != MissingIds ==>
              && r.error.index < |record.inputs|
              && var e, before := record.inputs[r.error.index],
                                  Playback(record.seed, record.initial, record.inputs[..r.error.index]);
                 && before.Some?
                 && (r.error.WrongTurn? <==> e.turn != 0 && e.turn != before.value.state.turn + 1)
                 && (r.error.StepFailed? ==> Refusal(before.value.state, e.inputs) == Some(r.error.error))
    ensures r == Err(MissingIds) <==> record.initial.p1.id == [] || record.initial.p2.id == []
  {
    hide StepSpec, Seeded, Fault, Reproduces;
    if record.initial.p1.id == [] || record.initial.p2.id == [] {
      return Err(MissingIds);
    }
    var sim := new CombatSimulator(record.initial, record.seed);
    var results := [];
    ghost var all := record.inputs;
    for i := 0 to |record.inputs|
      invariant sim.Valid() && fresh(sim) && fresh(sim.rng)
      invariant Playback(record.seed, record.initial, all[..i]) == Some(Track(sim.state, results))
    {
      assert all[..i + 1][..i] == all[..i];
      var event := record.inputs[i];
      var expected := sim.state.turn + 1;
      if event.turn != 0 && event.turn != expected {
        PlaybackPrefix(record.seed, record.initial, all, i + 1);
        NothingReproduces(record.seed, record.initial, all);
        return Err(WrongTurn(i));
      }
      var step := sim.Step(event.inputs);
      if step.Err? {
        PlaybackPrefix(record.seed, record.initial, all, i + 1);
        NothingReproduces(record.seed, record.initial, all);
        return Err(StepFailed(i, step.error));
      }
      results := results + [step.value];
    }
    assert all[..|all|] == all;
    PlaybackReproduces(record.seed, record.initial, all);
    r := Ok(results);
  }

  // ---------- what is played back is a match ----------

  /** The playback and the history tell the same story, checksums included. */
  predicate SameStory(t: Track, m: Match) {
    && |m.turns| == |t.results| && |m.runs| == |t.results| + 1
    && m.Last().state == t.state
    && forall i :: 0 <= i < |t.results| ==>
         && m.turns[i].events == t.results[i].events && m.runs[i + 1].state == t.results[i].next
         && Checksum.RollHash(m.turns[i].rolls) == t.results[i].rollHash
         && Checksum.StateHash(m.runs[i + 1].state) == t.results[i].stateHash
  }

  /** The history's inputs are the recorded ones, and each turn's rolls those that the generator would yield next. */
  predicate OwnRolls(events: seq<InputEvent>, m: Match) {
    && |m.script| == |events| && |m.runs| == |events| + 1
    && forall i :: 0 <= i < |events| ==>
         m.script[i] == TurnScript(events[i].inputs, TapeOf(m.runs[i].state.rng), m.runs[i + 1].state.rng)
  }

  lemma StepIsTurn(m: Match, inputs: seq<TurnInput>, r: TurnResult)
    requires m.Played() && StepSpec(m.Last().state, inputs) == Some(r)
    ensures var turn := TurnScript(inputs, TapeOf(m.Last().state.rng), r.next.rng);
            && Resolve(m.Last().state, inputs, turn.tape).Some?
            && m.And(turn).turns == m.turns + [Resolve(m.Last().state, inputs, turn.tape).value]
            && m.And(turn).turns[|m.turns|].events == r.events && m.And(turn).Last().state == r.next
            && Checksum.RollHash(m.And(turn).turns[|m.turns|].rolls) == r.rollHash
            && Checksum.StateHash(r.next) == r.stateHash
  {
    hide Resolve, Iterate, Checksum.StateHash, Checksum.RollHash;
  }

  lemma NoRollsYet(start: MatchState)
    ensures OwnRolls([], NewMatch(start))
  {
  }

  lemma OwnRollsGrow(events: seq<InputEvent>, m: Match, snapshot: Word)
    requires m.Played() && events != [] && OwnRolls(events[..|events| - 1], m)
    requires var inputs := events[|events| - 1].inputs;
             Resolve(m.Last().state, inputs, TapeOf(m.Last().state.rng)).Some?
    ensures OwnRolls(events, m.And(TurnScript(events[|events| - 1].inputs, TapeOf(m.Last().state.rng), snapshot)))
  {
    hide Resolve, TapeOf, Match.Turned;
  }

  /**
   Whatever is played back from a seed is the history of a match, with the recorded inputs and the rolls of that seed's
   generator; so all that is proved of matches holds of every replay and, as matches are replayed from their record, of
   every recorded match.
   */
  lemma {:induction false} PlaybackIsAMatch(seed: Word, initial: MatchState, events: seq<InputEvent>) returns (m: Match)
    requires Playback(seed, initial, events).Some?
    ensures m.Played() && m.start == initial.(rng := Seeded(seed))
    ensures SameStory(Playback(seed, initial, events).value, m)
    ensures OwnRolls(events, m)
  {
    hide StepSpec, Seeded, Resolve, Match.Turned, OwnRolls, Checksum.RollHash, Checksum.StateHash;
    if events == [] {
      m := NewMatch(initial.(rng := Seeded(seed)));
      NoRollsYet(m.start);
    } else {
      var n := |events| - 1;
      var before := PlaybackIsAMatch(seed, initial, events[..n]);
      var t := Playback(seed, initial, events[..n]).value;
      var r := StepSpec(t.state, events[n].inputs).value;
      StepIsTurn(before, events[n].inputs, r);
      var turn := TurnScript(events[n].inputs, TapeOf(t.state.rng), r.next.rng);
      MatchesGrow(before, turn);
      OwnRollsGrow(events, before, r.next.rng);
      m := before.And(turn);
    }
  }
}
