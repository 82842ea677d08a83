/** The simulator around the resolver: internal/engine/simulator.go. */
module Simulator {
  import opened Words
  import opened CombatTypes
  import opened Turn
  import opened Order
  import opened Rng
  import opened Checksum
  import opened Runs
  import opened Resolver

  /** One step of a simulator in state `m`, whose generator state is part of `m`. */
  function StepSpec(m: MatchState, inputs: seq<TurnInput>): Option<TurnResult> { ResolveSpec(m, inputs, m.rng) }

  class CombatSimulator {
    var state: MatchState
    const rng: DeterministicRNG

    /** The state a simulator holds always carries the snapshot of its own generator. */
    ghost predicate Valid()
      reads this, rng
    {
      state.rng == rng.state
    }

    constructor (initial: MatchState, seed: Word)
      ensures Valid() && fresh(rng)
      ensures state == initial.(rng := Seeded(seed))
    {
      var generator := new DeterministicRNG(seed);
      rng := generator;
      state := initial.(rng := generator.Snapshot());
    }

    /** A step that fails changes neither the state nor the generator. */
    method Step(inputs: seq<TurnInput>) returns (r: Result<TurnResult, ResolveError>)
      requires Valid()
      modifies this, rng
      ensures Valid()
      ensures r.Ok? ==> StepSpec(old(state), inputs) == Some(r.value) && state == r.value.next
      ensures r.Err? ==> StepSpec(old(state), inputs) == None && state == old(state) && rng.state == old(rng.state)
      ensures r.Err? <==> Refusal(old(state), inputs).Some?
      ensures r.Err? ==> Refusal(old(state), inputs) == Some(r.error)
    {
      hide ResolveSpec, Fault;
      r := ResolveTurn(state, inputs, rng);
      if r.Err? {
        return;
      }
      r := Ok(r.value.(next := r.value.next.(rng := rng.Snapshot())));
      state := r.value.next;
    }
  }

  /** A step draws k times, at most six; the generator moves k states on, and exactly those k rolls, in order, make the
      roll hash. */
  lemma StepAccountsForItsRolls(m: MatchState, inputs: seq<TurnInput>)
    ensures StepSpec(m, inputs).Some? ==>
              exists k: nat :: k <= 6
                && StepSpec(m, inputs).value.next.rng == Iterate(m.rng, k)
                && StepSpec(m, inputs).value.rollHash == RollHash(TapeOf(m.rng)[..k])
  {
    hide Play, Canonical, Iterate, RollHash, StateHash;
    if StepSpec(m, inputs).None? {
      return;
    }
    var pair := Canonical(m, inputs).value;
    CanonicalIsPair(m, inputs);
    PlayDraws(m, pair, TapeOf(m.rng));
    var k := |Play(m, pair, TapeOf(m.rng)).rolls|;
    assert StepSpec(m, inputs).value.next.rng == Iterate(m.rng, k);
  }

  lemma CanonicalIsPair(m: MatchState, inputs: seq<TurnInput>)
    requires Canonical(m, inputs).Some?
    ensures |Canonical(m, inputs).value| == 2
  {
  }

  /** Stepping with inputs or with their canonical form is the same. */
  lemma StepCanonical(m: MatchState, inputs: seq<TurnInput>)
    requires Canonical(m, inputs).Some?
    ensures StepSpec(m, Canonical(m, inputs).value) == StepSpec(m, inputs)
  {
    hide Play, InputOf, Concluded;
    CanonicalIsIdempotent(m, inputs);
  }
}
