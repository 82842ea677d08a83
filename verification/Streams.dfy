/** The checksum's byte stream over the states a match can reach. */
module Streams {
  import opened Words
  import opened CombatTypes
  import opened Rules
  import opened Invariant
  import opened Checksum
  import opened Runs

  lemma FighterIsWritable(f: Fighter, m: MatchState)
    requires NulFree(f.id) && Archetyped(f) && m.turn < 0x8000_0000_0000_0000
    requires 0 <= f.hp <= 100 && 0 <= f.stamina <= 100 && 0 <= f.momentum <= 50 && 0 <= f.lastHit <= m.turn
    requires 0 <= f.effects.stun <= 1 && 0 <= f.effects.torso <= 2 && 0 <= f.effects.legs <= 2
    ensures AllWritable(FighterFields(f))
  {
    assert AllWritable(BodyFields(f));
    assert AllWritable(TailFields(f));
    hide BodyFields, TailFields, Writable;
  }

  lemma LowHalfIsSmall(w: Word)
    ensures 0 <= LowHalf(w) < 0x8000_0000_0000_0000
  {
    BitsOfVal(w[..32]);
    assert Pow2(4) == 16;
    assert Pow2(8) == 256;
    assert Pow2(12) == 0x1000;
    assert Pow2(16) == 0x1_0000;
    assert Pow2(20) == 0x10_0000;
    assert Pow2(24) == 0x100_0000;
    assert Pow2(28) == 0x1000_0000;
    assert Pow2(32) == 0x1_0000_0000;
  }

  lemma HeaderIsWritable(m: MatchState)
    requires NulFree(m.p1.id) && NulFree(m.p2.id) && 0 <= m.turn < 0x8000_0000_0000_0000 && m.distance == 1
    ensures AllWritable(HeaderFields(m))
  {
    hide LowHalf;
    LowHalfIsSmall(m.rng);
  }

  lemma OutcomeIsWritable(o: Outcome)
    requires NulFree(o.winner)
    ensures AllWritable(OutcomeFields(o))
  {
  }

  lemma WritableConcat(a: seq<Field>, b: seq<Field>)
    requires AllWritable(a) && AllWritable(b)
    ensures AllWritable(a + b)
  {
    hide Writable;
  }

  lemma InvFields(m: MatchState)
    requires Inv(m)
    ensures m.distance == 1 && (m.outcome.winner == m.p1.id || m.outcome.winner == m.p2.id || m.outcome.winner == [])
    ensures forall s: Slot :: var f := m.Get(s);
              && Archetyped(f) && 0 <= f.hp <= 100 && 0 <= f.stamina <= 100 && 0 <= f.momentum <= 50
              && 0 <= f.lastHit <= m.turn
              && 0 <= f.effects.stun <= 1 && 0 <= f.effects.torso <= 2 && 0 <= f.effects.legs <= 2
  {
    hide LossCap;
  }

  lemma StateIsWritable(m: MatchState)
    requires Inv(m) && m.turn < 0x8000_0000_0000_0000 && NulFree(m.p1.id) && NulFree(m.p2.id)
    ensures AllWritable(StateFields(m))
  {
    InvFields(m);
    hide Inv, HeaderFields, FighterFields, OutcomeFields, AllWritable;
    assert m.Get(P1) == m.p1 && m.Get(P2) == m.p2;
    HeaderIsWritable(m);
    FighterIsWritable(m.p1, m);
    FighterIsWritable(m.p2, m);
    OutcomeIsWritable(m.outcome);
    WritableConcat(HeaderFields(m), FighterFields(m.p1));
    WritableConcat(HeaderFields(m) + FighterFields(m.p1), FighterFields(m.p2));
    WritableConcat(HeaderFields(m) + FighterFields(m.p1) + FighterFields(m.p2), OutcomeFields(m.outcome));
  }

  lemma RunIsWritable(m: Match, n: nat)
    requires IsFresh(m.start) && m.Played() && n < |m.runs| && n < 0x8000_0000_0000_0000
    requires NulFree(m.start.p1.id) && NulFree(m.start.p2.id)
    ensures AllWritable(StateFields(m.runs[n].state))
  {
    ReachableStates(m, n);
    hide Inv, StateFields;
    StateIsWritable(m.runs[n].state);
  }

  /**
   Any two states that matches can reach, in the same match or in different ones, write different byte streams
   unless they agree in everything but the upper half of the generator state.
   */
  lemma ReachableStreamsDiffer(a: Match, i: nat, b: Match, j: nat)
    requires IsFresh(a.start) && a.Played() && i < |a.runs| && i < 0x8000_0000_0000_0000
    requires IsFresh(b.start) && b.Played() && j < |b.runs| && j < 0x8000_0000_0000_0000
    requires NulFree(a.start.p1.id) && NulFree(a.start.p2.id) && NulFree(b.start.p1.id) && NulFree(b.start.p2.id)
    ensures var m, n := a.runs[i].state, b.runs[j].state;
            Encode(StateFields(m)) == Encode(StateFields(n)) <==> m.rng[..32] == n.rng[..32] && m == n.(rng := m.rng)
  {
    hide StateFields, Encode, AllWritable;
    var m, n := a.runs[i].state, b.runs[j].state;
    RunIsWritable(a, i);
    RunIsWritable(b, j);
    if Encode(StateFields(m)) == Encode(StateFields(n)) {
      StreamIsInjective(m, n);
    }
    if m.rng[..32] == n.rng[..32] && m == n.(rng := m.rng) {
      SnapshotHalf(m, n);
    }
  }

  lemma SnapshotHalf(m: MatchState, n: MatchState)
    requires m.rng[..32] == n.rng[..32] && m == n.(rng := m.rng)
    ensures StateFields(m) == StateFields(n)
  {
    hide FighterFields, OutcomeFields;
  }
}
