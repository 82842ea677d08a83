/**
 Which slot a fighter sits in is immaterial: resolving the state with its fighters exchanged draws the same rolls, logs
 the same entries (the two closing stamina entries change places) and yields the exchanged next state.
 */
module Symmetry {
  import opened CombatTypes
  import opened Rules
  import opened Turn
  import opened Order
  import opened Invariant
  import opened Shape
  import opened Runs

  function Flip(w: Work): Work { w.(next := w.next.Swap()) }

  lemma FlipIdle(w: Work, a: Slot, action: Action, zone: Zone)
    ensures SkipStunned(Flip(w), a.Other()) == Flip(SkipStunned(w, a))
    ensures Starve(Flip(w), a.Other(), action, zone) == Flip(Starve(w, a, action, zone))
    ensures Idle(Flip(w), a.Other()) == Flip(Idle(w, a))
  {
  }

  lemma FlipAttempt(w: Work, a: Slot, action: Action, zone: Zone, ctx: Context, roll: nat)
    ensures Attempt(Flip(w), a.Other(), action, zone, ctx, roll) == Flip(Attempt(w, a, action, zone, ctx, roll))
  {
    hide Chance, StaminaCost, InReach;
  }

  lemma FlipEase(w: Work, a: Slot, action: Action, combo: bool)
    ensures Inspire(Flip(w), a.Other(), action, combo) == Flip(Inspire(w, a, action, combo))
    ensures Escape(Flip(w), a.Other()) == Flip(Escape(w, a))
    ensures InCombo(Flip(w), a.Other(), action) == InCombo(w, a, action)
  {
  }

  lemma FlipBlow(w: Work, a: Slot, action: Action, zone: Zone, before: int, combo: bool)
    ensures Damage(Flip(w), a.Other(), action, zone, before, combo) == Flip(Damage(w, a, action, zone, before, combo))
    ensures ZoneEffect(Flip(w), a.Other(), zone) == Flip(ZoneEffect(w, a, zone))
  {
    hide DamageFinal, BaseDamage;
  }

  lemma FlipStun(w: Work, a: Slot, zone: Zone, roll: nat)
    ensures StunRoll(Flip(w), a.Other(), zone, roll) == Flip(StunRoll(w, a, zone, roll))
    ensures Climb(Flip(w), a.Other()) == Flip(Climb(w, a))
  {
    hide StunChance;
  }

  lemma FlipFinish(w: Work, a: Slot, roll: nat)
    ensures Submit(Flip(w), a.Other(), roll) == Flip(Submit(w, a, roll))
    ensures KnockOut(Flip(w), a.Other()) == Flip(KnockOut(w, a))
  {
    hide SubmissionChance;
  }

  lemma FlipLand(w: Work, a: Slot, action: Action, zone: Zone, before: int, combo: bool, r1: nat, r2: nat)
    ensures Land(Flip(w), a.Other(), action, zone, before, combo, r1, r2)
         == Flip(Land(w, a, action, zone, before, combo, r1, r2))
  {
    hide Flip, Damage, ZoneEffect, StunRoll, Climb, Submit, KnockOut;
    FlipBlow(w, a, action, zone, before, combo);
    var hurt := Damage(w, a, action, zone, before, combo);
    FlipBlow(hurt, a, action, zone, before, combo);
    var struck := ZoneEffect(hurt, a, zone);
    FlipStun(struck, a, zone, r1);
    var stunned := StunRoll(struck, a, zone, r1);
    FlipStun(stunned, a, zone, r1);
    FlipFinish(Climb(stunned, a), a, r2);
    FlipFinish(Submit(Climb(stunned, a), a, r2), a, r2);
    FlipFinish(stunned, a, r2);
  }

  lemma FlipSucceed(w: Work, a: Slot, action: Action, zone: Zone, r1: nat, r2: nat)
    ensures Succeed(Flip(w), a.Other(), action, zone, r1, r2) == Flip(Succeed(w, a, action, zone, r1, r2))
  {
    hide Inspire, Land, Escape, InCombo;
    var combo := InCombo(w, a, action);
    FlipEase(w, a, action, combo);
    var inspired := Inspire(w, a, action, combo);
    FlipEase(inspired, a, action, combo);
    FlipLand(inspired, a, action, zone, w.next.Get(a).momentum, combo, r1, r2);
  }

  lemma FlipAct(w: Work, a: Slot, input: TurnInput, ctx: Context, r0: nat, r1: nat, r2: nat)
    ensures Act(Flip(w), a.Other(), input, ctx, r0, r1, r2) == Flip(Act(w, a, input, ctx, r0, r1, r2))
  {
    hide Attempt, Succeed, SkipStunned, Starve, Idle, StaminaCost;
    var action, zone := NormalizeAction(input.action), NormalizeZone(input.target);
    FlipIdle(w, a, action, zone);
    FlipAttempt(w, a, action, zone, ctx, r0);
    FlipSucceed(Attempt(w, a, action, zone, ctx, r0), a, action, zone, r1, r2);
  }

  /** The log with its last two entries exchanged. */
  function EndsExchanged(log: seq<Event>): seq<Event>
    requires |log| >= 2
  {
    log[..|log| - 2] + [log[|log| - 1], log[|log| - 2]]
  }

  lemma FlipClose(w: Work, c: Context, d: Context)
    ensures |Close(w, c, d).events| >= 2
    ensures Close(Flip(w), d, c)
         == Flip(Close(w, c, d)).(events := EndsExchanged(Close(w, c, d).events))
  {
    hide RegenOf;
    assert EndsExchanged(Close(w, c, d).events)[..|w.events|] == w.events;
  }

  /** Each fighter's input is found by its id, so the canonical inputs do not see the slots either. */
  lemma FlipCanonical(s: MatchState, inputs: seq<TurnInput>)
    ensures Canonical(s.Swap(), inputs) == Canonical(s, inputs)
  {
    hide InputOf;
    BeforeIsTotal(s.p1.id, s.p2.id);
    if ProperIds(s) {
      assert s.Swap().Get(Lead(s.Swap())).id == s.Get(Lead(s)).id;
    }
    assert AllKnown(s, inputs) <==> AllKnown(s.Swap(), inputs);
  }

  lemma FlipPlay(s: MatchState, ordered: seq<TurnInput>, tape: Tape)
    requires ProperIds(s) && |ordered| == 2 && Named(s, ordered[0].player)
    ensures |Play(s, ordered, tape).events| >= 2
    ensures Play(s.Swap(), ordered, tape)
         == Flip(Play(s, ordered, tape)).(events := EndsExchanged(Play(s, ordered, tape).events))
  {
    hide Act, Close, Flip;
    var a := s.SlotOf(ordered[0].player);
    var c0, c1 := Contexts(s, a, ordered[1]), Contexts(s, a.Other(), ordered[0]);
    assert Begin(s.Swap()) == Flip(Begin(s)) by {
      hide *;
      FlipBegin(s);
    }
    assert s.Swap().SlotOf(ordered[0].player) == a.Other();
    FlipAct(Begin(s), a, ordered[0], c0, tape[0], tape[1], tape[2]);
    hide Begin;
    var w := Opening(s, ordered, tape);
    OpeningDraws(s, ordered, tape);
    FlipRolls(w);
    var k := |w.rolls|;
    FlipAct(w, a.Other(), ordered[1], c1, tape[k], tape[k + 1], tape[k + 2]);
    FlipClose(Exchange(s, ordered, tape), if a == P1 then c0 else c1, if a == P1 then c1 else c0);
  }

  lemma FlipBegin(s: MatchState)
    ensures Begin(s.Swap()) == Flip(Begin(s))
  {
  }

  lemma FlipRolls(w: Work)
    ensures Flip(w).rolls == w.rolls
  {
  }

  /** Exchanging the fighters of a state exchanges the outcome of resolving it, refusals included. */
  lemma SlotsAreSymmetric(s: MatchState, inputs: seq<TurnInput>, tape: Tape)
    ensures Resolve(s.Swap(), inputs, tape).None? <==> Resolve(s, inputs, tape).None?
    ensures Resolve(s, inputs, tape).Some? ==>
              var w, v := Resolve(s, inputs, tape).value, Resolve(s.Swap(), inputs, tape).value;
              && v.next == w.next.Swap() && v.rolls == w.rolls
              && |w.events| >= 2 && v.events == EndsExchanged(w.events)
  {
    hide Play, InputOf;
    FlipCanonical(s, inputs);
    if Resolve(s, inputs, tape).Some? {
      CanonicalIsIdempotent(s, inputs);
      FlipPlay(s, Canonical(s, inputs).value, tape);
    }
  }

  /** The order in which the two inputs arrive is immaterial. */
  lemma ArrivalOrderIsImmaterial(s: MatchState, a: seq<TurnInput>, b: seq<TurnInput>, tape: Tape)
    requires multiset(a) == multiset(b)
    ensures Resolve(s, a, tape) == Resolve(s, b, tape)
  {
    hide Play;
    CanonicalIgnoresArrivalOrder(s, a, b);
  }

  // ---------- whole matches ----------

  /** The same match played with the fighters in each other's slots is the same match throughout. */
  lemma {:induction false} MatchesAreSymmetric(m: Match, v: Match, n: nat)
    requires m.Played() && v.Played() && v.start == m.start.Swap() && v.script == m.script && n < |m.runs|
    ensures v.runs[n].state == m.runs[n].state.Swap()
    ensures n > 0 ==>
              && v.turns[n - 1].rolls == m.turns[n - 1].rolls
              && |m.turns[n - 1].events| >= 2 && v.turns[n - 1].events == EndsExchanged(m.turns[n - 1].events)
  {
    hide Resolve, Match.Turned;
    if n > 0 {
      MatchesAreSymmetric(m, v, n - 1);
      Linked(m, n - 1);
      Linked(v, n - 1);
      SlotsAreSymmetric(m.runs[n - 1].state, m.script[n - 1].inputs, m.script[n - 1].tape);
    }
  }

  /** Scripts that differ only in the order in which each turn's inputs arrive. */
  predicate SameButOrder(a: seq<TurnScript>, b: seq<TurnScript>) {
    |a| == |b| && forall i :: 0 <= i < |a| ==>
      b[i] == a[i].(inputs := b[i].inputs) && multiset(b[i].inputs) == multiset(a[i].inputs)
  }

  lemma {:induction false} MatchesIgnoreArrivalOrder(m: Match, v: Match, n: nat)
    requires m.Played() && v.Played() && v.start == m.start && SameButOrder(m.script, v.script) && n < |m.runs|
    ensures v.runs[n] == m.runs[n]
  {
    hide Resolve, Match.Turned;
    if n > 0 {
      MatchesIgnoreArrivalOrder(m, v, n - 1);
      Linked(m, n - 1);
      Linked(v, n - 1);
      ArrivalOrderIsImmaterial(m.runs[n - 1].state, m.script[n - 1].inputs, v.script[n - 1].inputs,
                               m.script[n - 1].tape);
    }
  }
}
