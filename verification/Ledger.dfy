/**
 Closed forms of a match state in terms of its event log alone: sums, counts and "last time that" questions asked of
 the log, shown to agree with what folding the log computes. No turn mechanics here; module Runs supplies real logs.
 */
module Ledger {
  import opened CombatTypes
  import opened Rules
  import opened Turn
  import opened Order
  import opened EventLog
  import opened Invariant

  // ---------- questions asked of a log ----------

  predicate IsHitOn(e: Event, id: Id) { e.kind == DamageApplied && e.target == id }

  /** Total damage aimed at a fighter. */
  function DamageTo(log: seq<Event>, id: Id): int {
    if log == [] then 0
    else
      var e := log[|log| - 1];
      DamageTo(log[..|log| - 1], id) + if IsHitOn(e, id) then e.value else 0
  }

  function HitsOn(log: seq<Event>, id: Id): nat {
    if log == [] then 0
    else HitsOn(log[..|log| - 1], id) + if IsHitOn(log[|log| - 1], id) then 1 else 0
  }

  predicate Charged(e: Event, id: Id) { e.kind == ActionResolved && e.player == id && e.detail != InsufficientStamina }

  /** Stamina paid for the actions a fighter with this endurance attempted. */
  function CostsPaid(log: seq<Event>, id: Id, endurance: int): int {
    if log == [] then 0
    else
      var e := log[|log| - 1];
      CostsPaid(log[..|log| - 1], id, endurance) + if Charged(e, id) then StaminaCost(e.action, endurance) else 0
  }

  function StaminaBack(log: seq<Event>, id: Id): int {
    if log == [] then 0
    else
      var e := log[|log| - 1];
      StaminaBack(log[..|log| - 1], id) + if e.kind == StaminaRestored && e.player == id then e.value else 0
  }

  predicate Marks(e: Event, id: Id, detail: Detail) { e.kind == StatusApplied && e.player == id && e.detail == detail }

  const NEVER := -2

  /** The last turn in which this status landed on the fighter. */
  function LastTurn(log: seq<Event>, id: Id, detail: Detail): int {
    if log == [] then NEVER
    else
      var e := log[|log| - 1];
      if Marks(e, id, detail) then e.turn else LastTurn(log[..|log| - 1], id, detail)
  }

  /** A blow against this zone of the fighter. */
  predicate IsBlow(e: Event, id: Id, zone: Zone) { e.kind == DamageApplied && e.target == id && e.zone == zone }

  /** The last turn in which the fighter was hit there. */
  function LastBlow(log: seq<Event>, id: Id, zone: Zone): int {
    if log == [] then NEVER
    else
      var e := log[|log| - 1];
      if IsBlow(e, id, zone) then e.turn else LastBlow(log[..|log| - 1], id, zone)
  }

  predicate HasMark(log: seq<Event>, id: Id, detail: Detail) { exists e :: e in log && Marks(e, id, detail) }

  predicate HasBlow(log: seq<Event>, id: Id, zone: Zone) { exists e :: e in log && IsBlow(e, id, zone) }

  /** Penalties are dated as the blows that bring them are. */
  ghost predicate PenaltiesAreBlows(log: seq<Event>) {
    forall id :: LastTurn(log, id, TorsoPenalty) == LastBlow(log, id, Torso)
              && LastTurn(log, id, LegsPenalty) == LastBlow(log, id, Legs)
  }

  predicate IsOffense(e: Event, id: Id) {
    e.player == id && (e.kind == DamageApplied || (e.kind == ActionResolved && e.success && e.action == Feint))
  }

  /** The last turn in which the fighter landed a blow or a feint, 0 when it never did. */
  function LastOffense(log: seq<Event>, id: Id): int {
    if log == [] then 0
    else if IsOffense(log[|log| - 1], id) then log[|log| - 1].turn
    else LastOffense(log[..|log| - 1], id)
  }

  predicate IsGrapple(e: Event) { e.kind == ActionResolved && e.success && e.action == Grapple }
  predicate IsBreak(e: Event) { e.kind == ActionResolved && e.success && e.action == Break }

  function Grapples(log: seq<Event>): nat {
    if log == [] then 0 else Grapples(log[..|log| - 1]) + if IsGrapple(log[|log| - 1]) then 1 else 0
  }

  /** Successful grapples since the last successful break, or since the start. */
  function GrapplesSinceBreak(log: seq<Event>): nat {
    if log == [] || IsBreak(log[|log| - 1]) then 0
    else GrapplesSinceBreak(log[..|log| - 1]) + if IsGrapple(log[|log| - 1]) then 1 else 0
  }

  /** The recursive count is the plain count over the part of the log that follows the last break. */
  lemma {:induction false} SinceBreakMeaning(log: seq<Event>) returns (from: nat)
    ensures from <= |log| && (from == 0 || IsBreak(log[from - 1]))
    ensures forall i :: from <= i < |log| ==> !IsBreak(log[i])
    ensures GrapplesSinceBreak(log) == Grapples(log[from..])
  {
    if log == [] || IsBreak(log[|log| - 1]) {
      from := |log|;
    } else {
      var n := |log| - 1;
      from := SinceBreakMeaning(log[..n]);
      assert forall i :: from <= i < n ==> log[i] == log[..n][i];
      assert log[from..][..n - from] == log[..n][from..];
    }
  }

  // ---------- well-formed logs ----------

  function Clock(log: seq<Event>): int { if log == [] then 0 else log[|log| - 1].turn }

  /** Every entry carries the number of the turn under way; only a turn-started entry begins a new one. */
  predicate Timed(log: seq<Event>) {
    log != [] ==>
      var n := |log| - 1;
      Timed(log[..n]) && log[n].turn == Clock(log[..n]) + if log[n].kind == TurnStarted then 1 else 0
  }

  /** Entries are about the two fighters, and blows are dealt by one to the other. */
  predicate About(m: MatchState, e: Event) {
    && (e.kind != TurnStarted ==> Named(m, e.player))
    && (e.kind == DamageApplied ==> Named(m, e.target) && e.target != e.player && 12 <= e.value <= 34)
    && (e.kind == ActionResolved && e.detail == InsufficientStamina ==> !e.success)
  }

  predicate AllAbout(m: MatchState, log: seq<Event>) { forall i :: 0 <= i < |log| ==> About(m, log[i]) }

  /** The state the fold starts from: a new match. */
  predicate Start(m: MatchState) {
    && ProperIds(m) && m.turn == 0
    && m.p1.hp == m.p2.hp == HP_MAX && m.p1.stamina == m.p2.stamina == STAMINA_MAX
    && m.p1.effects == m.p2.effects == Effects(0, 0, 0)
    && m.p1.lastHit == m.p2.lastHit == 0
  }

  // ---------- the fold answers them ----------

  predicate SameFighters(m: MatchState, n: MatchState) {
    n.p1.id == m.p1.id && n.p2.id == m.p2.id && n.p1.stats == m.p1.stats && n.p2.stats == m.p2.stats
  }

  lemma ApplyKeepsFighters(m: MatchState, e: Event)
    ensures SameFighters(m, Apply(m, e))
  {
  }

  lemma {:induction false} FoldKeepsFighters(m: MatchState, log: seq<Event>)
    ensures SameFighters(m, Fold(m, log))
  {
    hide Apply;
    if log != [] {
      FoldKeepsFighters(m, log[..|log| - 1]);
      ApplyKeepsFighters(Fold(m, log[..|log| - 1]), log[|log| - 1]);
    }
  }

  lemma {:induction false} LedgerOfFold(m: MatchState, log: seq<Event>, s: Slot)
    requires Start(m) && AllAbout(m, log)
    ensures var f, id := Fold(m, log).Get(s), m.Get(s).id;
            && f.hp == Max(0, HP_MAX - DamageTo(log, id))
            && f.stamina == STAMINA_MAX - CostsPaid(log, id, m.Get(s).stats.endurance) + StaminaBack(log, id)
            && 12 * HitsOn(log, id) <= DamageTo(log, id) <= 34 * HitsOn(log, id)
  {
    hide Apply, About;
    if log != [] {
      var n := |log| - 1;
      assert AllAbout(m, log[..n]);
      LedgerOfFold(m, log[..n], s);
      FoldKeepsFighters(m, log[..n]);
      assert About(m, log[n]);
      LedgerStep(m, Fold(m, log[..n]), log[n], s);
    }
  }

  lemma LedgerStep(m: MatchState, n: MatchState, e: Event, s: Slot)
    requires ProperIds(m) && n.p1.id == m.p1.id && n.p2.id == m.p2.id && About(m, e)
    ensures var f, g, id := n.Get(s), Apply(n, e).Get(s), m.Get(s).id;
            && g.hp == (if IsHitOn(e, id) then Clamp(f.hp - e.value, 0, HP_MAX) else f.hp)
            && g.stamina == f.stamina - (if Charged(e, id) then StaminaCost(e.action, f.stats.endurance) else 0)
                                      + (if e.kind == StaminaRestored && e.player == id then e.value else 0)
            && (IsHitOn(e, id) ==> 12 <= e.value <= 34)
  {
    hide StaminaCost;
  }

  lemma {:induction false} WindowsOfFold(m: MatchState, log: seq<Event>, s: Slot)
    requires Start(m) && AllAbout(m, log) && Timed(log)
    ensures var n, id := Fold(m, log), m.Get(s).id;
            && n.turn == Clock(log) && 0 <= n.turn
            && n.Get(s).effects.stun == Max(0, 1 - (n.turn - LastTurn(log, id, StunLanded)))
            && n.Get(s).effects.torso == Max(0, 2 - (n.turn - LastTurn(log, id, TorsoPenalty)))
            && n.Get(s).effects.legs == Max(0, 2 - (n.turn - LastTurn(log, id, LegsPenalty)))
            && n.Get(s).lastHit == LastOffense(log, id)
    ensures LastTurn(log, m.Get(s).id, StunLanded) <= Clock(log)
    ensures LastTurn(log, m.Get(s).id, TorsoPenalty) <= Clock(log)
    ensures LastTurn(log, m.Get(s).id, LegsPenalty) <= Clock(log)
  {
    hide Apply, About;
    if log != [] {
      var n := |log| - 1;
      assert AllAbout(m, log[..n]);
      WindowsOfFold(m, log[..n], s);
      FoldKeepsFighters(m, log[..n]);
      assert About(m, log[n]);
      WindowsStep(m, Fold(m, log[..n]), log[n], s);
    }
  }

  lemma WindowsStep(m: MatchState, n: MatchState, e: Event, s: Slot)
    requires ProperIds(m) && n.p1.id == m.p1.id && n.p2.id == m.p2.id && About(m, e)
    requires e.turn == n.turn + if e.kind == TurnStarted then 1 else 0
    ensures var f, g, id := n.Get(s).effects, Apply(n, e).Get(s).effects, m.Get(s).id;
            && Apply(n, e).turn == e.turn
            && (e.kind == TurnStarted ==> g == Effects(Decay(f.stun), Decay(f.torso), Decay(f.legs)))
            && (e.kind != TurnStarted ==>
                  && g.stun == (if Marks(e, id, StunLanded) then Max(f.stun, 1) else f.stun)
                  && g.torso == (if Marks(e, id, TorsoPenalty) then Max(f.torso, 2) else f.torso)
                  && g.legs == (if Marks(e, id, LegsPenalty) then Max(f.legs, 2) else f.legs))
    ensures Apply(n, e).Get(s).lastHit == (if IsOffense(e, m.Get(s).id) then e.turn else n.Get(s).lastHit)
  {
    hide StaminaCost, Clamp, Resolved, Afflicted;
    OffenseStep(m, n, e, s);
    var t := n.SlotOf(e.player);
    AfflictedEffects(n.Get(t), e.detail);
    ResolvedEffects(n.Get(t), e);
  }

  lemma AfflictedEffects(f: Fighter, detail: Detail)
    ensures var g := Afflicted(f, detail).effects;
            && g.stun == (if detail == StunLanded then Max(f.effects.stun, 1) else f.effects.stun)
            && g.torso == (if detail == TorsoPenalty then Max(f.effects.torso, 2) else f.effects.torso)
            && g.legs == (if detail == LegsPenalty then Max(f.effects.legs, 2) else f.effects.legs)
    ensures Afflicted(f, detail).lastHit == f.lastHit
  {
  }

  lemma ResolvedEffects(f: Fighter, e: Event)
    ensures Resolved(f, e).effects == f.effects
    ensures Resolved(f, e).lastHit == if e.success && e.action == Feint then e.turn else f.lastHit
  {
  }

  lemma OffenseStep(m: MatchState, n: MatchState, e: Event, s: Slot)
    requires ProperIds(m) && n.p1.id == m.p1.id && n.p2.id == m.p2.id && About(m, e)
    ensures Apply(n, e).Get(s).lastHit == (if IsOffense(e, m.Get(s).id) then e.turn else n.Get(s).lastHit)
  {
    hide StaminaCost, Clamp, Resolved, Afflicted;
    var t := n.SlotOf(e.player);
    AfflictedEffects(n.Get(t), e.detail);
    ResolvedEffects(n.Get(t), e);
  }

  /** A mark that is dated really is in the log, on that date. */
  lemma {:induction false} LastTurnMeaning(log: seq<Event>, id: Id, detail: Detail)
    ensures LastTurn(log, id, detail) != NEVER ==>
              exists i :: 0 <= i < |log| && Marks(log[i], id, detail) && log[i].turn == LastTurn(log, id, detail)
    ensures forall i :: 0 <= i < |log| && Timed(log) && Marks(log[i], id, detail) ==>
              log[i].turn <= LastTurn(log, id, detail)
  {
    if log != [] {
      var n := |log| - 1;
      LastTurnMeaning(log[..n], id, detail);
      forall i | 0 <= i < |log| && Timed(log) && Marks(log[i], id, detail)
        ensures log[i].turn <= LastTurn(log, id, detail)
      {
        TimedOrder(log, i);
        assert i < n ==> log[i] == log[..n][i];
      }
      if LastTurn(log, id, detail) != NEVER && !Marks(log[n], id, detail) {
        var i :| 0 <= i < n && Marks(log[..n][i], id, detail) && log[..n][i].turn == LastTurn(log[..n], id, detail);
        assert log[i] == log[..n][i];
      }
    }
  }

  lemma {:induction false} LastBlowMeaning(log: seq<Event>, id: Id, zone: Zone)
    ensures var t := LastBlow(log, id, zone);
            && (t != NEVER ==> exists i :: 0 <= i < |log| && IsBlow(log[i], id, zone) && log[i].turn == t)
            && (Timed(log) ==> forall i :: 0 <= i < |log| && IsBlow(log[i], id, zone) ==> log[i].turn <= t)
  {
    if log != [] {
      var n := |log| - 1;
      LastBlowMeaning(log[..n], id, zone);
      if LastBlow(log, id, zone) != NEVER && !IsBlow(log[n], id, zone) {
        var i :| 0 <= i < n && IsBlow(log[..n][i], id, zone) && log[..n][i].turn == LastBlow(log[..n], id, zone);
        assert log[i] == log[..n][i];
      }
      if Timed(log) {
        forall i | 0 <= i < |log| && IsBlow(log[i], id, zone) ensures log[i].turn <= LastBlow(log, id, zone) {
          TimedOrder(log, i);
          if i < n {
            assert log[i] == log[..n][i];
          }
        }
      }
    }
  }

  /** What a turn's entries add to the date of a penalty. */
  lemma {:induction false} LastTurnConcat(a: seq<Event>, b: seq<Event>, id: Id, detail: Detail, turn: int)
    requires forall e :: e in b ==> e.turn == turn
    ensures LastTurn(a + b, id, detail) == if HasMark(b, id, detail) then turn else LastTurn(a, id, detail)
  {
    if b == [] {
      assert a + b == a;
    } else {
      var n := |b| - 1;
      assert (a + b)[..|a| + n] == a + b[..n] && b == b[..n] + [b[n]];
      LastTurnConcat(a, b[..n], id, detail, turn);
    }
  }

  lemma {:induction false} LastBlowConcat(a: seq<Event>, b: seq<Event>, id: Id, zone: Zone, turn: int)
    requires forall e :: e in b ==> e.turn == turn
    ensures LastBlow(a + b, id, zone) == if HasBlow(b, id, zone) then turn else LastBlow(a, id, zone)
  {
    if b == [] {
      assert a + b == a;
    } else {
      var n := |b| - 1;
      assert (a + b)[..|a| + n] == a + b[..n] && b == b[..n] + [b[n]];
      LastBlowConcat(a, b[..n], id, zone, turn);
    }
  }

  lemma {:induction false} LastOffenseMeaning(log: seq<Event>, id: Id)
    ensures LastOffense(log, id) > 0 ==>
              exists i :: 0 <= i < |log| && IsOffense(log[i], id) && log[i].turn == LastOffense(log, id)
  {
    if log != [] {
      var n := |log| - 1;
      LastOffenseMeaning(log[..n], id);
      if LastOffense(log, id) > 0 && !IsOffense(log[n], id) {
        var i :| 0 <= i < n && IsOffense(log[..n][i], id) && log[..n][i].turn == LastOffense(log[..n], id);
        assert log[i] == log[..n][i];
      }
    }
  }

  lemma {:induction false} TimedOrder(log: seq<Event>, i: nat)
    requires Timed(log) && i < |log|
    ensures 0 <= log[i].turn <= Clock(log) && Timed(log[..i])
  {
    var n := |log| - 1;
    if n > 0 {
      TimedOrder(log[..n], n - 1);
    }
    if i < n {
      TimedOrder(log[..n], i);
      assert log[..n][..i] == log[..i];
    }
  }

  // ---------- extending a log ----------

  lemma {:induction false} DamageConcat(a: seq<Event>, b: seq<Event>, id: Id)
    ensures HitsOn(a + b, id) == HitsOn(a, id) + HitsOn(b, id)
    ensures DamageTo(a + b, id) == DamageTo(a, id) + DamageTo(b, id)
  {
    if b == [] {
      assert a + b == a;
    } else {
      var n := |b| - 1;
      DamageConcat(a, b[..n], id);
      assert (a + b)[..|a| + n] == a + b[..n];
    }
  }

  lemma {:induction false} Unhurt(log: seq<Event>, more: seq<Event>, id: Id)
    requires log <= more
    requires forall i :: |log| <= i < |more| ==> more[i].kind != DamageApplied
    ensures HitsOn(more, id) == HitsOn(log, id)
    decreases |more|
  {
    if |more| == |log| {
      assert more == log;
    } else {
      Unhurt(log, more[..|more| - 1], id);
    }
  }

  lemma {:induction false} Unresolved(log: seq<Event>, more: seq<Event>)
    requires log <= more
    requires forall i :: |log| <= i < |more| ==> more[i].kind != ActionResolved
    ensures GrapplesSinceBreak(more) == GrapplesSinceBreak(log)
    decreases |more|
  {
    if |more| == |log| {
      assert more == log;
    } else {
      Unresolved(log, more[..|more| - 1]);
    }
  }

  /** A turn's entries continue a timed log when the first one starts the turn and all carry its number. */
  lemma {:induction false} TimedConcat(a: seq<Event>, b: seq<Event>)
    requires Timed(a) && b != []
    requires forall i :: 0 <= i < |b| ==> b[i].turn == Clock(a) + 1 && (b[i].kind == TurnStarted <==> i == 0)
    ensures Timed(a + b) && Clock(a + b) == Clock(a) + 1
  {
    var n := |b| - 1;
    assert (a + b)[..|a| + n] == a + b[..n];
    if n > 0 {
      TimedConcat(a, b[..n]);
    } else {
      assert a + b[..n] == a;
    }
  }
}
