/** When a combo is announced: exactly which turns carry a combo entry for a fighter. */
module Combo {
  import opened CombatTypes
  import opened Rules
  import opened Turn
  import opened Order
  import opened Invariant
  import opened Ledger
  import opened Shape

  /** The log announces a combo of this fighter. */
  predicate Announced(log: seq<Event>, id: Id) {
    exists i :: 0 <= i < |log| && Marks(log[i], id, ComboActive)
  }

  predicate IsWin(e: Event, id: Id, action: Action) {
    e.kind == ActionResolved && e.success && e.player == id && e.action == action
  }

  /** The log holds a success of this fighter with this action. */
  predicate Won(log: seq<Event>, id: Id, action: Action) {
    exists i :: 0 <= i < |log| && IsWin(log[i], id, action)
  }

  /** Nothing between the two logs announces a combo or resolves an action. */
  predicate Calm(w: Work, v: Work) {
    && w.events <= v.events
    && forall i :: |w.events| <= i < |v.events| ==>
         v.events[i].kind != ActionResolved && v.events[i].detail != ComboActive
  }

  lemma CalmKeeps(w: Work, v: Work, id: Id, action: Action)
    requires Calm(w, v)
    ensures Announced(v.events, id) <==> Announced(w.events, id)
    ensures Won(v.events, id, action) <==> Won(w.events, id, action)
  {
    if Announced(w.events, id) {
      var i :| 0 <= i < |w.events| && Marks(w.events[i], id, ComboActive);
      assert Marks(v.events[i], id, ComboActive);
    }
    if Won(w.events, id, action) {
      var i :| 0 <= i < |w.events| && IsWin(w.events[i], id, action);
      assert IsWin(v.events[i], id, action);
    }
    forall i | 0 <= i < |w.events| ensures v.events[i] == w.events[i] {
    }
  }

  lemma SnocKeeps(log: seq<Event>, e: Event, id: Id, action: Action)
    ensures Announced(log + [e], id) <==> Announced(log, id) || Marks(e, id, ComboActive)
    ensures Won(log + [e], id, action) <==> Won(log, id, action) || IsWin(e, id, action)
  {
    var more := log + [e];
    assert more[|log|] == e;
    if Announced(log, id) {
      var i :| 0 <= i < |log| && Marks(log[i], id, ComboActive);
      assert Marks(more[i], id, ComboActive);
    }
    if Won(log, id, action) {
      var i :| 0 <= i < |log| && IsWin(log[i], id, action);
      assert IsWin(more[i], id, action);
    }
  }

  lemma PhaseCalm(w: Work, a: Slot, action: Action, zone: Zone, before: int, combo: bool, roll: nat)
    ensures Calm(w, Damage(w, a, action, zone, before, combo))
    ensures Calm(w, ZoneEffect(w, a, zone))
    ensures Calm(w, StunRoll(w, a, zone, roll))
    ensures Calm(w, Climb(w, a))
    ensures Calm(w, Submit(w, a, roll))
    ensures Calm(w, KnockOut(w, a))
    ensures Calm(w, Escape(w, a))
  {
    BlowCalm(w, a, action, zone, before, combo, roll);
    FinishCalm(w, a, roll);
    hide *;
  }

  lemma BlowCalm(w: Work, a: Slot, action: Action, zone: Zone, before: int, combo: bool, roll: nat)
    ensures Calm(w, Damage(w, a, action, zone, before, combo))
    ensures Calm(w, ZoneEffect(w, a, zone))
    ensures Calm(w, StunRoll(w, a, zone, roll))
  {
    hide DamageFinal, BaseDamage, StunChance;
  }

  lemma FinishCalm(w: Work, a: Slot, roll: nat)
    ensures Calm(w, Climb(w, a)) && Calm(w, Submit(w, a, roll)) && Calm(w, KnockOut(w, a)) && Calm(w, Escape(w, a))
  {
    hide SubmissionChance;
  }

  lemma CalmTrans(u: Work, v: Work, w: Work)
    requires Calm(u, v) && Calm(v, w)
    ensures Calm(u, w)
  {
  }

  lemma LandCalm(w: Work, a: Slot, action: Action, zone: Zone, before: int, combo: bool, r1: nat, r2: nat)
    ensures Calm(w, Land(w, a, action, zone, before, combo, r1, r2))
  {
    hide Damage, ZoneEffect, StunRoll, Climb, Submit, KnockOut, Calm;
    PhaseCalm(w, a, action, zone, before, combo, r1);
    var hurt := Damage(w, a, action, zone, before, combo);
    PhaseCalm(hurt, a, action, zone, before, combo, r1);
    var struck := ZoneEffect(hurt, a, zone);
    CalmTrans(w, hurt, struck);
    PhaseCalm(struck, a, action, zone, before, combo, r1);
    var stunned := StunRoll(struck, a, zone, r1);
    CalmTrans(w, struck, stunned);
    PhaseCalm(stunned, a, action, zone, before, combo, r2);
    var climbed := Climb(stunned, a);
    CalmTrans(w, stunned, climbed);
    PhaseCalm(climbed, a, action, zone, before, combo, r2);
    var tied := Submit(climbed, a, r2);
    CalmTrans(w, climbed, tied);
    PhaseCalm(tied, a, action, zone, before, combo, r2);
    CalmTrans(w, tied, KnockOut(tied, a));
    CalmTrans(w, stunned, KnockOut(stunned, a));
  }

  /** A success announces a combo exactly when the window is open. */
  lemma SucceedCombo(w: Work, a: Slot, action: Action, zone: Zone, r1: nat, r2: nat, id: Id, other: Action)
    ensures var v := Succeed(w, a, action, zone, r1, r2);
            && (Announced(v.events, id) <==>
                  Announced(w.events, id) || (id == w.next.Get(a).id && InCombo(w, a, action)))
            && (Won(v.events, id, other) <==> Won(w.events, id, other))
  {
    hide Inspire, Land, Escape, InCombo, Announced, Won, Calm;
    var combo := InCombo(w, a, action);
    var inspired := Inspire(w, a, action, combo);
    InspireCombo(w, a, action, combo, id, other);
    LandCalm(inspired, a, action, zone, w.next.Get(a).momentum, combo, r1, r2);
    CalmKeeps(inspired, Land(inspired, a, action, zone, w.next.Get(a).momentum, combo, r1, r2), id, other);
    PhaseCalm(inspired, a, action, zone, 0, combo, r1);
    CalmKeeps(inspired, Escape(inspired, a), id, other);
  }

  lemma InspireCombo(w: Work, a: Slot, action: Action, combo: bool, id: Id, other: Action)
    ensures var v := Inspire(w, a, action, combo);
            && (Announced(v.events, id) <==> Announced(w.events, id) || (id == w.next.Get(a).id && combo))
            && (Won(v.events, id, other) <==> Won(w.events, id, other))
  {
    hide Announced, Won;
    var v := Inspire(w, a, action, combo);
    if combo {
      SnocKeeps(w.events, v.events[|w.events|], id, other);
    }
  }

  /** The stamina left after paying, the window and the kind of action: the documented combo condition. */
  predicate Window(f: Fighter, action: Action, turn: int) {
    IsOffensive(action) && f.lastHit == turn - 1 && f.stamina - StaminaCost(action, f.stats.endurance) > 30
  }

  /** What one action adds: at most one success, and a combo entry exactly for a success inside the window. */
  lemma ActCombo(w: Work, a: Slot, input: TurnInput, ctx: Context, r0: nat, r1: nat, r2: nat, id: Id, other: Action)
    requires ProperIds(w.next)
    ensures var v, f := Act(w, a, input, ctx, r0, r1, r2), w.next.Get(a);
            var action := NormalizeAction(input.action);
            && (id != f.id ==> (Announced(v.events, id) <==> Announced(w.events, id))
                               && (Won(v.events, id, other) <==> Won(w.events, id, other)))
            && (!Announced(w.events, f.id) && !Won(w.events, f.id, action) ==>
                  (Announced(v.events, f.id) <==> Won(v.events, f.id, action) && Window(f, action, w.next.turn)))
            && (other != action ==> (Won(v.events, id, other) <==> Won(w.events, id, other)))
  {
    hide Attempt, Succeed, SkipStunned, Starve, Idle, StaminaCost, Announced, Won, InCombo, Window;
    var action, zone := NormalizeAction(input.action), NormalizeZone(input.target);
    var f := w.next.Get(a);
    var tried := Attempt(w, a, action, zone, ctx, r0);
    QuietCombo(w, a, action, zone, id, other);
    QuietCombo(w, a, action, zone, f.id, action);
    AttemptCombo(w, a, action, zone, ctx, r0);
    SnocKeeps(w.events, tried.events[|w.events|], id, other);
    SnocKeeps(w.events, tried.events[|w.events|], f.id, action);
    SucceedCombo(tried, a, action, zone, r1, r2, id, other);
    SucceedCombo(tried, a, action, zone, r1, r2, f.id, action);
  }

  lemma AttemptCombo(w: Work, a: Slot, action: Action, zone: Zone, ctx: Context, roll: nat)
    ensures var v := Attempt(w, a, action, zone, ctx, roll);
            && v.events == w.events + [v.events[|w.events|]]
            && v.next.Get(a).id == w.next.Get(a).id
            && v.events[|w.events|].kind == ActionResolved && v.events[|w.events|].player == w.next.Get(a).id
            && v.events[|w.events|].action == action && v.events[|w.events|].success == v.next.Get(a).lastSuccess
            && (InCombo(v, a, action) <==> Window(w.next.Get(a), action, w.next.turn))
  {
    hide Chance, StaminaCost, InReach;
  }

  lemma QuietCombo(w: Work, a: Slot, action: Action, zone: Zone, id: Id, other: Action)
    ensures Announced(SkipStunned(w, a).events, id) <==> Announced(w.events, id)
    ensures Won(SkipStunned(w, a).events, id, other) <==> Won(w.events, id, other)
    ensures Announced(Starve(w, a, action, zone).events, id) <==> Announced(w.events, id)
    ensures Won(Starve(w, a, action, zone).events, id, other) <==> Won(w.events, id, other)
    ensures Idle(w, a).events == w.events
  {
    hide Announced, Won;
    CalmKeeps(w, SkipStunned(w, a), id, other);
    var v := Starve(w, a, action, zone);
    SnocKeeps(w.events, v.events[|w.events|], id, other);
  }

  /** Over a whole turn: a combo entry for a fighter stands for a success with the action it was held to, landed inside
      the window, and for nothing else. */
  lemma PlayCombo(s: MatchState, ordered: seq<TurnInput>, tape: Tape, f: Slot)
    requires ProperIds(s) && |ordered| == 2
    ensures var log := Play(s, ordered, tape).events;
            var input := if s.SlotOf(ordered[0].player) == f then ordered[0] else ordered[1];
            var action := NormalizeAction(input.action);
            Announced(log, s.Get(f).id) <==> Won(log, s.Get(f).id, action) && Window(s.Get(f), action, s.turn + 1)
  {
    hide Act, Close, Announced, Won, Window, StaminaCost;
    var a := s.SlotOf(ordered[0].player);
    var id := s.Get(f).id;
    var action := NormalizeAction((if a == f then ordered[0] else ordered[1]).action);
    var begun := Begin(s);
    BeginQuiet(s, id, action);
    ActCombo(begun, a, ordered[0], Contexts(s, a, ordered[1]), tape[0], tape[1], tape[2], id, action);
    ActSpares(begun, a, ordered[0], Contexts(s, a, ordered[1]), tape[0], tape[1], tape[2]);
    var w := Opening(s, ordered, tape);
    OpeningDraws(s, ordered, tape);
    var k := |w.rolls|;
    ActCombo(w, a.Other(), ordered[1], Contexts(s, a.Other(), ordered[0]), tape[k], tape[k + 1], tape[k + 2], id,
             action);
    var v := Exchange(s, ordered, tape);
    CloseCalm(v, if a == P1 then Contexts(s, a, ordered[1]) else Contexts(s, a.Other(), ordered[0]),
              if a == P1 then Contexts(s, a.Other(), ordered[0]) else Contexts(s, a, ordered[1]));
    CalmKeeps(v, Play(s, ordered, tape), id, action);
    SameWindow(s.Get(f), begun.next.Get(f), action, s.turn + 1);
    if f == a.Other() {
      SameWindow(begun.next.Get(f), w.next.Get(f), action, s.turn + 1);
    }
  }

  lemma SameWindow(f: Fighter, g: Fighter, action: Action, turn: int)
    requires g.lastHit == f.lastHit && g.stamina == f.stamina && g.stats == f.stats
    ensures Window(f, action, turn) <==> Window(g, action, turn)
  {
  }

  lemma BeginQuiet(s: MatchState, id: Id, action: Action)
    ensures !Announced(Begin(s).events, id) && !Won(Begin(s).events, id, action)
  {
  }

  lemma CloseCalm(w: Work, c: Context, d: Context)
    ensures Calm(w, Close(w, c, d))
  {
    hide RegenOf;
  }
}
