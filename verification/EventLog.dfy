/**
 The event log as a complete account of a match. `Apply` reads one event and knows nothing of actions, rolls or
 chances; folding it over the log of a turn yields the state the resolver produced, whatever state it started from.
 Only what no event reports is blanked: the generator snapshot and the two "last action" fields of a fighter, which an
 idle turn changes silently.
 */
module EventLog {
  import Words
  import opened CombatTypes
  import opened Rules
  import opened Turn
  import opened Order

  function Unmarked(f: Fighter): Fighter { f.(lastAction := NoAction, lastSuccess := false) }

  function Blank(m: MatchState): MatchState { m.(rng := Words.ZERO, p1 := Unmarked(m.p1), p2 := Unmarked(m.p2)) }

  /** Reading one event. */
  function Apply(m: MatchState, e: Event): MatchState {
    var s := m.SlotOf(e.player);
    var f := m.Get(s);
    match e.kind
    case TurnStarted => m.(turn := e.turn, p1 := Prepared(m.p1), p2 := Prepared(m.p2))
    case ActionResolved => if e.detail == InsufficientStamina then m else m.Put(s, Resolved(f, e))
    case DamageApplied =>
      var t := m.SlotOf(e.target);
      var g := m.Get(t);
      m.Put(t, g.(hp := Clamp(g.hp - e.value, 0, HP_MAX), momentum := Clamp(g.momentum - 6, 0, 50)))
       .Put(s, f.(lastHit := e.turn))
    case StatusApplied => m.Put(s, Afflicted(f, e.detail))
    case StateChanged =>
      var to := if e.detail.Transition? then e.detail.to else Neutral;
      m.(combat := to, p1 := Posed(m.p1, to), p2 := Posed(m.p2, to))
    case MatchFinished =>
      m.(outcome := Outcome(true, e.player, if e.detail == ByKo then KO else Submission))
    case StaminaRestored => m.Put(s, Recovered(f.(stamina := f.stamina + e.value), m.combat))
  }

  function Resolved(f: Fighter, e: Event): Fighter {
    var paid := f.(stamina := f.stamina - StaminaCost(e.action, f.stats.endurance));
    if !e.success then paid
    else
      paid.(momentum := Clamp(f.momentum + 8, 0, 50), lastHit := if e.action == Feint then e.turn else f.lastHit)
  }

  function Afflicted(f: Fighter, detail: Detail): Fighter {
    match detail
    case ComboActive => f.(momentum := Clamp(f.momentum + 5, 0, 50))
    case TorsoPenalty => f.(effects := f.effects.(torso := Max(f.effects.torso, 2)))
    case LegsPenalty => f.(effects := f.effects.(legs := Max(f.effects.legs, 2)))
    case StunLanded => f.(effects := f.effects.(stun := Max(f.effects.stun, 1)), state := Stunned)
    case _ => f
  }

  function Fold(m: MatchState, log: seq<Event>): MatchState {
    if log == [] then m else Apply(Fold(m, log[..|log| - 1]), log[|log| - 1])
  }

  lemma FoldSnoc(m: MatchState, log: seq<Event>, e: Event)
    ensures Fold(m, log + [e]) == Apply(Fold(m, log), e)
  {
    assert (log + [e])[..|log|] == log;
  }

  lemma {:induction false} FoldConcat(m: MatchState, a: seq<Event>, b: seq<Event>)
    ensures Fold(m, a + b) == Fold(Fold(m, a), b)
  {
    hide Apply;
    if b == [] {
      assert a + b == a;
    } else {
      var n := |b| - 1;
      FoldConcat(m, a, b[..n]);
      assert a + b == (a + b[..n]) + [b[n]];
      FoldSnoc(m, a + b[..n], b[n]);
    }
  }

  /** The log so far accounts for the state so far, and every entry carries the turn it was made in. */
  ghost predicate Sourced(base: MatchState, w: Work) {
    && ProperIds(w.next)
    && Blank(w.next) == Fold(base, w.events)
    && forall i :: 0 <= i < |w.events| ==> w.events[i].turn == w.next.turn
  }

  lemma Emitted(base: MatchState, w: Work, v: Work, e: Event)
    requires Sourced(base, w)
    requires v.events == w.events + [e] && v.next.turn == w.next.turn == e.turn
    requires v.next.p1.id == w.next.p1.id && v.next.p2.id == w.next.p2.id
    requires Blank(v.next) == Apply(Blank(w.next), e)
    ensures Sourced(base, v)
  {
    hide Apply, Blank;
    FoldSnoc(base, w.events, e);
  }

  lemma BeginSourced(s: MatchState)
    requires ProperIds(s)
    ensures Sourced(Blank(s), Begin(s))
  {
    var w := Begin(s);
    FoldSnoc(Blank(s), [], w.events[0]);
    assert w.events == [] + [w.events[0]];
    assert Fold(Blank(s), []) == Blank(s);
  }

  lemma StillSourced(base: MatchState, w: Work, a: Slot, action: Action, zone: Zone)
    requires Sourced(base, w)
    ensures Sourced(base, SkipStunned(w, a))
    ensures Sourced(base, Starve(w, a, action, zone))
    ensures Sourced(base, Idle(w, a))
  {
    hide Fold;
    var v := SkipStunned(w, a);
    Emitted(base, w, v, v.events[|w.events|]);
    v := Starve(w, a, action, zone);
    Emitted(base, w, v, v.events[|w.events|]);
    v := Idle(w, a);
    assert Blank(v.next) == Blank(w.next);
  }

  /** The paid attempt as the log sees it: a success already counts its momentum, a feint already counts as a hit. */
  function Credited(w: Work, a: Slot, action: Action): Work {
    var f := w.next.Get(a);
    if !f.lastSuccess then w
    else
      w.With(a, f.(momentum := Clamp(f.momentum + 8, 0, 50),
                   lastHit := if action == Feint then w.next.turn else f.lastHit))
  }

  lemma AttemptSourced(base: MatchState, w: Work, a: Slot, action: Action, zone: Zone, ctx: Context, roll: nat)
    requires Sourced(base, w)
    ensures Sourced(base, Credited(Attempt(w, a, action, zone, ctx, roll), a, action))
  {
    hide Fold, Chance, StaminaCost, InReach;
    var v := Credited(Attempt(w, a, action, zone, ctx, roll), a, action);
    Emitted(base, w, v, v.events[|w.events|]);
  }

  /** From the credited attempt to the state after the momentum gain; a feint's credit is given at the end of the
      action. */
  lemma InspireSourced(base: MatchState, w: Work, a: Slot, action: Action, combo: bool)
    requires Sourced(base, Credited(w, a, action)) && w.next.Get(a).lastSuccess
    ensures action != Feint ==> Sourced(base, Inspire(w, a, action, combo))
    ensures action == Feint ==>
              Sourced(base, Inspire(w, a, action, combo)
                            .With(a, Inspire(w, a, action, combo).next.Get(a).(lastHit := w.next.turn)))
  {
    hide Fold;
    var c := Credited(w, a, action);
    var v := Inspire(w, a, action, combo);
    if action == Feint {
      v := v.With(a, v.next.Get(a).(lastHit := w.next.turn));
    }
    if combo {
      Emitted(base, c, v, v.events[|w.events|]);
    } else {
      assert v == c;
    }
  }

  lemma DamageSourced(base: MatchState, w: Work, a: Slot, action: Action, zone: Zone, before: int, combo: bool)
    requires Sourced(base, w)
    ensures Sourced(base, Damage(w, a, action, zone, before, combo))
  {
    hide Fold, DamageFinal, BaseDamage;
    var v := Damage(w, a, action, zone, before, combo);
    if v != w {
      Emitted(base, w, v, v.events[|w.events|]);
    }
  }

  lemma ZoneSourced(base: MatchState, w: Work, a: Slot, zone: Zone)
    requires Sourced(base, w)
    ensures Sourced(base, ZoneEffect(w, a, zone))
  {
    hide Fold;
    var v := ZoneEffect(w, a, zone);
    if v != w {
      Emitted(base, w, v, v.events[|w.events|]);
    }
  }

  lemma StunSourced(base: MatchState, w: Work, a: Slot, zone: Zone, roll: nat)
    requires Sourced(base, w)
    ensures Sourced(base, StunRoll(w, a, zone, roll))
  {
    hide Fold, StunChance;
    var v := StunRoll(w, a, zone, roll);
    if |v.events| > |w.events| {
      Emitted(base, w, v, v.events[|w.events|]);
    }
  }

  lemma ClimbSourced(base: MatchState, w: Work, a: Slot)
    requires Sourced(base, w)
    ensures Sourced(base, Climb(w, a))
    ensures Sourced(base, Escape(w, a))
  {
    hide Fold;
    var v := Climb(w, a);
    if v != w {
      Emitted(base, w, v, v.events[|w.events|]);
    }
    v := Escape(w, a);
    Emitted(base, w, v, v.events[|w.events|]);
  }

  lemma FinishSourced(base: MatchState, w: Work, a: Slot, roll: nat)
    requires Sourced(base, w)
    ensures Sourced(base, Submit(w, a, roll))
    ensures Sourced(base, KnockOut(w, a))
  {
    hide Fold, SubmissionChance;
    var v := Submit(w, a, roll);
    if |v.events| > |w.events| {
      Emitted(base, w, v, v.events[|w.events|]);
    }
    v := KnockOut(w, a);
    if v != w {
      Emitted(base, w, v, v.events[|w.events|]);
    }
  }

  lemma LandSourced(base: MatchState, w: Work, a: Slot, action: Action, zone: Zone, before: int, combo: bool,
                    r1: nat, r2: nat)
    requires Sourced(base, w)
    ensures Sourced(base, Land(w, a, action, zone, before, combo, r1, r2))
  {
    hide Sourced, Damage, ZoneEffect, StunRoll, Climb, Submit, KnockOut;
    DamageSourced(base, w, a, action, zone, before, combo);
    var hurt := Damage(w, a, action, zone, before, combo);
    ZoneSourced(base, hurt, a, zone);
    var struck := ZoneEffect(hurt, a, zone);
    StunSourced(base, struck, a, zone, r1);
    var stunned := StunRoll(struck, a, zone, r1);
    ClimbSourced(base, stunned, a);
    FinishSourced(base, Climb(stunned, a), a, r2);
    FinishSourced(base, stunned, a, r2);
    FinishSourced(base, Submit(Climb(stunned, a), a, r2), a, r2);
  }

  lemma SucceedSourced(base: MatchState, w: Work, a: Slot, action: Action, zone: Zone, r1: nat, r2: nat)
    requires Sourced(base, Credited(w, a, action)) && w.next.Get(a).lastSuccess
    ensures Sourced(base, Succeed(w, a, action, zone, r1, r2))
  {
    hide Sourced, Credited, Inspire, Land, Escape, InCombo;
    var combo := InCombo(w, a, action);
    InspireSourced(base, w, a, action, combo);
    var inspired := Inspire(w, a, action, combo);
    if action != Feint {
      LandSourced(base, inspired, a, action, zone, w.next.Get(a).momentum, combo, r1, r2);
      ClimbSourced(base, inspired, a);
    }
  }

  lemma ActSourced(base: MatchState, w: Work, a: Slot, input: TurnInput, ctx: Context, r0: nat, r1: nat, r2: nat)
    requires Sourced(base, w)
    ensures Sourced(base, Act(w, a, input, ctx, r0, r1, r2))
  {
    hide Sourced, Attempt, Succeed, SkipStunned, Starve, Idle, StaminaCost;
    var action, zone := NormalizeAction(input.action), NormalizeZone(input.target);
    StillSourced(base, w, a, action, zone);
    AttemptSourced(base, w, a, action, zone, ctx, r0);
    var tried := Attempt(w, a, action, zone, ctx, r0);
    if tried.next.Get(a).lastSuccess {
      SucceedSourced(base, tried, a, action, zone, r1, r2);
    }
  }

  lemma RestSourced(base: MatchState, w: Work, a: Slot, ctx: Context)
    requires Sourced(base, w)
    ensures var v := Rest(w, a, ctx);
            Sourced(base, v.With(a, Recovered(v.next.Get(a), v.next.combat)))
  {
    hide Fold, RegenOf;
    var v := Rest(w, a, ctx);
    var u := v.With(a, Recovered(v.next.Get(a), v.next.combat));
    Emitted(base, w, u, u.events[|w.events|]);
  }

  lemma CloseSourced(base: MatchState, w: Work, c1: Context, c2: Context)
    requires Sourced(base, w)
    ensures Sourced(base, Close(w, c1, c2))
  {
    hide Sourced, RegenOf;
    RestSourced(base, w, P1, c1);
    var v := Rest(w, P1, c1);
    var u := v.With(P1, Recovered(v.next.Get(P1), v.next.combat));
    RestSourced(base, u, P2, c2);
    assert Close(w, c1, c2) == Rest(u, P2, c2).With(P2, Recovered(Rest(u, P2, c2).next.p2, u.next.combat));
  }

  /** Reading a turn's log reproduces the turn, from any state and for any inputs and rolls. */
  lemma TurnIsSourced(s: MatchState, ordered: seq<TurnInput>, tape: Tape)
    requires ProperIds(s) && |ordered| == 2
    ensures Fold(Blank(s), Play(s, ordered, tape).events) == Blank(Play(s, ordered, tape).next)
    ensures Sourced(Blank(s), Play(s, ordered, tape))
  {
    hide Act, Begin, Close, Blank;
    var base, a := Blank(s), s.SlotOf(ordered[0].player);
    BeginSourced(s);
    ActSourced(base, Begin(s), a, ordered[0], Contexts(s, a, ordered[1]), tape[0], tape[1], tape[2]);
    var w := Opening(s, ordered, tape);
    OpeningDraws(s, ordered, tape);
    var k := |w.rolls|;
    ActSourced(base, w, a.Other(), ordered[1], Contexts(s, a.Other(), ordered[0]), tape[k], tape[k + 1], tape[k + 2]);
    var c0, c1 := Contexts(s, a, ordered[1]), Contexts(s, a.Other(), ordered[0]);
    CloseSourced(base, Exchange(s, ordered, tape), if a == P1 then c0 else c1, if a == P1 then c1 else c0);
  }
}
