/**
 What every state of a match between archetype fighters satisfies, and what every logged event of a turn tells about
 the state the turn began in. Limits move with the turn number, which is what bounds how early a match can end.
 */
module Invariant {
  import opened CombatTypes
  import opened Rules
  import opened Turn
  import opened Order
  import Odds

  // ---------- the invariant ----------

  function Min(a: int, b: int): int { if a < b then a else b }

  function Rank(s: State): nat {
    match s
    case Neutral => 0
    case Clinch => 1
    case Ground => 2
    case Dominant => 3
    case SubmissionAttempt => 4
    case Stunned => 5
  }

  /** The most one action can deal when `t` turns are behind: momentum is then at most 13 * t. */
  function DamageCap(t: nat): int { (21 * (100 + Min(50, 13 * t)) / 100) * 110 / 100 }

  /** The most a fighter can have lost after `t` turns, one blow a turn. */
  function LossCap(t: nat): int { if t == 0 then 0 else LossCap(t - 1) + DamageCap(t - 1) }

  datatype Limits = Limits(momentum: nat, hp: int, stamina: nat)

  datatype Bounds = Bounds(one: Limits, two: Limits, rank: nat) {
    function Get(s: Slot): Limits { if s == P1 then one else two }
    function Put(s: Slot, l: Limits): Bounds { if s == P1 then this.(one := l) else this.(two := l) }
  }

  predicate Archetyped(f: Fighter) {
    ArchetypeStats(f.archetype) == Some(f.stats)
  }

  predicate Healthy(f: Fighter, l: Limits) {
    && Archetyped(f)
    && 0 <= f.hp <= HP_MAX && l.hp <= f.hp
    && l.stamina <= f.stamina <= STAMINA_MAX
    && 0 <= f.momentum <= 50 && f.momentum <= l.momentum
    && 0 <= f.effects.stun <= 1 && 0 <= f.effects.torso <= 2 && 0 <= f.effects.legs <= 2
  }

  predicate Posture(f: Fighter, combat: State) {
    && (f.state == Stunned || f.state == combat)
    && (f.effects.stun > 0 ==> f.state == Stunned)
  }

  /** What holds at every point of a turn. */
  predicate Mid(m: MatchState, b: Bounds) {
    && ProperIds(m)
    && Healthy(m.p1, b.one) && Healthy(m.p2, b.two)
    && Posture(m.p1, m.combat) && Posture(m.p2, m.combat)
    && m.combat != Stunned && Rank(m.combat) <= b.rank
    && m.distance == 1
    && 0 <= m.p1.lastHit <= m.turn && 0 <= m.p2.lastHit <= m.turn
  }

  predicate WonBy(m: MatchState, w: Slot) {
    && m.outcome.winner == m.Get(w).id && m.Get(w).hp > 0
    && (m.outcome.how == KO || m.outcome.how == Submission)
    && (m.outcome.how == KO <==> m.Get(w.Other()).hp == 0)
    && (m.outcome.how == Submission ==> m.combat == SubmissionAttempt)
  }

  /** Nobody is down in an open match; a finished one has a standing winner, by knock-out or by submission. */
  predicate Decided(m: MatchState) {
    if m.outcome.finished then WonBy(m, P1) || WonBy(m, P2)
    else m.p1.hp > 0 && m.p2.hp > 0 && m.outcome == Outcome(false, [], NoMethod)
  }

  predicate Settled(f: Fighter) { f.state == Stunned <==> f.effects.stun > 0 }

  function BoundsAt(t: nat): Bounds {
    Bounds(Limits(13 * t, 100 - LossCap(t), 7), Limits(13 * t, 100 - LossCap(t), 7), 2 * t)
  }

  /** The invariant of states between turns. */
  predicate Inv(m: MatchState) {
    && m.turn >= 0
    && Mid(m, BoundsAt(m.turn))
    && Decided(m)
    && Settled(m.p1) && Settled(m.p2)
  }

  predicate IsFresh(m: MatchState) {
    && ProperIds(m)
    && Some(m.p1) == NewFighter(m.p1.id, m.p1.archetype)
    && Some(m.p2) == NewFighter(m.p2.id, m.p2.archetype)
    && m == NewMatchState(m.p1, m.p2).(rng := m.rng)
  }

  lemma FreshInv(m: MatchState)
    requires IsFresh(m)
    ensures Inv(m)
  {
  }

  // ---------- what an event tells about the state its turn began in ----------

  predicate Named(s: MatchState, id: Id) { id == s.p1.id || id == s.p2.id }

  predicate Explained(s: MatchState, e: Event)
    requires s.turn >= 0
  {
    var actor := s.Get(s.SlotOf(e.player));
    && (e.kind != TurnStarted ==> Named(s, e.player))
    && (e.kind == DamageApplied ==>
          Named(s, e.target) && e.target != e.player && 12 <= e.value <= DamageCap(s.turn) && e.value <= 34)
    && (e.kind == ActionResolved ==>
          && actor.effects.stun == 0
          && (e.detail != InsufficientStamina ==> e.detail == ChanceRoll && 2160 <= e.value <= 8250)
          && (e.detail == InsufficientStamina ==>
                !e.success && (e.action == Strike || e.action == Grapple || e.action == Counter || e.action == Break)))
    && (e.kind == StatusApplied && e.detail == ComboActive ==> actor.lastHit == s.turn && IsOffensive(e.action))
    && (e.kind == StatusApplied && e.detail == StunnedSkip ==> actor.effects.stun > 0)
  }

  predicate Continues(s: MatchState, w: Work) {
    s.turn >= 0 && w.next.turn == s.turn + 1 && w.next.p1.id == s.p1.id && w.next.p2.id == s.p2.id
  }

  /** A turn under way: within its limits, and everything logged so far is explained. */
  ghost predicate Sound(s: MatchState, w: Work, b: Bounds) {
    && Continues(s, w)
    && Mid(w.next, b)
    && forall i :: 0 <= i < |w.events| ==> Explained(s, w.events[i])
  }

  lemma Logged(s: MatchState, w: Work, b: Bounds, v: Work, c: Bounds)
    requires Sound(s, w, b) && Continues(s, v) && Mid(v.next, c)
    requires w.events <= v.events && |v.events| <= |w.events| + 1
    requires |v.events| > |w.events| ==> Explained(s, v.events[|w.events|])
    ensures Sound(s, v, c)
  {
    hide Mid, Explained;
  }

  // ---------- start ----------

  lemma BeginSound(s: MatchState)
    requires Inv(s)
    ensures Sound(s, Begin(s), BoundsAt(s.turn))
    ensures Begin(s).next.p1.lastHit == s.p1.lastHit && Begin(s).next.p2.lastHit == s.p2.lastHit
    ensures Begin(s).next.p1.hp == s.p1.hp && Begin(s).next.p2.hp == s.p2.hp
    ensures Begin(s).next.outcome == s.outcome && Begin(s).next.combat == s.combat
  {
    hide LossCap;
  }

  // ---------- one action ----------

  lemma IdleSound(s: MatchState, w: Work, a: Slot, action: Action, zone: Zone, b: Bounds)
    requires Sound(s, w, b)
    ensures s.Get(a).effects.stun > 0 ==> Sound(s, SkipStunned(w, a), b)
    ensures Sound(s, Idle(w, a), b)
    ensures action.Strike? || action.Grapple? || action.Counter? || action.Break? ==>
              s.Get(a).effects.stun == 0 ==> Sound(s, Starve(w, a, action, zone), b)
  {
    if s.Get(a).effects.stun > 0 {
      Logged(s, w, b, SkipStunned(w, a), b);
    } else if s.Get(a).effects.stun == 0 && (action.Strike? || action.Grapple? || action.Counter? || action.Break?) {
      Logged(s, w, b, Starve(w, a, action, zone), b);
    }
    Logged(s, w, b, Idle(w, a), b);
  }

  /** Paying may use up the stamina reserve the fighter began its turn with. */
  function Spent(b: Bounds, a: Slot): Bounds { b.Put(a, b.Get(a).(stamina := 0)) }

  lemma PaidMid(m: MatchState, a: Slot, action: Action, success: bool, b: Bounds)
    requires Mid(m, b) && StaminaCost(action, m.Get(a).stats.endurance) <= m.Get(a).stamina
    ensures Mid(m.Put(a, Paid(m.Get(a), action).(lastSuccess := success)), Spent(b, a))
  {
    CostBounds(action, m.Get(a).stats.endurance);
    hide StaminaCost;
  }

  lemma AttemptSound(s: MatchState, w: Work, a: Slot, action: Action, zone: Zone, ctx: Context, roll: nat, b: Bounds)
    requires Sound(s, w, b) && s.Get(a).effects.stun == 0 && Odds.Real(action)
    requires StaminaCost(action, w.next.Get(a).stats.endurance) <= w.next.Get(a).stamina
    ensures Sound(s, Attempt(w, a, action, zone, ctx, roll), Spent(b, a))
    ensures var v := Attempt(w, a, action, zone, ctx, roll);
            && v.next.Get(a.Other()) == w.next.Get(a.Other())
            && v.next.outcome == w.next.outcome && v.next.combat == w.next.combat
            && v.next.Get(a).(stamina := 0, lastAction := NoAction, lastSuccess := false)
               == w.next.Get(a).(stamina := 0, lastAction := NoAction, lastSuccess := false)
  {
    assert Odds.Ready(w.next.Get(a)) && Odds.Ready(w.next.Get(a.Other()));
    Odds.ChanceIsNeverCapped(Paid(w.next.Get(a), action), w.next.Get(a.Other()), action, ctx);
    Odds.ReachIsNoObstacle(action);
    hide Chance, InReach, StaminaCost, Healthy, Posture, Rank, Odds.Unlimited;
    var v := Attempt(w, a, action, zone, ctx, roll);
    PaidMid(w.next, a, action, v.next.Get(a).lastSuccess, b);
    Logged(s, w, b, v, Spent(b, a));
  }

  function Raised(b: Bounds, a: Slot): Bounds { b.Put(a, b.Get(a).(momentum := b.Get(a).momentum + 13)) }

  lemma InspireSound(s: MatchState, w: Work, a: Slot, action: Action, combo: bool, b: Bounds)
    requires Sound(s, w, b)
    requires combo ==> s.Get(a).lastHit == s.turn && IsOffensive(action)
    ensures Sound(s, Inspire(w, a, action, combo), Raised(b, a))
    ensures var v := Inspire(w, a, action, combo);
            v.next == w.next.Put(a, w.next.Get(a).(momentum := v.next.Get(a).momentum))
  {
    Logged(s, w, b, Inspire(w, a, action, combo), Raised(b, a));
  }

  function Wounded(b: Bounds, d: Slot, loss: int): Bounds { b.Put(d, b.Get(d).(hp := b.Get(d).hp - loss)) }

  lemma BaseDamageBounds(action: Action, f: Fighter)
    requires Archetyped(f) && IsHit(action)
    ensures 12 <= BaseDamage(action, f.stats) <= 21
  {
  }

  lemma DamageSound(s: MatchState, w: Work, a: Slot, action: Action, zone: Zone, before: int, combo: bool, b: Bounds)
    requires Sound(s, w, b) && IsHit(action) && 0 <= before <= 50 && before <= 13 * s.turn
    ensures Sound(s, Damage(w, a, action, zone, before, combo), Wounded(b, a.Other(), DamageCap(s.turn)))
  {
    BaseDamageBounds(action, w.next.Get(a));
    DamageBounds(BaseDamage(action, w.next.Get(a).stats), before, Min(50, 13 * s.turn), combo);
    hide DamageFinal, BaseDamage;
    Logged(s, w, b, Damage(w, a, action, zone, before, combo), Wounded(b, a.Other(), DamageCap(s.turn)));
  }

  lemma ZoneSound(s: MatchState, w: Work, a: Slot, zone: Zone, b: Bounds)
    requires Sound(s, w, b)
    ensures Sound(s, ZoneEffect(w, a, zone), b)
  {
    Logged(s, w, b, ZoneEffect(w, a, zone), b);
  }

  lemma StunSound(s: MatchState, w: Work, a: Slot, zone: Zone, roll: nat, b: Bounds)
    requires Sound(s, w, b)
    ensures Sound(s, StunRoll(w, a, zone, roll), b)
  {
    hide StunChance;
    Logged(s, w, b, StunRoll(w, a, zone, roll), b);
  }

  function Higher(b: Bounds): Bounds { b.(rank := b.rank + 1) }

  lemma ClimbSound(s: MatchState, w: Work, a: Slot, b: Bounds)
    requires Sound(s, w, b)
    ensures Sound(s, Climb(w, a), Higher(b)) && Sound(s, Escape(w, a), b)
  {
    Logged(s, w, b, Climb(w, a), Higher(b));
    Logged(s, w, b, Escape(w, a), b);
  }

  lemma FinishSound(s: MatchState, w: Work, a: Slot, roll: nat, b: Bounds)
    requires Sound(s, w, b)
    ensures Sound(s, Submit(w, a, roll), b) && Sound(s, KnockOut(w, a), b)
  {
    hide SubmissionChance;
    Logged(s, w, b, Submit(w, a, roll), b);
    Logged(s, w, b, KnockOut(w, a), b);
  }

  function Landed(b: Bounds, a: Slot, t: nat): Bounds { Higher(Wounded(b, a.Other(), DamageCap(t))) }

  predicate Looser(l: Limits, k: Limits) { l.momentum <= k.momentum && k.hp <= l.hp && k.stamina <= l.stamina }

  lemma Loosen(s: MatchState, w: Work, b: Bounds, c: Bounds)
    requires Sound(s, w, b) && Looser(b.one, c.one) && Looser(b.two, c.two) && b.rank <= c.rank
    ensures Sound(s, w, c)
  {
    hide Explained;
  }

  /** Between the blow and its outcome: nothing is decided and the actor and its reserves are untouched. */
  predicate Pending(w: Work, v: Work, a: Slot) {
    && v.next.outcome == w.next.outcome
    && v.next.Get(a).hp == w.next.Get(a).hp && v.next.Get(a).id == w.next.Get(a).id
    && 0 <= v.next.Get(a.Other()).hp
    && v.next.Get(a.Other()).lastHit == w.next.Get(a.Other()).lastHit
    && v.next.Get(a.Other()).stamina == w.next.Get(a.Other()).stamina
  }

  lemma BlowPends(w: Work, v: Work, a: Slot, action: Action, zone: Zone, before: int, combo: bool, roll: nat)
    requires Pending(w, v, a)
    ensures Pending(w, Damage(v, a, action, zone, before, combo), a)
    ensures Pending(w, ZoneEffect(v, a, zone), a)
    ensures Pending(w, StunRoll(v, a, zone, roll), a)
    ensures Pending(w, Climb(v, a), a)
  {
    StunPends(w, v, a, zone, roll);
    hide DamageFinal, BaseDamage, StunRoll, Climb;
  }

  lemma StunPends(w: Work, v: Work, a: Slot, zone: Zone, roll: nat)
    requires Pending(w, v, a)
    ensures Pending(w, StunRoll(v, a, zone, roll), a) && Pending(w, Climb(v, a), a)
  {
    hide StunChance;
  }

  lemma BlowDecides(w: Work, v: Work, a: Slot, roll: nat)
    requires Pending(w, v, a) && Decided(w.next) && !w.next.outcome.finished
    ensures Decided(KnockOut(v, a).next) && Decided(KnockOut(Submit(v, a, roll), a).next)
    ensures KnockOut(v, a).next.Get(a.Other()) == v.next.Get(a.Other())
    ensures KnockOut(Submit(v, a, roll), a).next.Get(a.Other()) == v.next.Get(a.Other())
  {
    hide SubmissionChance;
  }

  lemma LandDecides(w: Work, a: Slot, action: Action, zone: Zone, before: int, combo: bool, r1: nat, r2: nat)
    requires Decided(w.next) && !w.next.outcome.finished
    ensures var v := Land(w, a, action, zone, before, combo, r1, r2);
            && Decided(v.next)
            && v.next.Get(a.Other()).lastHit == w.next.Get(a.Other()).lastHit
            && v.next.Get(a.Other()).stamina == w.next.Get(a.Other()).stamina
  {
    assert Pending(w, w, a);
    hide Damage, ZoneEffect, StunRoll, Climb, Submit, KnockOut, Decided;
    BlowPends(w, w, a, action, zone, before, combo, r1);
    var hurt := Damage(w, a, action, zone, before, combo);
    BlowPends(w, hurt, a, action, zone, before, combo, r1);
    var struck := ZoneEffect(hurt, a, zone);
    BlowPends(w, struck, a, action, zone, before, combo, r1);
    var stunned := StunRoll(struck, a, zone, r1);
    BlowPends(w, stunned, a, action, zone, before, combo, r1);
    BlowDecides(w, Climb(stunned, a), a, r2);
    BlowDecides(w, stunned, a, r2);
  }

  /** The phases of a landed blow leave the decision alone until the last one, and then make it. */
  lemma LandSound(s: MatchState, w: Work, a: Slot, action: Action, zone: Zone, before: int, combo: bool,
                  r1: nat, r2: nat, b: Bounds)
    requires Sound(s, w, b) && IsHit(action) && 0 <= before <= 50 && before <= 13 * s.turn
    requires Decided(w.next) && !w.next.outcome.finished
    ensures var v := Land(w, a, action, zone, before, combo, r1, r2);
            && Sound(s, v, Landed(b, a, s.turn)) && Decided(v.next)
            && v.next.Get(a.Other()).lastHit == w.next.Get(a.Other()).lastHit
            && v.next.Get(a.Other()).stamina == w.next.Get(a.Other()).stamina
  {
    LandDecides(w, a, action, zone, before, combo, r1, r2);
    hide Sound, Damage, ZoneEffect, StunRoll, Climb, Submit, KnockOut, Decided, DamageCap;
    var c := Wounded(b, a.Other(), DamageCap(s.turn));
    DamageSound(s, w, a, action, zone, before, combo, b);
    var hurt := Damage(w, a, action, zone, before, combo);
    ZoneSound(s, hurt, a, zone, c);
    var struck := ZoneEffect(hurt, a, zone);
    StunSound(s, struck, a, zone, r1, c);
    var stunned := StunRoll(struck, a, zone, r1);
    ClimbSound(s, stunned, a, c);
    FinishSound(s, Climb(stunned, a), a, r2, Higher(c));
    FinishSound(s, Submit(Climb(stunned, a), a, r2), a, r2, Higher(c));
    FinishSound(s, stunned, a, r2, c);
    Loosen(s, KnockOut(stunned, a), c, Higher(c));
  }

  /** Everything one action may do to the limits. */
  function Acted(b: Bounds, a: Slot, t: nat): Bounds { Landed(Raised(Spent(b, a), a), a, t) }

  lemma CapPositive(t: nat)
    ensures 0 <= DamageCap(t)
  {
  }

  /** A landed blow changes the limits at least as much as any other success. */
  lemma LooseLanded(s: MatchState, w: Work, b: Bounds, a: Slot)
    requires Sound(s, w, b)
    ensures Sound(s, w, Landed(b, a, s.turn))
  {
    hide Explained, DamageCap;
    CapPositive(s.turn);
  }

  lemma FeintSound(s: MatchState, w: Work, a: Slot, b: Bounds)
    requires Sound(s, w, b) && Decided(w.next)
    ensures var v := w.With(a, w.next.Get(a).(lastHit := w.next.turn)); Sound(s, v, b) && Decided(v.next)
    ensures Decided(Escape(w, a).next) || w.next.outcome.finished
  {
    Logged(s, w, b, w.With(a, w.next.Get(a).(lastHit := w.next.turn)), b);
  }

  lemma MomentumKnown(s: MatchState, w: Work, a: Slot, b: Bounds)
    requires Sound(s, w, b)
    ensures 0 <= w.next.Get(a).momentum <= 50 && w.next.Get(a).momentum <= b.Get(a).momentum
    ensures ProperIds(w.next) && Continues(s, w)
  {
    hide Explained;
  }

  /** Feint, Break, Block and Dodge: successes that land no blow. */
  lemma EaseSound(s: MatchState, w: Work, a: Slot, action: Action, b: Bounds)
    requires Sound(s, w, b) && Decided(w.next) && !w.next.outcome.finished
    ensures var v := if action == Feint then w.With(a, w.next.Get(a).(lastHit := w.next.turn))
                     else if action == Break then Escape(w, a) else w;
            && Sound(s, v, Landed(b, a, s.turn)) && Decided(v.next)
            && v.next.Get(a.Other()).lastHit == w.next.Get(a.Other()).lastHit
            && v.next.Get(a.Other()).stamina == w.next.Get(a.Other()).stamina
  {
    hide Sound, Landed, Decided;
    FeintSound(s, w, a, b);
    ClimbSound(s, w, a, b);
    LooseLanded(s, w.With(a, w.next.Get(a).(lastHit := w.next.turn)), b, a);
    LooseLanded(s, Escape(w, a), b, a);
    LooseLanded(s, w, b, a);
  }

  lemma MomentumDecides(m: MatchState, a: Slot, momentum: int)
    requires Decided(m)
    ensures Decided(m.Put(a, m.Get(a).(momentum := momentum)))
  {
  }

  lemma SucceedSound(s: MatchState, w: Work, a: Slot, action: Action, zone: Zone, r1: nat, r2: nat, b: Bounds)
    requires Sound(s, w, b) && b.Get(a).momentum <= 13 * s.turn
    requires w.next.Get(a).lastHit == s.Get(a).lastHit
    requires Decided(w.next) && !w.next.outcome.finished
    ensures var v := Succeed(w, a, action, zone, r1, r2);
            && Sound(s, v, Landed(Raised(b, a), a, s.turn)) && Decided(v.next)
            && v.next.Get(a.Other()).lastHit == w.next.Get(a.Other()).lastHit
            && v.next.Get(a.Other()).stamina == w.next.Get(a.Other()).stamina
  {
    hide Sound, Land, Inspire, Landed, Raised, Escape;
    MomentumKnown(s, w, a, b);
    var combo := InCombo(w, a, action);
    InspireSound(s, w, a, action, combo, b);
    var inspired := Inspire(w, a, action, combo);
    MomentumDecides(w.next, a, inspired.next.Get(a).momentum);
    hide InCombo, Decided;
    if IsHit(action) {
      LandSound(s, inspired, a, action, zone, w.next.Get(a).momentum, combo, r1, r2, Raised(b, a));
    } else {
      EaseSound(s, inspired, a, action, Raised(b, a));
    }
  }

  lemma ActSound(s: MatchState, w: Work, a: Slot, input: TurnInput, opponent: TurnInput, r0: nat, r1: nat, r2: nat,
                 b: Bounds)
    requires Inv(s) && Sound(s, w, b) && Decided(w.next)
    requires b.Get(a).momentum <= 13 * s.turn && 7 <= b.Get(a).stamina
    requires w.next.Get(a).lastHit == s.Get(a).lastHit
    ensures var v := Act(w, a, input, Contexts(s, a, opponent), r0, r1, r2);
            && Sound(s, v, Acted(b, a, s.turn)) && Decided(v.next)
            && v.next.Get(a.Other()).lastHit == w.next.Get(a.Other()).lastHit
  {
    hide Explained, Attempt, Succeed, DamageCap, LossCap, StaminaCost;
    CapPositive(s.turn);
    var ctx := Contexts(s, a, opponent);
    var action, zone := NormalizeAction(input.action), NormalizeZone(input.target);
    var f := w.next.Get(a);
    if w.next.outcome.finished {
      Loosen(s, w, b, Acted(b, a, s.turn));
    } else if ctx.stunned {
      IdleSound(s, w, a, action, zone, b);
      Loosen(s, SkipStunned(w, a), b, Acted(b, a, s.turn));
    } else if f.stamina < StaminaCost(action, f.stats.endurance) {
      CostBounds(action, f.stats.endurance);
      AffordsDefence(action, f.stats.endurance);
      IdleSound(s, w, a, action, zone, b);
      Loosen(s, Starve(w, a, action, zone), b, Acted(b, a, s.turn));
    } else if action == NoAction {
      IdleSound(s, w, a, action, zone, b);
      Loosen(s, Idle(w, a), b, Acted(b, a, s.turn));
    } else {
      AttemptSound(s, w, a, action, zone, ctx, r0, b);
      var tried := Attempt(w, a, action, zone, ctx, r0);
      if tried.next.Get(a).lastSuccess {
        SucceedSound(s, tried, a, action, zone, r1, r2, Spent(b, a));
      } else {
        Loosen(s, tried, Spent(b, a), Acted(b, a, s.turn));
      }
    }
  }

  /** Only the four expensive actions can ever cost more than the reserve of 7. */
  lemma AffordsDefence(action: Action, endurance: int)
    requires 5 <= endurance <= 8 && 7 < StaminaCost(action, endurance)
    ensures action.Strike? || action.Grapple? || action.Counter? || action.Break?
  {
    CostBounds(action, endurance);
  }

  function Drained(b: Bounds): Bounds { Spent(Spent(b, P1), P2) }

  lemma RestSound(s: MatchState, w: Work, a: Slot, ctx: Context, b: Bounds)
    requires Sound(s, w, b)
    ensures Sound(s, Rest(w, a, ctx), b.Put(a, b.Get(a).(stamina := 7)))
    ensures Rest(w, a, ctx).next == w.next.Put(a, w.next.Get(a).(stamina := Rest(w, a, ctx).next.Get(a).stamina))
  {
    CostBounds(Block, w.next.Get(a).stats.endurance);
    hide StaminaCost, Regen;
    Logged(s, w, b, Rest(w, a, ctx), b.Put(a, b.Get(a).(stamina := 7)));
  }

  lemma RecoverSound(s: MatchState, w: Work, b: Bounds)
    requires Sound(s, w, b) && Decided(w.next)
    ensures var n := w.next;
            var m := n.(p1 := Recovered(n.p1, n.combat), p2 := Recovered(n.p2, n.combat));
            Sound(s, w.(next := m), b) && Decided(m) && Settled(m.p1) && Settled(m.p2)
  {
    hide Explained;
  }

  lemma CloseSound(s: MatchState, w: Work, c1: Context, c2: Context)
    requires s.turn >= 0 && Sound(s, w, Drained(BoundsAt(s.turn + 1))) && Decided(w.next)
    ensures Inv(Close(w, c1, c2).next)
    ensures Sound(s, Close(w, c1, c2), BoundsAt(s.turn + 1))
  {
    hide Rest, LossCap, Recovered, Explained, Mid;
    var b := BoundsAt(s.turn + 1);
    RestSound(s, w, P1, c1, Drained(b));
    RestSound(s, Rest(w, P1, c1), P2, c2, Spent(b, P2));
    RecoverSound(s, Rest(Rest(w, P1, c1), P2, c2), b);
  }

  /** One turn keeps the invariant, and every entry of its log is explained by the state the turn began in. */
  lemma TurnKeepsInvariant(s: MatchState, ordered: seq<TurnInput>, tape: Tape)
    requires Inv(s) && |ordered| == 2
    ensures Inv(Play(s, ordered, tape).next) && Continues(s, Play(s, ordered, tape))
    ensures forall i :: 0 <= i < |Play(s, ordered, tape).events| ==> Explained(s, Play(s, ordered, tape).events[i])
  {
    hide Explained, Act, Begin, Close, DamageCap, Mid;
    var a := s.SlotOf(ordered[0].player);
    var b := BoundsAt(s.turn);
    BeginSound(s);
    ActSound(s, Begin(s), a, ordered[0], ordered[1], tape[0], tape[1], tape[2], b);
    var w := Opening(s, ordered, tape);
    OpeningDraws(s, ordered, tape);
    var k := |w.rolls|;
    ActSound(s, w, a.Other(), ordered[1], ordered[0], tape[k], tape[k + 1], tape[k + 2], Acted(b, a, s.turn));
    var c0, c1 := Contexts(s, a, ordered[1]), Contexts(s, a.Other(), ordered[0]);
    Loosen(s, Exchange(s, ordered, tape), Acted(Acted(b, a, s.turn), a.Other(), s.turn),
           Drained(BoundsAt(s.turn + 1)));
    CloseSound(s, Exchange(s, ordered, tape), if a == P1 then c0 else c1, if a == P1 then c1 else c0);
  }
}
