/**
 One turn as a function: what `ResolveTurn` of internal/combat/resolver.go computes from a state, a canonical pair of
 inputs and the rolls the random source would yield. The method that does it in place is in module Resolver.

 A turn draws at most six times, so the rolls are given as a tape of six; `Work.rolls` records those consumed.
 */
module Turn {
  import opened CombatTypes
  import opened Rules
  import Order

  type Tape = t: seq<nat> | |t| == 6 witness [0, 0, 0, 0, 0, 0]

  /** Effects as they stood when the turn began, and what the opponent is attempting. */
  datatype Context = Context(stunned: bool, torso: bool, legs: bool, opponent: Action)

  /** The state under construction, the event log of the turn and the rolls drawn so far. */
  datatype Work = Work(next: MatchState, events: seq<Event>, rolls: seq<nat>) {
    function With(s: Slot, f: Fighter): Work { this.(next := next.Put(s, f)) }
    function Emit(e: Event): Work { this.(events := events + [e]) }
    function Drawn(roll: nat): Work { this.(rolls := rolls + [roll]) }
  }

  /** The log of `v` continues that of `w`, with entries of these kinds only. */
  predicate Extends(w: Work, v: Work, kinds: set<EventKind>) {
    && w.events <= v.events
    && forall i :: |w.events| <= i < |v.events| ==> v.events[i].kind in kinds
  }

  function NormalizeAction(a: Action): Action { if a.OtherAction? then NoAction else a }

  // ---------- start of the turn ----------

  function ContextOf(f: Fighter, opponent: Action): Context {
    Context(f.effects.stun > 0, f.effects.torso > 0, f.effects.legs > 0, opponent)
  }

  function Decay(n: int): int { if n > 0 then n - 1 else n }

  function Prepared(f: Fighter): Fighter {
    f.(effects := Effects(Decay(f.effects.stun), Decay(f.effects.torso), Decay(f.effects.legs)))
  }

  function Begin(s: MatchState): Work {
    var next := s.(turn := s.turn + 1, p1 := Prepared(s.p1), p2 := Prepared(s.p2));
    Work(next, [Event(next.turn, TurnStarted, [], [], NoAction, Head, 0, false, TurnBegin)], [])
  }

  // ---------- one fighter's action ----------

  function Defense(action: Action, defender: Fighter, defenderAction: Action, legs: bool): int {
    if defenderAction == Block then Clamp(defender.stats.technique + 1, 1, 10)
    else if defenderAction == Dodge then
      Clamp(if legs then Max(1, TruncDiv(defender.stats.agility * 80, 100)) else defender.stats.agility, 1, 10)
    else match action
      case Strike => Clamp(defender.stats.agility, 1, 10)
      case Grapple => Clamp(defender.stats.technique, 1, 10)
      case Counter => Clamp(defender.stats.technique, 1, 10)
      case Feint => Clamp(defender.stats.technique, 1, 10)
      case Break => Clamp(defender.stats.power, 1, 10)
      case _ => 1
  }

  /** The leg penalty handed to `Defense` is the actor's own, as in the source. */
  function Chance(actor: Fighter, defender: Fighter, action: Action, ctx: Context): int {
    var raw := SuccessChance(RelevantAttribute(action, actor.stats),
                             Defense(action, defender, ctx.opponent, ctx.legs), actor.momentum, actor.stamina);
    Clamp(if action == Dodge && ctx.legs then TruncDiv(raw * 80, 100) else raw, CHANCE_MIN, CHANCE_MAX)
  }

  function SkipStunned(w: Work, a: Slot): (r: Work)
    ensures r.rolls == w.rolls
    ensures Extends(w, r, {StatusApplied})
  {
    var actor := w.next.Get(a);
    w.With(a, actor.(lastAction := NoAction, lastSuccess := false))
     .Emit(Event(w.next.turn, StatusApplied, actor.id, [], NoAction, Head, 0, false, StunnedSkip))
  }

  function Starve(w: Work, a: Slot, action: Action, zone: Zone): (r: Work)
    ensures r.rolls == w.rolls
    ensures Extends(w, r, {ActionResolved})
  {
    var actor := w.next.Get(a);
    w.With(a, actor.(lastAction := action, lastSuccess := false))
     .Emit(Event(w.next.turn, ActionResolved, actor.id, w.next.Get(a.Other()).id, action, zone, 0, false,
                 InsufficientStamina))
  }

  function Idle(w: Work, a: Slot): (r: Work)
    ensures r.rolls == w.rolls
    ensures Extends(w, r, {})
  {
    w.With(a, w.next.Get(a).(lastAction := NoAction, lastSuccess := false))
  }

  function Paid(actor: Fighter, action: Action): Fighter {
    actor.(stamina := actor.stamina - StaminaCost(action, actor.stats.endurance), lastAction := action)
  }

  predicate InReach(action: Action, distance: int) {
    RequiresHitbox(action) ==> MoveForAction(action).IsActive(1) && distance <= MoveForAction(action).range
  }

  function Attempt(w: Work, a: Slot, action: Action, zone: Zone, ctx: Context, roll: nat): (r: Work)
    ensures r.rolls == w.rolls + [roll]
    ensures Extends(w, r, {ActionResolved})
  {
    var actor := Paid(w.next.Get(a), action);
    var defender := w.next.Get(a.Other());
    var chance := Chance(actor, defender, action, ctx);
    var success := roll < chance && InReach(action, w.next.distance);
    var detail := if roll < chance && !InReach(action, w.next.distance) then MissOutOfRange else ChanceRoll;
    w.Drawn(roll)
     .With(a, actor.(lastSuccess := success))
     .Emit(Event(w.next.turn, ActionResolved, actor.id, defender.id, action, zone, chance, success, detail))
  }

  /** A combo follows a success of the turn before; a paid actor must still have more than 30 stamina. */
  predicate InCombo(w: Work, a: Slot, action: Action) {
    IsOffensive(action) && w.next.Get(a).lastHit == w.next.turn - 1 && w.next.Get(a).stamina > 30
  }

  function Inspire(w: Work, a: Slot, action: Action, combo: bool): (r: Work)
    ensures r.rolls == w.rolls
    ensures Extends(w, r, {StatusApplied})
  {
    var actor := w.next.Get(a);
    var once := Clamp(actor.momentum + 8, 0, 50);
    if !combo then w.With(a, actor.(momentum := once))
    else
      w.With(a, actor.(momentum := Clamp(once + 5, 0, 50)))
       .Emit(Event(w.next.turn, StatusApplied, actor.id, [], action, Head, 0, true, ComboActive))
  }

  function Damage(w: Work, a: Slot, action: Action, zone: Zone, momentumBefore: int, combo: bool): (r: Work)
    ensures r.rolls == w.rolls
    ensures Extends(w, r, {DamageApplied})
  {
    var actor, defender := w.next.Get(a), w.next.Get(a.Other());
    var damage := DamageFinal(BaseDamage(action, actor.stats), momentumBefore, combo);
    if damage <= 0 then w
    else
      w.With(a.Other(), defender.(hp := Clamp(defender.hp - damage, 0, HP_MAX),
                                  momentum := Clamp(defender.momentum - 6, 0, 50)))
       .With(a, actor.(lastHit := w.next.turn))
       .Emit(Event(w.next.turn, DamageApplied, actor.id, defender.id, action, zone, damage, true, DamageDealt))
  }

  function ZoneEffect(w: Work, a: Slot, zone: Zone): (r: Work)
    ensures r.rolls == w.rolls
    ensures Extends(w, r, {StatusApplied})
  {
    var defender := w.next.Get(a.Other());
    match zone
    case Torso =>
      w.With(a.Other(), defender.(effects := defender.effects.(torso := Max(defender.effects.torso, 2))))
       .Emit(Event(w.next.turn, StatusApplied, defender.id, [], NoAction, Torso, 0, true, TorsoPenalty))
    case Legs =>
      w.With(a.Other(), defender.(effects := defender.effects.(legs := Max(defender.effects.legs, 2))))
       .Emit(Event(w.next.turn, StatusApplied, defender.id, [], NoAction, Legs, 0, true, LegsPenalty))
    case _ => w
  }

  function StunRoll(w: Work, a: Slot, zone: Zone, roll: nat): (r: Work)
    ensures r.rolls == w.rolls + [roll]
    ensures Extends(w, r, {StatusApplied})
  {
    var actor, defender := w.next.Get(a), w.next.Get(a.Other());
    var chance := StunChance(zone, defender.stamina, actor.momentum - defender.momentum);
    if chance <= roll then w.Drawn(roll)
    else
      w.Drawn(roll)
       .With(a.Other(), defender.(effects := defender.effects.(stun := Max(defender.effects.stun, 1)),
                                  state := Stunned))
       .Emit(Event(w.next.turn, StatusApplied, defender.id, actor.id, NoAction, zone, chance, true, StunLanded))
  }

  function NextRung(s: State): State {
    match s
    case Neutral => Clinch
    case Clinch => Ground
    case Ground => Dominant
    case Dominant => SubmissionAttempt
    case _ => s
  }

  /** A stunned fighter keeps showing as stunned when the combat state moves. */
  function Posed(f: Fighter, s: State): Fighter { if f.state == Stunned then f else f.(state := s) }

  function Climb(w: Work, a: Slot): (r: Work)
    ensures r.rolls == w.rolls
    ensures Extends(w, r, {StateChanged})
  {
    var from, to := w.next.combat, NextRung(w.next.combat);
    if from == to then w
    else
      w.(next := w.next.(combat := to, p1 := Posed(w.next.p1, to), p2 := Posed(w.next.p2, to)))
       .Emit(Event(w.next.turn, StateChanged, w.next.Get(a).id, w.next.Get(a.Other()).id, NoAction, Head, 0, true,
                   Transition(from, to)))
  }

  function Submit(w: Work, a: Slot, roll: nat): (r: Work)
    ensures r.rolls == w.rolls || r.rolls == w.rolls + [roll]
    ensures Extends(w, r, {MatchFinished})
  {
    if w.next.combat != SubmissionAttempt || w.next.outcome.finished then w
    else
      var actor, defender := w.next.Get(a), w.next.Get(a.Other());
      var chance := SubmissionChance(actor, defender);
      if chance <= roll then w.Drawn(roll)
      else
        w.Drawn(roll)
         .(next := w.next.(outcome := Outcome(true, actor.id, Submission)))
         .Emit(Event(w.next.turn, MatchFinished, actor.id, defender.id, NoAction, Head, chance, true, BySubmission))
  }

  function KnockOut(w: Work, a: Slot): (r: Work)
    ensures r.rolls == w.rolls
    ensures Extends(w, r, {MatchFinished})
  {
    var actor, defender := w.next.Get(a), w.next.Get(a.Other());
    if defender.hp != 0 then w
    else
      w.(next := w.next.(outcome := Outcome(true, actor.id, KO)))
       .Emit(Event(w.next.turn, MatchFinished, actor.id, defender.id, NoAction, Head, 0, true, ByKo))
  }

  function Escape(w: Work, a: Slot): (r: Work)
    ensures r.rolls == w.rolls
    ensures Extends(w, r, {StateChanged})
  {
    w.(next := w.next.(combat := Neutral, p1 := Posed(w.next.p1, Neutral), p2 := Posed(w.next.p2, Neutral)))
     .Emit(Event(w.next.turn, StateChanged, w.next.Get(a).id, [], NoAction, Head, 0, true, BreakToNeutral))
  }

  function Land(w: Work, a: Slot, action: Action, zone: Zone, momentumBefore: int, combo: bool,
                stunRoll: nat, submissionRoll: nat): Work
  {
    var struck := ZoneEffect(Damage(w, a, action, zone, momentumBefore, combo), a, zone);
    var stunned := StunRoll(struck, a, zone, stunRoll);
    KnockOut(if action == Grapple then Submit(Climb(stunned, a), a, submissionRoll) else stunned, a)
  }

  function Succeed(w: Work, a: Slot, action: Action, zone: Zone, stunRoll: nat, submissionRoll: nat): Work {
    var combo := InCombo(w, a, action);
    var inspired := Inspire(w, a, action, combo);
    match action
    case Feint => inspired.With(a, inspired.next.Get(a).(lastHit := w.next.turn))
    case Break => Escape(inspired, a)
    case _ =>
      if IsHit(action) then
        Land(inspired, a, action, zone, w.next.Get(a).momentum, combo, stunRoll, submissionRoll)
      else inspired
  }

  /** What the loop body of `ResolveTurn` does for one fighter. */
  function Act(w: Work, a: Slot, input: TurnInput, ctx: Context, r0: nat, r1: nat, r2: nat): Work {
    var actor := w.next.Get(a);
    var action, zone := NormalizeAction(input.action), Order.NormalizeZone(input.target);
    if w.next.outcome.finished then w
    else if ctx.stunned then SkipStunned(w, a)
    else if actor.stamina < StaminaCost(action, actor.stats.endurance) then Starve(w, a, action, zone)
    else if action == NoAction then Idle(w, a)
    else
      var tried := Attempt(w, a, action, zone, ctx, r0);
      if tried.next.Get(a).lastSuccess then Succeed(tried, a, action, zone, r1, r2) else tried
  }

  // ---------- end of the turn ----------

  function RegenOf(f: Fighter, ctx: Context): int {
    var full := Regen(f.stats.endurance);
    Max(0, if ctx.torso then TruncDiv(full * 80, 100) else full)
  }

  function Rest(w: Work, a: Slot, ctx: Context): (r: Work)
    ensures r.rolls == w.rolls
    ensures Extends(w, r, {StaminaRestored})
  {
    var f := w.next.Get(a);
    var rested := Clamp(f.stamina + RegenOf(f, ctx), 0, STAMINA_MAX);
    w.With(a, f.(stamina := rested))
     .Emit(Event(w.next.turn, StaminaRestored, f.id, [], NoAction, Head, rested - f.stamina, true, TurnRegen))
  }

  function Recovered(f: Fighter, combat: State): Fighter {
    if f.state == Stunned && f.effects.stun == 0 then f.(state := combat) else f
  }

  function Close(w: Work, ctx1: Context, ctx2: Context): (r: Work)
    ensures r.rolls == w.rolls
    ensures Extends(w, r, {StaminaRestored})
  {
    var rested := Rest(Rest(w, P1, ctx1), P2, ctx2);
    var n := rested.next;
    rested.(next := n.(p1 := Recovered(n.p1, n.combat), p2 := Recovered(n.p2, n.combat)))
  }

  function Contexts(s: MatchState, a: Slot, opponent: TurnInput): Context {
    ContextOf(s.Get(a), opponent.action)
  }

  /** The work after the leading fighter has acted. */
  function Opening(s: MatchState, ordered: seq<TurnInput>, tape: Tape): Work
    requires |ordered| == 2
  {
    var a := s.SlotOf(ordered[0].player);
    Act(Begin(s), a, ordered[0], Contexts(s, a, ordered[1]), tape[0], tape[1], tape[2])
  }

  /** The work after both have acted; the second fighter's rolls follow the first one's on the tape. */
  function Exchange(s: MatchState, ordered: seq<TurnInput>, tape: Tape): Work
    requires |ordered| == 2
  {
    var a := s.SlotOf(ordered[0].player).Other();
    var w := Opening(s, ordered, tape);
    OpeningDraws(s, ordered, tape);
    var k := |w.rolls|;
    Act(w, a, ordered[1], Contexts(s, a, ordered[0]), tape[k], tape[k + 1], tape[k + 2])
  }

  /** A whole turn: the event log, the rolls drawn and the next state (its generator snapshot is set elsewhere). */
  function Play(s: MatchState, ordered: seq<TurnInput>, tape: Tape): Work
    requires |ordered| == 2
  {
    var a := s.SlotOf(ordered[0].player);
    var c0, c1 := Contexts(s, a, ordered[1]), Contexts(s, a.Other(), ordered[0]);
    Close(Exchange(s, ordered, tape), if a == P1 then c0 else c1, if a == P1 then c1 else c0)
  }

  // ---------- roll accounting ----------

  lemma LandDraws(w: Work, a: Slot, action: Action, zone: Zone, momentumBefore: int, combo: bool, r1: nat, r2: nat)
    ensures var rolls := Land(w, a, action, zone, momentumBefore, combo, r1, r2).rolls;
            rolls == w.rolls + [r1] || rolls == w.rolls + [r1, r2]
  {
    hide Damage, ZoneEffect, StunRoll, Climb, Submit, KnockOut;
    assert w.rolls + [r1] + [r2] == w.rolls + [r1, r2];
  }

  /** Each action consumes its rolls from the front: none, one, two or three of them. */
  lemma ActDraws(w: Work, a: Slot, input: TurnInput, ctx: Context, r0: nat, r1: nat, r2: nat)
    ensures var rolls := Act(w, a, input, ctx, r0, r1, r2).rolls;
            rolls == w.rolls || rolls == w.rolls + [r0] || rolls == w.rolls + [r0, r1]
            || rolls == w.rolls + [r0, r1, r2]
  {
    hide Land, SkipStunned, Starve, Idle, Attempt, Inspire, Escape, StaminaCost, InCombo;
    var zone := Order.NormalizeZone(input.target);
    var action := NormalizeAction(input.action);
    var tried := Attempt(w, a, action, zone, ctx, r0);
    var combo := InCombo(tried, a, action);
    LandDraws(Inspire(tried, a, action, combo), a, action, zone, tried.next.Get(a).momentum, combo, r1, r2);
    assert w.rolls + [r0] + [r1] == w.rolls + [r0, r1];
    assert w.rolls + [r0] + [r1, r2] == w.rolls + [r0, r1, r2];
  }

  lemma OpeningDraws(s: MatchState, ordered: seq<TurnInput>, tape: Tape)
    requires |ordered| == 2
    ensures |Opening(s, ordered, tape).rolls| <= 3
    ensures Opening(s, ordered, tape).rolls == tape[..|Opening(s, ordered, tape).rolls|]
  {
    hide Act;
    var a := s.SlotOf(ordered[0].player);
    ActDraws(Begin(s), a, ordered[0], Contexts(s, a, ordered[1]), tape[0], tape[1], tape[2]);
  }

  /** A turn draws at most six times and consumes exactly a prefix of the random source's output. */
  lemma PlayDraws(s: MatchState, ordered: seq<TurnInput>, tape: Tape)
    requires |ordered| == 2
    ensures var rolls := Play(s, ordered, tape).rolls; |rolls| <= 6 && rolls == tape[..|rolls|]
  {
    hide Act, Close, Begin;
    OpeningDraws(s, ordered, tape);
    var a := s.SlotOf(ordered[0].player).Other();
    var w := Opening(s, ordered, tape);
    var k := |w.rolls|;
    ActDraws(w, a, ordered[1], Contexts(s, a, ordered[0]), tape[k], tape[k + 1], tape[k + 2]);
  }
}
