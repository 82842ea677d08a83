/**
 The rules of a turn in numbers, as they come out between archetype fighters. What a turn logs is worked out here from
 the start of the turn, the two inputs and the rolls, entry by entry, without any of the resolver's own steps; module
 Matches shows that every turn of every match logs exactly that, and module EventLog that the log determines the
 state.
 */
module Rulebook {
  import opened CombatTypes

  // ---------- a new match ----------

  function Attributes(a: Archetype): Stats {
    match a
    case Powerhouse => Stats(9, 4, 4, 8)
    case Technician => Stats(5, 9, 5, 6)
    case HighFlyer => Stats(4, 6, 9, 5)
    case _ => Stats(6, 6, 6, 6)
  }

  /** Full of health and stamina, without momentum, and on its feet. */
  predicate Rested(f: Fighter) {
    && !f.archetype.OtherArchetype? && f.stats == Attributes(f.archetype)
    && f.hp == 100 && f.stamina == 100 && f.momentum == 0 && f.state == Neutral
    && f.effects == Effects(0, 0, 0) && f.lastAction == NoAction && !f.lastSuccess && f.lastHit == 0
  }

  // ---------- prices, chances and damage ----------

  function Price(action: Action, endurance: int): int {
    var base := match action
                case Strike => 10
                case Grapple => 14
                case Block => 6
                case Dodge => 8
                case Counter => 12
                case Feint => 9
                case Break => 10
                case _ => 0;
    base * (100 - 3 * endurance) / 100
  }

  function Skill(action: Action, stats: Stats): int {
    match action
    case Strike => stats.power
    case Break => stats.power
    case Dodge => stats.agility
    case Feint => stats.agility
    case _ => stats.technique
  }

  /** What stands against an action; the leg cut on a dodge is the attacker's own. */
  function Guard(action: Action, stats: Stats, answer: Action, hurt: bool): int {
    match answer
    case Block => stats.technique + 1
    case Dodge => if hurt then stats.agility * 80 / 100 else stats.agility
    case _ =>
      match action
      case Strike => stats.agility
      case Break => stats.power
      case Block => 1
      case Dodge => 1
      case _ => stats.technique
  }

  /** The chance of an attempt in ten-thousandths; `stamina` is what is left once it is paid. */
  function SuccessOdds(action: Action, actor: Fighter, stamina: int, stats: Stats, answer: Action, hurt: bool): int {
    var plain := 5000 + 300 * Skill(action, actor.stats) - 200 * Guard(action, stats, answer, hurt)
                 + 15 * actor.momentum - if stamina < 20 then 1500 else 0;
    if action == Dodge && hurt then plain * 80 / 100 else plain
  }

  function Harm(action: Action, stats: Stats, momentum: int, combo: bool): int {
    var base := match action
                case Strike => 12 + stats.power
                case Grapple => 10 + stats.technique
                case _ => 8 + stats.technique;
    var raised := base * (100 + momentum) / 100;
    if combo then raised * 110 / 100 else raised
  }

  function AtMost(n: int, limit: int): int { if n > limit then limit else n }

  function Encouraged(momentum: int, combo: bool): int { AtMost(momentum + if combo then 13 else 8, 50) }

  function Lowered(momentum: int): int { if momentum < 6 then 0 else momentum - 6 }

  /** The chance that a blow stuns, from the momentum lead that the blow leaves. */
  function StunOdds(zone: Zone, stamina: int, lead: int): int {
    var odds := 1000 + (if zone == Head then 1000 else 0) + (if stamina < 20 then 500 else 0) + 50 * lead;
    if odds < 0 then 0 else odds
  }

  function SubmissionOdds(mine: Stats, theirs: Stats, lead: int, stamina: int): int {
    var odds := 3000 + 300 * (mine.technique - theirs.technique) + 20 * lead + if stamina < 20 then 500 else 0;
    if odds < 1000 then 1000 else odds
  }

  // ---------- an action ----------

  predicate Offensive(action: Action) { action in {Strike, Grapple, Counter, Feint} }

  predicate Blow(action: Action) { action in {Strike, Grapple, Counter} }

  function Declared(action: Action): Action { if action.OtherAction? then NoAction else action }

  function Aim(zone: Zone): Zone { if zone.OtherZone? then Torso else zone }

  /** One rung up the ladder. */
  function Above(s: State): State {
    match s
    case Neutral => Clinch
    case Clinch => Ground
    case Ground => Dominant
    case _ => SubmissionAttempt
  }

  function Entry(m: MatchState, kind: EventKind, me: Fighter, at: Id, action: Action, zone: Zone, value: int,
                 detail: Detail): Event
  {
    Event(m.turn, kind, me.id, at, action, zone, value, true, detail)
  }

  function ZoneLog(m: MatchState, hit: Fighter, zone: Zone): seq<Event> {
    match zone
    case Torso => [Entry(m, StatusApplied, hit, [], NoAction, Torso, 0, TorsoPenalty)]
    case Legs => [Entry(m, StatusApplied, hit, [], NoAction, Legs, 0, LegsPenalty)]
    case _ => []
  }

  function StunLog(m: MatchState, me: Fighter, hit: Fighter, zone: Zone, lead: int, roll: nat): seq<Event> {
    var odds := StunOdds(zone, hit.stamina, lead);
    if roll < odds then [Entry(m, StatusApplied, hit, me.id, NoAction, zone, odds, StunLanded)] else []
  }

  function ClimbLog(m: MatchState, me: Fighter, hit: Fighter): seq<Event> {
    if m.combat == SubmissionAttempt then []
    else [Entry(m, StateChanged, me, hit.id, NoAction, Head, 0, Transition(m.combat, Above(m.combat)))]
  }

  function SubmissionLog(m: MatchState, me: Fighter, hit: Fighter, lead: int, roll: nat): seq<Event> {
    var odds := SubmissionOdds(me.stats, hit.stats, lead, hit.stamina);
    if Above(m.combat) == SubmissionAttempt && roll < odds
    then [Entry(m, MatchFinished, me, hit.id, NoAction, Head, odds, BySubmission)]
    else []
  }

  /** A blow that lands, from the state before the action. */
  function BlowLog(m: MatchState, f: Slot, action: Action, zone: Zone, combo: bool, r1: nat, r2: nat): seq<Event> {
    var me, hit := m.Get(f), m.Get(f.Other());
    var harm := Harm(action, me.stats, me.momentum, combo);
    var lead := Encouraged(me.momentum, combo) - Lowered(hit.momentum);
    [Entry(m, DamageApplied, me, hit.id, action, zone, harm, DamageDealt)]
    + ZoneLog(m, hit, zone)
    + StunLog(m, me, hit, zone, lead, r1)
    + (if action == Grapple then ClimbLog(m, me, hit) + SubmissionLog(m, me, hit, lead, r2) else [])
    + if hit.hp <= harm then [Entry(m, MatchFinished, me, hit.id, NoAction, Head, 0, ByKo)] else []
  }

  /** A success: a combo when the fighter's last hit was the turn before and more than 30 stamina is left. */
  function SuccessLog(m: MatchState, f: Slot, action: Action, zone: Zone, stamina: int, r1: nat, r2: nat): seq<Event> {
    var me := m.Get(f);
    var combo := Offensive(action) && me.lastHit == m.turn - 1 && stamina > 30;
    (if combo then [Entry(m, StatusApplied, me, [], action, Head, 0, ComboActive)] else [])
    + if Blow(action) then BlowLog(m, f, action, zone, combo, r1, r2)
      else if action == Break then [Entry(m, StateChanged, me, [], NoAction, Head, 0, BreakToNeutral)]
      else []
  }

  /** A fighter's action: `s` is the start of the turn, `m` the state it acts in. */
  function ActionLog(s: MatchState, m: MatchState, f: Slot, input: TurnInput, answer: Action, r0: nat, r1: nat, r2: nat)
    : seq<Event>
  {
    var me, hit := m.Get(f), m.Get(f.Other());
    var action, zone := Declared(input.action), Aim(input.target);
    var left := me.stamina - Price(action, me.stats.endurance);
    var chance := SuccessOdds(action, me, left, hit.stats, answer, s.Get(f).effects.legs > 0);
    if m.outcome.finished then []
    else if s.Get(f).effects.stun > 0 then
      [Event(m.turn, StatusApplied, me.id, [], NoAction, Head, 0, false, StunnedSkip)]
    else if left < 0 then
      [Event(m.turn, ActionResolved, me.id, hit.id, action, zone, 0, false, InsufficientStamina)]
    else if action == NoAction then []
    else
      [Event(m.turn, ActionResolved, me.id, hit.id, action, zone, chance, r0 < chance, ChanceRoll)]
      + if r0 < chance then SuccessLog(m, f, action, zone, left, r1, r2) else []
  }

  /** The number of rolls an action draws. */
  function Draws(s: MatchState, m: MatchState, f: Slot, input: TurnInput, answer: Action, r0: nat): (n: nat)
    ensures n <= 3
  {
    var me, hit, action := m.Get(f), m.Get(f.Other()), Declared(input.action);
    var left := me.stamina - Price(action, me.stats.endurance);
    if m.outcome.finished || s.Get(f).effects.stun > 0 || left < 0 || action == NoAction then 0
    else if SuccessOdds(action, me, left, hit.stats, answer, s.Get(f).effects.legs > 0) <= r0 || !Blow(action) then 1
    else if action == Grapple && Above(m.combat) == SubmissionAttempt then 3
    else 2
  }

  /** What a fighter gets back at the end of a turn that began with or without a torso penalty. */
  function GivenBack(f: Fighter, cut: bool): int {
    var full := (50 + 8 * f.stats.endurance) / 10;
    AtMost(f.stamina + (if cut then full * 80 / 100 else full), 100) - f.stamina
  }

  // ---------- a turn ----------

  function Opener(m: MatchState): Event { Event(m.turn, TurnStarted, [], [], NoAction, Head, 0, false, TurnBegin) }

  function RestLog(s: MatchState, m: MatchState, f: Slot): Event {
    Entry(m, StaminaRestored, m.Get(f), [], NoAction, Head, GivenBack(m.Get(f), s.Get(f).effects.torso > 0), TurnRegen)
  }
}
