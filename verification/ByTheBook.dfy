/** Every action of a match between archetype fighters goes by the rulebook: its log and its draws are the ones worked
    out there. */
module ByTheBook {
  import opened CombatTypes
  import opened Rules
  import opened Turn
  import opened Order
  import opened EventLog
  import opened Invariant
  import opened Ledger
  import opened Shape
  import Odds
  import B = Rulebook

  lemma NamesAgree(input: TurnInput)
    ensures B.Declared(input.action) == NormalizeAction(input.action)
    ensures B.Aim(input.target) == NormalizeZone(input.target)
  {
  }

  lemma SetsAgree(action: Action)
    ensures B.Offensive(action) == IsOffensive(action) && B.Blow(action) == IsHit(action)
  {
  }

  lemma RungsAgree(s: State)
    requires s != Stunned
    ensures NextRung(s) == B.Above(s)
  {
  }

  lemma PriceAgrees(action: Action, endurance: int)
    requires 5 <= endurance <= 8
    ensures StaminaCost(action, endurance) == B.Price(action, endurance)
  {
  }

  /** Archetype fighters have attributes from 4 to 9, and an endurance from 5 to 8. */
  lemma StatRanges(f: Fighter)
    requires Odds.Ready(f)
    ensures 4 <= f.stats.power <= 9 && 4 <= f.stats.technique <= 9 && 4 <= f.stats.agility <= 9
    ensures 5 <= f.stats.endurance <= 8
  {
  }

  lemma GuardAgrees(action: Action, defender: Fighter, answer: Action, hurt: bool)
    requires Odds.Ready(defender) && Odds.Real(action)
    ensures Defense(action, defender, answer, hurt) == B.Guard(action, defender.stats, answer, hurt)
  {
    StatRanges(defender);
  }

  lemma ChanceAgrees(actor: Fighter, defender: Fighter, action: Action, ctx: Context)
    requires Odds.Ready(actor) && Odds.Ready(defender) && Odds.Real(action)
    ensures Chance(actor, defender, action, ctx)
         == B.SuccessOdds(action, actor, actor.stamina, defender.stats, ctx.opponent, ctx.legs)
  {
    GuardAgrees(action, defender, ctx.opponent, ctx.legs);
    Odds.ChanceIsNeverCapped(actor, defender, action, ctx);
    hide Defense, B.Guard, Chance;
  }

  lemma HarmAgrees(action: Action, actor: Fighter, momentum: int, combo: bool)
    requires Odds.Ready(actor) && IsHit(action) && 0 <= momentum <= 50
    ensures DamageFinal(BaseDamage(action, actor.stats), momentum, combo)
         == B.Harm(action, actor.stats, momentum, combo)
    ensures 12 <= B.Harm(action, actor.stats, momentum, combo) <= 34
  {
    StatRanges(actor);
    DamageBounds(BaseDamage(action, actor.stats), momentum, 50, combo);
  }

  lemma StunAgrees(zone: Zone, stamina: int, lead: int)
    requires -50 <= lead <= 50
    ensures StunChance(zone, stamina, lead) == B.StunOdds(zone, stamina, lead)
  {
  }

  lemma SubmissionAgrees(attacker: Fighter, defender: Fighter)
    requires Odds.Ready(attacker) && Odds.Ready(defender)
    ensures SubmissionChance(attacker, defender)
         == B.SubmissionOdds(attacker.stats, defender.stats, attacker.momentum - defender.momentum, defender.stamina)
  {
    StatRanges(attacker);
    StatRanges(defender);
  }

  lemma RegenAgrees(f: Fighter, ctx: Context)
    requires Odds.Ready(f) && 0 <= f.stamina <= STAMINA_MAX
    ensures Clamp(f.stamina + RegenOf(f, ctx), 0, STAMINA_MAX) - f.stamina == B.GivenBack(f, ctx.torso)
  {
    StatRanges(f);
  }

  /** A match is new exactly when both fighters are rested, on their feet at distance 1 before turn 1. */
  lemma NewMatchesAgree(m: MatchState)
    ensures IsFresh(m) <==>
              && ProperIds(m) && B.Rested(m.p1) && B.Rested(m.p2)
              && m.turn == 0 && m.combat == Neutral && m.distance == 1 && m.outcome == Outcome(false, [], NoMethod)
  {
  }

  // ---------- a blow ----------

  /** Two archetype fighters in an open match. */
  predicate Fighting(m: MatchState) {
    && Odds.Ready(m.p1) && Odds.Ready(m.p2) && 0 <= m.p1.hp <= HP_MAX && 0 <= m.p2.hp <= HP_MAX
    && m.combat != Stunned && m.distance == 1 && !m.outcome.finished
  }

  /** The state that a successful action has brought about before its blow: the fighter is lifted, all else is as it
      was. */
  predicate Heartened(m: MatchState, v: MatchState, a: Slot, combo: bool) {
    var f, g, d, e := m.Get(a), v.Get(a), m.Get(a.Other()), v.Get(a.Other());
    && v.turn == m.turn && v.combat == m.combat && v.outcome == m.outcome
    && g.id == f.id && g.stats == f.stats && g.archetype == f.archetype && g.momentum == B.Encouraged(f.momentum, combo)
    && e == d
  }

  /** The same after the blow. */
  predicate Struck(m: MatchState, v: MatchState, a: Slot, action: Action, combo: bool) {
    var f, g, d, e := m.Get(a), v.Get(a), m.Get(a.Other()), v.Get(a.Other());
    && v.turn == m.turn && v.combat == m.combat && v.outcome == m.outcome
    && g.id == f.id && g.stats == f.stats && g.archetype == f.archetype && g.momentum == B.Encouraged(f.momentum, combo)
    && e.id == d.id && e.stats == d.stats && e.archetype == d.archetype && e.stamina == d.stamina
    && e.momentum == B.Lowered(d.momentum)
    && (e.hp == 0 <==> d.hp <= B.Harm(action, f.stats, f.momentum, combo))
  }

  lemma DamageFollows(m: MatchState, w: Work, a: Slot, action: Action, zone: Zone, combo: bool)
    requires Fighting(m) && Heartened(m, w.next, a, combo) && IsHit(action)
    ensures var v, f, d := Damage(w, a, action, zone, m.Get(a).momentum, combo), m.Get(a), m.Get(a.Other());
            && Struck(m, v.next, a, action, combo)
            && v.events == w.events + [B.Entry(m, DamageApplied, f, d.id, action, zone,
                                               B.Harm(action, f.stats, f.momentum, combo), DamageDealt)]
  {
    HarmAgrees(action, w.next.Get(a), m.Get(a).momentum, combo);
    hide DamageFinal, BaseDamage, B.Harm;
  }

  lemma ZoneFollows(m: MatchState, w: Work, a: Slot, action: Action, zone: Zone, combo: bool)
    requires Struck(m, w.next, a, action, combo) && !zone.OtherZone?
    ensures var v := ZoneEffect(w, a, zone);
            && Struck(m, v.next, a, action, combo)
            && v.events == w.events + B.ZoneLog(m, m.Get(a.Other()), zone)
  {
    hide B.Harm, B.Encouraged, B.Lowered;
  }

  lemma StunFollows(m: MatchState, w: Work, a: Slot, action: Action, zone: Zone, combo: bool, roll: nat)
    requires Fighting(m) && Struck(m, w.next, a, action, combo)
    ensures var v, d := StunRoll(w, a, zone, roll), m.Get(a.Other());
            var lead := B.Encouraged(m.Get(a).momentum, combo) - B.Lowered(d.momentum);
            && Struck(m, v.next, a, action, combo)
            && v.events == w.events + B.StunLog(m, m.Get(a), d, zone, lead, roll)
  {
    StunAgrees(zone, m.Get(a.Other()).stamina, w.next.Get(a).momentum - w.next.Get(a.Other()).momentum);
    hide StunChance, B.StunOdds, B.Harm, B.Encouraged, B.Lowered;
  }

  lemma ClimbFollows(m: MatchState, w: Work, a: Slot, action: Action, combo: bool)
    requires Fighting(m) && Struck(m, w.next, a, action, combo)
    ensures var v := Climb(w, a);
            && v.next.combat == B.Above(m.combat) && Struck(m, v.next.(combat := m.combat), a, action, combo)
            && v.events == w.events + B.ClimbLog(m, m.Get(a), m.Get(a.Other()))
  {
    RungsAgree(m.combat);
    hide B.Harm, B.Encouraged, B.Lowered;
  }

  lemma SubmitFollows(m: MatchState, w: Work, a: Slot, action: Action, combo: bool, roll: nat)
    requires Fighting(m) && w.next.combat == B.Above(m.combat)
    requires Struck(m, w.next.(combat := m.combat), a, action, combo)
    ensures var v, d := Submit(w, a, roll), m.Get(a.Other());
            var lead := B.Encouraged(m.Get(a).momentum, combo) - B.Lowered(d.momentum);
            && v.next.turn == m.turn && v.next.Get(a) == w.next.Get(a) && v.next.Get(a.Other()) == w.next.Get(a.Other())
            && v.events == w.events + B.SubmissionLog(m, m.Get(a), d, lead, roll)
            && v.rolls == w.rolls + if B.Above(m.combat) == SubmissionAttempt then [roll] else []
  {
    SubmissionAgrees(w.next.Get(a), w.next.Get(a.Other()));
    hide SubmissionChance, B.SubmissionOdds, B.Harm;
  }

  lemma KnockOutFollows(w: Work, m: MatchState, a: Slot)
    requires w.next.turn == m.turn && w.next.Get(a).id == m.Get(a).id
    requires w.next.Get(a.Other()).id == m.Get(a.Other()).id
    ensures KnockOut(w, a).events ==
            w.events + if w.next.Get(a.Other()).hp == 0
                       then [B.Entry(m, MatchFinished, m.Get(a), m.Get(a.Other()).id, NoAction, Head, 0, ByKo)] else []
  {
  }

  /** The part of a blow that every hit has. */
  function Stunning(w: Work, a: Slot, action: Action, zone: Zone, before: int, combo: bool, r1: nat): Work {
    StunRoll(ZoneEffect(Damage(w, a, action, zone, before, combo), a, zone), a, zone, r1)
  }

  function HitLog(m: MatchState, a: Slot, action: Action, zone: Zone, combo: bool, r1: nat): seq<Event> {
    var f, d := m.Get(a), m.Get(a.Other());
    [B.Entry(m, DamageApplied, f, d.id, action, zone, B.Harm(action, f.stats, f.momentum, combo), DamageDealt)]
    + B.ZoneLog(m, d, zone)
    + B.StunLog(m, f, d, zone, B.Encouraged(f.momentum, combo) - B.Lowered(d.momentum), r1)
  }

  lemma HitFollows(m: MatchState, w: Work, a: Slot, action: Action, zone: Zone, combo: bool, r1: nat)
    requires Fighting(m) && Heartened(m, w.next, a, combo) && IsHit(action) && !zone.OtherZone?
    ensures var v := Stunning(w, a, action, zone, m.Get(a).momentum, combo, r1);
            && Struck(m, v.next, a, action, combo)
            && v.events == w.events + HitLog(m, a, action, zone, combo, r1) && v.rolls == w.rolls + [r1]
  {
    hide Damage, ZoneEffect, StunRoll, Fighting, Struck, Heartened, B.Harm, B.Encouraged, B.Lowered, B.ZoneLog,
      B.StunLog, B.Entry;
    DamageFollows(m, w, a, action, zone, combo);
    var hurt := Damage(w, a, action, zone, m.Get(a).momentum, combo);
    ZoneFollows(m, hurt, a, action, zone, combo);
    StunFollows(m, ZoneEffect(hurt, a, zone), a, action, zone, combo, r1);
  }

  /** A landed blow logs and draws what the book says. */
  lemma BlowFollows(m: MatchState, w: Work, a: Slot, action: Action, zone: Zone, combo: bool, r1: nat, r2: nat)
    requires Fighting(m) && Heartened(m, w.next, a, combo) && IsHit(action) && !zone.OtherZone?
    ensures var v := Land(w, a, action, zone, m.Get(a).momentum, combo, r1, r2);
            && v.events == w.events + B.BlowLog(m, a, action, zone, combo, r1, r2)
            && v.rolls == w.rolls + [r1]
               + if action == Grapple && B.Above(m.combat) == SubmissionAttempt then [r2] else []
  {
    hide Damage, ZoneEffect, StunRoll, Climb, Submit, KnockOut, Fighting, Heartened, B.Harm, B.Encouraged, B.Lowered,
      B.ZoneLog, B.StunLog, B.ClimbLog, B.SubmissionLog, B.Above, B.Entry;
    HitFollows(m, w, a, action, zone, combo, r1);
    var stunned := Stunning(w, a, action, zone, m.Get(a).momentum, combo, r1);
    if action == Grapple {
      ClimbFollows(m, stunned, a, action, combo);
      var climbed := Climb(stunned, a);
      SubmitFollows(m, climbed, a, action, combo, r2);
      KnockOutFollows(Submit(climbed, a, r2), m, a);
    } else {
      KnockOutFollows(stunned, m, a);
    }
  }

  // ---------- an action ----------

  /** A fighter that has paid, in a state that is otherwise as it was. */
  predicate PaidFor(m: MatchState, v: MatchState, a: Slot, left: int) {
    var f, g := m.Get(a), v.Get(a);
    && v.turn == m.turn && v.combat == m.combat && v.outcome == m.outcome && v.Get(a.Other()) == m.Get(a.Other())
    && g.id == f.id && g.stats == f.stats && g.archetype == f.archetype && g.momentum == f.momentum
    && g.lastHit == f.lastHit && g.stamina == left
  }

  lemma InspireFollows(m: MatchState, w: Work, a: Slot, action: Action, left: int)
    requires Fighting(m) && PaidFor(m, w.next, a, left)
    ensures InCombo(w, a, action) == (B.Offensive(action) && m.Get(a).lastHit == m.turn - 1 && left > 30)
    ensures var combo := InCombo(w, a, action);
            var v := Inspire(w, a, action, combo);
            && Heartened(m, v.next, a, combo)
            && v.events == w.events +
                 if combo then [B.Entry(m, StatusApplied, m.Get(a), [], action, Head, 0, ComboActive)] else []
  {
    SetsAgree(action);
  }

  lemma SuccessFollows(m: MatchState, w: Work, a: Slot, action: Action, zone: Zone, left: int, r1: nat, r2: nat)
    requires Fighting(m) && PaidFor(m, w.next, a, left) && !zone.OtherZone?
    ensures var v := Succeed(w, a, action, zone, r1, r2);
            && v.events == w.events + B.SuccessLog(m, a, action, zone, left, r1, r2)
            && v.rolls == w.rolls + if !B.Blow(action) then []
                                    else if action == Grapple && B.Above(m.combat) == SubmissionAttempt then [r1, r2]
                                    else [r1]
  {
    hide Inspire, Land, Fighting, InCombo, B.BlowLog, B.Above;
    SetsAgree(action);
    InspireFollows(m, w, a, action, left);
    var combo := InCombo(w, a, action);
    var inspired := Inspire(w, a, action, combo);
    if IsHit(action) {
      BlowFollows(m, inspired, a, action, zone, combo, r1, r2);
    }
    hide Heartened, PaidFor, B.Offensive;
  }

  lemma AttemptFacts(w: Work, a: Slot, action: Action, zone: Zone, ctx: Context, roll: nat)
    requires InReach(action, w.next.distance)
    ensures var f, d := w.next.Get(a), w.next.Get(a.Other());
            var chance := Chance(Paid(f, action), d, action, ctx);
            var v := Attempt(w, a, action, zone, ctx, roll);
            && v.next == w.next.Put(a, Paid(f, action).(lastSuccess := roll < chance))
            && v.events == w.events + [Event(w.next.turn, ActionResolved, f.id, d.id, action, zone, chance,
                                             roll < chance, ChanceRoll)]
  {
    hide Chance, StaminaCost, InReach;
  }

  lemma AttemptFollows(m: MatchState, w: Work, a: Slot, action: Action, zone: Zone, ctx: Context, roll: nat)
    requires Fighting(m) && w.next == m && Odds.Real(action)
    ensures StaminaCost(action, m.Get(a).stats.endurance) == B.Price(action, m.Get(a).stats.endurance)
    ensures var f, d := m.Get(a), m.Get(a.Other());
            var left := f.stamina - B.Price(action, f.stats.endurance);
            var chance := B.SuccessOdds(action, f, left, d.stats, ctx.opponent, ctx.legs);
            var v := Attempt(w, a, action, zone, ctx, roll);
            && PaidFor(m, v.next, a, left)
            && (v.next.Get(a).lastSuccess <==> roll < chance)
            && v.events == w.events + [Event(m.turn, ActionResolved, f.id, d.id, action, zone, chance, roll < chance,
                                             ChanceRoll)]
  {
    StatRanges(m.Get(a));
    PriceAgrees(action, m.Get(a).stats.endurance);
    ChanceAgrees(Paid(m.Get(a), action), m.Get(a.Other()), action, ctx);
    Odds.ReachIsNoObstacle(action);
    hide Attempt, Chance, StaminaCost, InReach, B.Price, B.SuccessOdds;
    AttemptFacts(w, a, action, zone, ctx, roll);
  }

  /** A fighter's action logs and draws what the book says. */
  lemma ActFollows(s: MatchState, w: Work, a: Slot, input: TurnInput, answer: TurnInput, r0: nat, r1: nat, r2: nat)
    requires w.next.outcome.finished || Fighting(w.next)
    requires Odds.Ready(w.next.Get(a))
    ensures var v := Act(w, a, input, Contexts(s, a, answer), r0, r1, r2);
            && v.events == w.events + B.ActionLog(s, w.next, a, input, answer.action, r0, r1, r2)
            && v.rolls == w.rolls + [r0, r1, r2][..B.Draws(s, w.next, a, input, answer.action, r0)]
  {
    hide Attempt, Succeed, SkipStunned, Starve, Idle, StaminaCost, B.Price, B.SuccessOdds, B.SuccessLog, B.Above,
      Fighting, B.Blow;
    var m, ctx := w.next, Contexts(s, a, answer);
    var action, zone := NormalizeAction(input.action), NormalizeZone(input.target);
    NamesAgree(input);
    StatRanges(m.Get(a));
    PriceAgrees(action, m.Get(a).stats.endurance);
    QuietLogs(w, a, action, zone);
    if !m.outcome.finished && action != NoAction {
      AttemptFollows(m, w, a, action, zone, ctx, r0);
      var left := m.Get(a).stamina - B.Price(action, m.Get(a).stats.endurance);
      SuccessFollows(m, Attempt(w, a, action, zone, ctx, r0), a, action, zone, left, r1, r2);
    }
  }

  lemma QuietLogs(w: Work, a: Slot, action: Action, zone: Zone)
    ensures SkipStunned(w, a).events ==
            w.events + [Event(w.next.turn, StatusApplied, w.next.Get(a).id, [], NoAction, Head, 0, false, StunnedSkip)]
    ensures Starve(w, a, action, zone).events ==
            w.events + [Event(w.next.turn, ActionResolved, w.next.Get(a).id, w.next.Get(a.Other()).id, action, zone, 0,
                              false, InsufficientStamina)]
    ensures Idle(w, a).events == w.events
  {
  }

  // ---------- a turn ----------

  /** The log of a turn up to and including the first action; the state after it is read off the log. */
  function FirstLog(s: MatchState, pair: seq<TurnInput>, tape: Tape): seq<Event>
    requires |pair| == 2
  {
    var opener := [B.Opener(s.(turn := s.turn + 1))];
    var a, m := s.SlotOf(pair[0].player), Fold(Blank(s), opener);
    opener + B.ActionLog(s, m, a, pair[0], pair[1].action, tape[0], tape[1], tape[2])
  }

  /** The rolls that the first action leaves out begin at this place. */
  function FirstDraws(s: MatchState, pair: seq<TurnInput>, tape: Tape): (n: nat)
    requires |pair| == 2
    ensures n <= 3
  {
    var m := Fold(Blank(s), [B.Opener(s.(turn := s.turn + 1))]);
    B.Draws(s, m, s.SlotOf(pair[0].player), pair[0], pair[1].action, tape[0])
  }

  function BothLog(s: MatchState, pair: seq<TurnInput>, tape: Tape): seq<Event>
    requires |pair| == 2
  {
    var first, k := FirstLog(s, pair, tape), FirstDraws(s, pair, tape);
    first + B.ActionLog(s, Fold(Blank(s), first), s.SlotOf(pair[0].player).Other(), pair[1], pair[0].action,
                        tape[k], tape[k + 1], tape[k + 2])
  }

  /** The rolls that a turn draws. */
  function BothDraws(s: MatchState, pair: seq<TurnInput>, tape: Tape): (n: nat)
    requires |pair| == 2
    ensures n <= 6
  {
    var first, k := FirstLog(s, pair, tape), FirstDraws(s, pair, tape);
    k + B.Draws(s, Fold(Blank(s), first), s.SlotOf(pair[0].player).Other(), pair[1], pair[0].action, tape[k])
  }

  /** The whole log of a turn, worked out from the start of the turn, the canonical inputs and the rolls. */
  function BookLog(s: MatchState, pair: seq<TurnInput>, tape: Tape): seq<Event>
    requires |pair| == 2
  {
    var both := BothLog(s, pair, tape);
    var m := Fold(Blank(s), both);
    both + [B.RestLog(s, m, P1), B.RestLog(s, m, P2)]
  }

  lemma BlankBlow(m: MatchState, f: Slot, action: Action, zone: Zone, combo: bool, r1: nat, r2: nat)
    ensures B.BlowLog(Blank(m), f, action, zone, combo, r1, r2) == B.BlowLog(m, f, action, zone, combo, r1, r2)
  {
    hide B.Harm, B.Encouraged, B.Lowered, B.StunOdds, B.SubmissionOdds, B.Above;
  }

  lemma BlankSuccess(m: MatchState, f: Slot, action: Action, zone: Zone, left: int, r1: nat, r2: nat)
    ensures B.SuccessLog(Blank(m), f, action, zone, left, r1, r2) == B.SuccessLog(m, f, action, zone, left, r1, r2)
  {
    hide B.BlowLog, B.Offensive, B.Blow;
    BlankBlow(m, f, action, zone, true, r1, r2);
    BlankBlow(m, f, action, zone, false, r1, r2);
  }

  lemma BlankChance(m: MatchState, f: Slot, action: Action, left: int, answer: Action, hurt: bool)
    ensures B.SuccessOdds(action, Blank(m).Get(f), left, m.Get(f.Other()).stats, answer, hurt)
         == B.SuccessOdds(action, m.Get(f), left, m.Get(f.Other()).stats, answer, hurt)
  {
    hide B.Guard;
  }

  /** The parts of a state that the book reads. */
  lemma BlankKeepsFigures(m: MatchState, f: Slot)
    ensures var v, g, h := Blank(m), m.Get(f), Blank(m).Get(f);
            && v.turn == m.turn && v.outcome == m.outcome && v.combat == m.combat
            && h.id == g.id && h.stats == g.stats && h.stamina == g.stamina && h.momentum == g.momentum
  {
  }

  lemma BlankActs(s: MatchState, m: MatchState, f: Slot, input: TurnInput, answer: Action, r0: nat, r1: nat, r2: nat)
    ensures B.ActionLog(s, Blank(m), f, input, answer, r0, r1, r2) == B.ActionLog(s, m, f, input, answer, r0, r1, r2)
  {
    hide B.Price, B.SuccessOdds, B.SuccessLog, Blank, B.Declared, B.Aim;
    BlankKeepsFigures(m, f);
    BlankKeepsFigures(m, f.Other());
    var left := m.Get(f).stamina - B.Price(B.Declared(input.action), m.Get(f).stats.endurance);
    BlankChance(m, f, B.Declared(input.action), left, answer, s.Get(f).effects.legs > 0);
    BlankSuccess(m, f, B.Declared(input.action), B.Aim(input.target), left, r1, r2);
  }

  lemma BlankDraws(s: MatchState, m: MatchState, f: Slot, input: TurnInput, answer: Action, r0: nat)
    ensures B.Draws(s, Blank(m), f, input, answer, r0) == B.Draws(s, m, f, input, answer, r0)
  {
    hide B.Price, B.SuccessOdds, Blank, B.Declared, B.Blow, B.Above;
    BlankKeepsFigures(m, f);
    BlankKeepsFigures(m, f.Other());
    var left := m.Get(f).stamina - B.Price(B.Declared(input.action), m.Get(f).stats.endurance);
    BlankChance(m, f, B.Declared(input.action), left, answer, s.Get(f).effects.legs > 0);
  }

  lemma BlankRests(s: MatchState, m: MatchState, f: Slot)
    ensures B.RestLog(s, Blank(m), f) == B.RestLog(s, m, f)
  {
  }

  /** The book reads nothing of a state that the log does not tell. */
  lemma BlankReads(s: MatchState, m: MatchState, f: Slot, input: TurnInput, answer: Action, r0: nat, r1: nat, r2: nat)
    ensures B.ActionLog(s, Blank(m), f, input, answer, r0, r1, r2) == B.ActionLog(s, m, f, input, answer, r0, r1, r2)
    ensures B.Draws(s, Blank(m), f, input, answer, r0) == B.Draws(s, m, f, input, answer, r0)
    ensures B.RestLog(s, Blank(m), f) == B.RestLog(s, m, f)
  {
    hide *;
    BlankActs(s, m, f, input, answer, r0, r1, r2);
    BlankDraws(s, m, f, input, answer, r0);
    BlankRests(s, m, f);
  }

  lemma FightsOn(s: MatchState, w: Work, b: Bounds)
    requires Sound(s, w, b) && Decided(w.next)
    ensures w.next.outcome.finished || Fighting(w.next)
    ensures Odds.Ready(w.next.p1) && Odds.Ready(w.next.p2)
    ensures b.one.stamina >= 0 && 0 <= w.next.p1.stamina <= STAMINA_MAX && 0 <= w.next.p2.stamina <= STAMINA_MAX
  {
    hide Explained;
  }

  lemma OpenerFollows(s: MatchState)
    ensures Begin(s).events == [B.Opener(s.(turn := s.turn + 1))] && Begin(s).rolls == []
  {
  }

  lemma FirstFollows(s: MatchState, pair: seq<TurnInput>, tape: Tape)
    requires Inv(s) && |pair| == 2
    ensures var w := Opening(s, pair, tape);
            && w.events == FirstLog(s, pair, tape) && |w.rolls| == FirstDraws(s, pair, tape)
            && Sourced(Blank(s), w) && Decided(w.next)
            && Sound(s, w, Acted(BoundsAt(s.turn), s.SlotOf(pair[0].player), s.turn))
  {
    hide Explained, Act, Begin, DamageCap, Mid, Fold, Blank, B.ActionLog, B.Draws, B.Opener, Fighting, Sourced;
    var a, b := s.SlotOf(pair[0].player), BoundsAt(s.turn);
    ProperFromInv(s);
    BeginSound(s);
    BeginSourced(s);
    OpenerFollows(s);
    FightsOn(s, Begin(s), b);
    ActSound(s, Begin(s), a, pair[0], pair[1], tape[0], tape[1], tape[2], b);
    ActSourced(Blank(s), Begin(s), a, pair[0], Contexts(s, a, pair[1]), tape[0], tape[1], tape[2]);
    ActFollows(s, Begin(s), a, pair[0], pair[1], tape[0], tape[1], tape[2]);
    BlankReads(s, Begin(s).next, a, pair[0], pair[1].action, tape[0], tape[1], tape[2]);
    SourcedState(Blank(s), Begin(s));
  }

  lemma ProperFromInv(s: MatchState)
    requires Inv(s)
    ensures ProperIds(s)
  {
  }

  lemma SourcedState(base: MatchState, w: Work)
    requires Sourced(base, w)
    ensures Fold(base, w.events) == Blank(w.next)
  {
  }

  lemma BothFollow(s: MatchState, pair: seq<TurnInput>, tape: Tape)
    requires Inv(s) && |pair| == 2
    ensures var v, a := Exchange(s, pair, tape), s.SlotOf(pair[0].player);
            && v.events == BothLog(s, pair, tape) && |v.rolls| == BothDraws(s, pair, tape) && Sourced(Blank(s), v)
            && Odds.Ready(v.next.p1) && Odds.Ready(v.next.p2)
            && 0 <= v.next.p1.stamina <= STAMINA_MAX && 0 <= v.next.p2.stamina <= STAMINA_MAX
  {
    hide Explained, Act, Begin, DamageCap, Mid, Fold, Blank, B.ActionLog, B.Draws, Fighting, Sourced, Opening, FirstLog,
      FirstDraws, Odds.Ready;
    var a, b := s.SlotOf(pair[0].player), BoundsAt(s.turn);
    FirstFollows(s, pair, tape);
    OpeningDraws(s, pair, tape);
    var w := Opening(s, pair, tape);
    var k := |w.rolls|;
    FightsOn(s, w, Acted(b, a, s.turn));
    ReserveLeft(s, pair, tape);
    ActSound(s, w, a.Other(), pair[1], pair[0], tape[k], tape[k + 1], tape[k + 2], Acted(b, a, s.turn));
    ActSourced(Blank(s), w, a.Other(), pair[1], Contexts(s, a.Other(), pair[0]), tape[k], tape[k + 1], tape[k + 2]);
    ActFollows(s, w, a.Other(), pair[1], pair[0], tape[k], tape[k + 1], tape[k + 2]);
    BlankReads(s, w.next, a.Other(), pair[1], pair[0].action, tape[k], tape[k + 1], tape[k + 2]);
    SourcedState(Blank(s), w);
    FightsOn(s, Exchange(s, pair, tape), Acted(Acted(b, a, s.turn), a.Other(), s.turn));
  }

  /** The second fighter's last hit is still the one the turn found. */
  lemma ReserveLeft(s: MatchState, pair: seq<TurnInput>, tape: Tape)
    requires Inv(s) && |pair| == 2
    ensures var a := s.SlotOf(pair[0].player);
            Opening(s, pair, tape).next.Get(a.Other()).lastHit == s.Get(a.Other()).lastHit
  {
    hide Explained, Act, Begin, DamageCap, Mid;
    var a := s.SlotOf(pair[0].player);
    BeginSound(s);
    ActSound(s, Begin(s), a, pair[0], pair[1], tape[0], tape[1], tape[2], BoundsAt(s.turn));
  }

  lemma CloseFollows(s: MatchState, w: Work, c1: Context, c2: Context)
    requires Odds.Ready(w.next.p1) && Odds.Ready(w.next.p2)
    requires 0 <= w.next.p1.stamina <= STAMINA_MAX && 0 <= w.next.p2.stamina <= STAMINA_MAX
    requires c1.torso == (s.p1.effects.torso > 0) && c2.torso == (s.p2.effects.torso > 0)
    ensures Close(w, c1, c2).events == w.events + [B.RestLog(s, w.next, P1), B.RestLog(s, w.next, P2)]
  {
    RegenAgrees(w.next.p1, c1);
    RegenAgrees(w.next.p2, c2);
    hide RegenOf, B.GivenBack, Clamp;
  }

  /** Every turn from a state that a match can reach logs what the book says, entry by entry, and draws as many rolls.
      */
  lemma TurnGoesByTheBook(s: MatchState, pair: seq<TurnInput>, tape: Tape)
    requires Inv(s) && |pair| == 2
    ensures Play(s, pair, tape).events == BookLog(s, pair, tape)
    ensures Play(s, pair, tape).rolls == tape[..BothDraws(s, pair, tape)]
  {
    hide Explained, Act, Begin, Mid, Fold, Blank, Sourced, Exchange, BothLog, BothDraws, B.RestLog, Close,
      Odds.Ready, Inv;
    BothFollow(s, pair, tape);
    PlayDraws(s, pair, tape);
    var v, a := Exchange(s, pair, tape), s.SlotOf(pair[0].player);
    SourcedState(Blank(s), v);
    var c0, c1 := Contexts(s, a, pair[1]), Contexts(s, a.Other(), pair[0]);
    CloseFollows(s, v, if a == P1 then c0 else c1, if a == P1 then c1 else c0);
    BlankReads(s, v.next, P1, pair[0], pair[0].action, 0, 0, 0);
    BlankReads(s, v.next, P2, pair[0], pair[0].action, 0, 0, 0);
  }
}
