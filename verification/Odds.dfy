/** What the success chance of internal/combat/resolver.go comes to between archetype fighters. */
module Odds {
  import opened CombatTypes
  import opened Rules
  import opened Turn

  predicate Ready(f: Fighter) {
    ArchetypeStats(f.archetype) == Some(f.stats) && 0 <= f.momentum <= 50
  }

  predicate Real(action: Action) { !action.NoAction? && !action.OtherAction? }

  /** The chance in the documented form, without its limits. */
  function Unlimited(actor: Fighter, defender: Fighter, action: Action, ctx: Context): int {
    5000 + RelevantAttribute(action, actor.stats) * 300 - Defense(action, defender, ctx.opponent, ctx.legs) * 200
    + actor.momentum * 15 - FatiguePenalty(actor.stamina)
  }

  lemma AttributeBounds(actor: Fighter, defender: Fighter, action: Action, ctx: Context)
    requires Ready(actor) && Ready(defender) && Real(action)
    ensures 4 <= RelevantAttribute(action, actor.stats) <= 9
    ensures 1 <= Defense(action, defender, ctx.opponent, ctx.legs) <= 10
  {
  }

  /** Between archetype fighters neither limit on the chance ever takes effect. */
  lemma ChanceIsNeverCapped(actor: Fighter, defender: Fighter, action: Action, ctx: Context)
    requires Ready(actor) && Ready(defender) && Real(action)
    ensures var plain := Unlimited(actor, defender, action, ctx);
            && 2700 <= plain <= 8250
            && Chance(actor, defender, action, ctx) == if action == Dodge && ctx.legs then plain * 80 / 100 else plain
    ensures 2160 <= Chance(actor, defender, action, ctx) <= 8250
  {
    AttributeBounds(actor, defender, action, ctx);
    hide RelevantAttribute, Defense;
  }

  /**
   A leg injury is meant to slow down a dodging defender, but the resolver looks at the attacker's legs. So an injured
   attacker hits a dodging opponent more often, unless the attacker dodges as well, which its own injury makes harder;
   and the defender's own injury makes no difference.
   */
  lemma InjuredLegsHelpTheAttacker(actor: Fighter, defender: Fighter, action: Action, ctx: Context, effects: Effects)
    requires Ready(actor) && Ready(defender) && Real(action) && ctx.opponent == Dodge
    ensures var hurt, sound := Chance(actor, defender, action, ctx.(legs := true)),
                               Chance(actor, defender, action, ctx.(legs := false));
            if action == Dodge then hurt < sound else hurt > sound
    ensures Chance(actor, defender.(effects := effects), action, ctx) == Chance(actor, defender, action, ctx)
  {
    ChanceIsNeverCapped(actor, defender, action, ctx.(legs := true));
    ChanceIsNeverCapped(actor, defender, action, ctx.(legs := false));
    hide RelevantAttribute;
  }

  /** The chance with the dodge cut that the parameter's name asks for: that of the defender's own legs. */
  function Intended(actor: Fighter, defender: Fighter, action: Action, ctx: Context, defenderLegs: bool): int {
    var raw := SuccessChance(RelevantAttribute(action, actor.stats),
                             Defense(action, defender, ctx.opponent, defenderLegs), actor.momentum, actor.stamina);
    Clamp(if action == Dodge && ctx.legs then TruncDiv(raw * 80, 100) else raw, CHANCE_MIN, CHANCE_MAX)
  }

  /**
   The chance is the intended one exactly when the opponent does not dodge or both fighters' legs are in the same state.
   Otherwise an injured attacker is favoured over a sound defender, and a sound attacker held back by an injured one.
   */
  lemma ChanceIsIntendedExactly(actor: Fighter, defender: Fighter, action: Action, ctx: Context, defenderLegs: bool)
    requires Ready(actor) && Ready(defender) && Real(action)
    ensures var chance := Chance(actor, defender, action, ctx);
            var intended := Intended(actor, defender, action, ctx, defenderLegs);
            && (chance == intended <==> ctx.opponent != Dodge || defenderLegs == ctx.legs)
            && (ctx.opponent == Dodge && ctx.legs && !defenderLegs ==> chance > intended)
            && (ctx.opponent == Dodge && !ctx.legs && defenderLegs ==> chance < intended)
  {
    AttributeBounds(actor, defender, action, ctx);
    AttributeBounds(actor, defender, action, ctx.(legs := defenderLegs));
    DodgeCut(action, defender);
    hide RelevantAttribute;
  }

  /** Hurt legs take at least one point off the agility that a dodge is worth, and leave every other defence alone. */
  lemma DodgeCut(action: Action, defender: Fighter)
    requires Ready(defender)
    ensures Defense(action, defender, Dodge, true) < Defense(action, defender, Dodge, false)
    ensures forall opponent :: opponent != Dodge ==>
              Defense(action, defender, opponent, true) == Defense(action, defender, opponent, false)
  {
  }

  function Between(n: int, lo: int, hi: int): int { if n < lo then lo else if n > hi then hi else n }

  /** Whatever the fighters, a success has a chance of 10% to 90%, a stun one of at most 95%, and a submission one of
      10% to 90%; between these limits they are the plain sums. */
  lemma ChancesAreLimited(attack: int, defense: int, momentum: int, stamina: int, zone: Zone, lead: int,
                          f: Fighter, g: Fighter)
    ensures SuccessChance(attack, defense, momentum, stamina)
         == Between(5000 + 300 * attack - 200 * defense + 15 * momentum - if stamina < 20 then 1500 else 0, 1000, 9000)
    ensures StunChance(zone, stamina, lead)
         == Between(1000 + (if zone == Head then 1000 else 0) + (if stamina < 20 then 500 else 0) + 50 * lead, 0, 9500)
    ensures SubmissionChance(f, g)
         == Between(3000 + 300 * (f.stats.technique - g.stats.technique) + 20 * (f.momentum - g.momentum)
                    + if g.stamina < 20 then 500 else 0, 1000, 9000)
  {
  }

  /** Strikes and counters reach two steps, a grapple one, and nothing else needs to reach. */
  lemma ReachInSteps(action: Action, distance: int)
    ensures InReach(action, distance) <==>
              match action
              case Strike => distance <= 2
              case Counter => distance <= 2
              case Grapple => distance <= 1
              case _ => true
  {
  }

  /** Fighters stand one step apart, which every move that needs reach covers. */
  lemma ReachIsNoObstacle(action: Action)
    ensures InReach(action, 1)
  {
  }
}
