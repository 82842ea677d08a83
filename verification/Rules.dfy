/** The integer formulas of internal/combat/rules.go. */
module Rules {
  import opened CombatTypes

  const CHANCE_MIN := 1000
  const CHANCE_MAX := 9000
  const STUN_MAX := 9500
  const FATIGUE_THRESHOLD := 20

  datatype MoveSpec = MoveSpec(range: int, activeStart: int, activeEnd: int, collides: bool) {
    predicate IsActive(frame: int) { activeStart <= frame <= activeEnd }
  }

  /** Go's integer division by a positive constant truncates toward zero. */
  function TruncDiv(a: int, b: int): int
    requires 0 < b
  {
    if 0 <= a then a / b else -((-a) / b)
  }

  function Clamp(v: int, lo: int, hi: int): int { if v < lo then lo else if v > hi then hi else v }

  function Max(a: int, b: int): int { if a > b then a else b }

  function BaseCost(action: Action): int {
    match action
    case Strike => 10
    case Grapple => 14
    case Dodge => 8
    case Block => 6
    case Counter => 12
    case Feint => 9
    case Break => 10
    case _ => 0
  }

  function StaminaCost(action: Action, endurance: int): int {
    if BaseCost(action) <= 0 then 0
    else Max(1, TruncDiv(BaseCost(action) * (100 - Clamp(endurance, 1, 10) * 3), 100))
  }

  function Regen(endurance: int): int { TruncDiv(50 + Clamp(endurance, 1, 10) * 8, 10) }

  function FatiguePenalty(stamina: int): int { if stamina < FATIGUE_THRESHOLD then 1500 else 0 }

  function SuccessChance(attack: int, defense: int, momentum: int, stamina: int): int {
    Clamp(5000 + attack * 300 - defense * 200 + momentum * 15 - FatiguePenalty(stamina), CHANCE_MIN, CHANCE_MAX)
  }

  function RelevantAttribute(action: Action, stats: Stats): int {
    match action
    case Strike => stats.power
    case Grapple => stats.technique
    case Block => stats.technique
    case Dodge => stats.agility
    case Counter => stats.technique
    case Feint => stats.agility
    case Break => stats.power
    case _ => 1
  }

  function BaseDamage(action: Action, stats: Stats): int {
    match action
    case Strike => 12 + stats.power
    case Grapple => 10 + stats.technique
    case Counter => 8 + stats.technique
    case _ => 0
  }

  function ComboBonus(damage: int, combo: bool): int { if combo then TruncDiv(damage * 110, 100) else damage }

  function DamageFinal(base: int, momentum: int, combo: bool): int {
    Max(0, ComboBonus(TruncDiv(base * (100 + Clamp(momentum, 0, 50)), 100), combo))
  }

  function StunChance(zone: Zone, defenderStamina: int, momentumDiff: int): int {
    Clamp(1000
          + (if zone == Head then 1000 else 0)
          + (if defenderStamina < FATIGUE_THRESHOLD then 500 else 0)
          + momentumDiff * 50, 0, STUN_MAX)
  }

  function SubmissionChance(attacker: Fighter, defender: Fighter): int {
    Clamp(3000
          + (attacker.stats.technique - defender.stats.technique) * 300
          + (attacker.momentum - defender.momentum) * 20
          + (if defender.stamina < FATIGUE_THRESHOLD then 500 else 0), CHANCE_MIN, CHANCE_MAX)
  }

  predicate IsOffensive(action: Action) { action.Strike? || action.Grapple? || action.Counter? || action.Feint? }

  /** Strike, Grapple and Counter: the actions that deal damage. */
  predicate IsHit(action: Action) { action.Strike? || action.Grapple? || action.Counter? }

  function MoveForAction(action: Action): MoveSpec {
    match action
    case Strike => MoveSpec(2, 1, 2, true)
    case Grapple => MoveSpec(1, 1, 2, true)
    case Counter => MoveSpec(2, 1, 1, true)
    case Feint => MoveSpec(2, 1, 1, false)
    case _ => MoveSpec(0, 0, 0, false)
  }

  predicate RequiresHitbox(action: Action) { MoveForAction(action).collides }

  /**
   What archetype fighters can deal. A base between 12 and 21 (the extremes over the four stat lines) never
   yields more than 34 nor less than 12, and a cap on momentum caps the damage further.
   */
  lemma DamageBounds(base: int, momentum: int, cap: int, combo: bool)
    requires 12 <= base <= 21 && 0 <= momentum <= cap <= 50
    ensures 12 <= DamageFinal(base, momentum, combo) <= (21 * (100 + cap) / 100) * 110 / 100
    ensures DamageFinal(base, momentum, combo) <= 34
  {
    var raised := base * (100 + momentum);
    ProductBounds(base, 100 + momentum);
    assert DamageFinal(base, momentum, combo) == Max(0, ComboBonus(raised / 100, combo));
    hide DamageFinal;
  }

  lemma ProductBounds(base: int, factor: int)
    requires 12 <= base <= 21 && 100 <= factor
    ensures 1200 <= base * factor <= 21 * factor
  {
    assert (base - 12) * factor >= 0 && (21 - base) * factor >= 0;
  }

  /** Every price is at least 1 and Block, Dodge and Feint cost at most 7 at the archetypes' endurance. */
  lemma CostBounds(action: Action, endurance: int)
    requires 5 <= endurance <= 8
    ensures 0 <= StaminaCost(action, endurance)
    ensures BaseCost(action) > 0 ==> 1 <= StaminaCost(action, endurance)
    ensures action.Block? || action.Dodge? || action.Feint? ==> StaminaCost(action, endurance) <= 7
    ensures 7 <= TruncDiv(Regen(endurance) * 80, 100) <= Regen(endurance)
  {
    if endurance == 5 {
      CostsAt(action, 5);
    } else if endurance == 6 {
      CostsAt(action, 6);
    } else if endurance == 7 {
      CostsAt(action, 7);
    } else {
      CostsAt(action, 8);
    }
  }

  /** The prices at one endurance: from 94 to 76 hundredths of the base. */
  lemma CostsAt(action: Action, endurance: int)
    requires 5 <= endurance <= 8
    ensures StaminaCost(action, endurance)
         == if BaseCost(action) <= 0 then 0 else Max(1, BaseCost(action) * (100 - 3 * endurance) / 100)
    ensures Regen(endurance) == (50 + 8 * endurance) / 10
  {
  }
}
