/**
 The computer's habits in numbers: for which rolls it decides on what, seen from its own side, in every combat state and
 for everything that its decisions look at.
 */
module Habits {
  import opened Words
  import opened CombatTypes
  import opened Rng
  import opened Npc

  /** What a decision looks at. `tired` and `low` are about the fighter itself, the others about its opponent, and
      `lead` is the fighter's momentum less the opponent's. */
  datatype Outlook = Outlook(combat: State, tired: bool, low: bool, lead: int, weak: bool, limping: bool, agile: bool)

  function OutlookOf(m: MatchState, self: Slot): Outlook {
    var me, other := m.Get(self), m.Get(self.Other());
    Outlook(m.combat, me.stamina < 30, me.state in {Clinch, Ground, SubmissionAttempt}, me.momentum - other.momentum,
         other.stamina < 25, other.effects.legs > 0, other.stats.agility >= 8)
  }

  const ACTIONS: seq<Action> := [Strike, Grapple, Block, Dodge, Counter, Feint, Break]
  const ZONES: seq<Zone> := [Head, Torso, Legs]

  function If(b: bool, n: int): int { if b then n else 0 }

  /** How many rolls a combat state gives to each action. */
  function PlainShares(combat: State): (n: seq<int>)
    ensures |n| == 7
  {
    match combat
    case Clinch => [20, 30, 10, 8, 8, 4, 20]
    case Ground => [12, 32, 10, 8, 8, 6, 24]
    case Dominant => [22, 30, 10, 8, 10, 14, 6]
    case SubmissionAttempt => [12, 20, 12, 8, 8, 10, 30]
    case _ => [34, 20, 14, 14, 8, 8, 2]
  }

  /** And how many more the fighters do. */
  function Shift(v: Outlook, a: Action): int {
    match a
    case Strike => If(v.lead >= 20, 8) + If(v.weak, 6) - If(v.tired, 8)
    case Grapple => If(v.lead >= 20, 8) + If(v.weak, 6) - If(v.tired, 8)
    case Block => If(v.tired, 10) + If(v.lead <= -15, 8)
    case Dodge => If(v.tired, 10) + If(v.lead <= -15, 8)
    case Counter => If(v.lead <= -10, 6)
    case Break => If(v.tired, 6) + If(v.low, 6)
    case _ => 0
  }

  function ActionShares(v: Outlook): (n: seq<int>)
    ensures |n| == 7
  {
    seq(7, i requires 0 <= i < 7 => PlainShares(v.combat)[i] + Shift(v, ACTIONS[i]))
  }

  /** The same for the zones that an action is aimed at. */
  function ZoneShares(v: Outlook, action: Action): (n: seq<int>)
    ensures |n| == 3
  {
    var head, legs := If(v.lead >= 15, 8) + If(v.weak, 8), If(v.limping, 10) + If(v.agile, 6);
    match action
    case Grapple => [15 + head, 75, 20 + legs]
    case Counter => [35 + head, 45, 20 + legs]
    case _ => [30 + head, 45, 25 + legs]
  }

  /** The sum of the first numbers. */
  function Sum(n: seq<int>, i: nat): int
    requires i <= |n|
  {
    if i == 0 then 0 else Sum(n, i - 1) + n[i - 1]
  }

  /** The i-th option's own rolls come after those of the options before it. */
  predicate Owns(n: seq<int>, i: nat, roll: int)
    requires i < |n|
  {
    Sum(n, i) <= roll < Sum(n, i) + n[i]
  }

  lemma BonusIs(m: MatchState, self: Slot, a: Action)
    ensures ActionBonus(a, m.Get(self), m.Get(self.Other())) == Shift(OutlookOf(m, self), a)
  {
  }

  lemma PlainSharesAre(combat: State, i: nat)
    requires i < 7
    ensures BaseActionWeights(combat)[i] == Weighted(ACTIONS[i], PlainShares(combat)[i])
  {
  }

  /** No share is ever cut below 1, where the source would raise it. */
  lemma SharesArePositive(v: Outlook, i: nat)
    requires i < 7
    ensures ActionShares(v)[i] >= 2
  {
  }

  lemma ActionTableIs(m: MatchState, self: Slot, i: nat)
    requires i < 7
    ensures ActionWeights(m, m.Get(self), m.Get(self.Other()))[i]
         == Weighted(ACTIONS[i], ActionShares(OutlookOf(m, self))[i])
  {
    BonusIs(m, self, ACTIONS[i]);
    PlainSharesAre(m.combat, i);
    SharesArePositive(OutlookOf(m, self), i);
    hide ActionBonus, PlainShares, Shift, BaseActionWeights;
  }

  lemma ZoneTableIs(m: MatchState, self: Slot, action: Action, i: nat)
    requires i < 3
    ensures ZoneWeights(action, m.Get(self), m.Get(self.Other()))[i]
         == Weighted(ZONES[i], ZoneShares(OutlookOf(m, self), action)[i])
  {
  }

  lemma {:induction false} SumIsTotal<T>(ws: seq<Weighted<T>>, n: seq<int>, i: nat)
    requires |ws| == |n| && i <= |n| && forall k :: 0 <= k < |n| ==> ws[k].weight == n[k]
    ensures Total(ws[..i]) == Sum(n, i)
  {
    if i > 0 {
      SumIsTotal(ws, n, i - 1);
      TotalStep(ws, i - 1);
    }
  }

  /** An option is picked for exactly its own rolls. */
  lemma PickOwns<T>(ws: seq<Weighted<T>>, n: seq<int>, i: nat, roll: int)
    requires Positive(ws) && DistinctOptions(ws) && |ws| == |n| && i < |n| && 0 <= roll < Total(ws)
    requires forall k :: 0 <= k < |n| ==> ws[k].weight == n[k]
    ensures Pick(ws, roll) == ws[i].option <==> Owns(n, i, roll)
    ensures Total(ws) == Sum(n, |n|)
  {
    SumIsTotal(ws, n, i);
    SumIsTotal(ws, n, |n|);
    assert ws[..|n|] == ws;
    PickExactly(ws, i, roll);
  }

  /** A decision is what two rolls of these sizes make of it. */
  predicate ByHabit(input: TurnInput, v: Outlook, gen: Word) {
    var all, aims := Sum(ActionShares(v), 7), Sum(ZoneShares(v, input.action), 3);
    && 0 < all && 0 < aims
    && input.action in ACTIONS && input.target in ZONES && input.decisionMs == 0
    && (forall i :: 0 <= i < 7 ==> (input.action == ACTIONS[i] <==> Owns(ActionShares(v), i, Roll(gen, 0, all))))
    && (forall i :: 0 <= i < 3 ==>
          (input.target == ZONES[i] <==> Owns(ZoneShares(v, input.action), i, Roll(Advance(gen), 0, aims))))
  }

  lemma Listed(a: Action, z: Zone)
    ensures a in PLAYABLE <==> a in ACTIONS
    ensures z in {Head, Torso, Legs} <==> z in ZONES
  {
  }

  lemma ActionOwns(m: MatchState, self: Slot, gen: Word)
    ensures var ws, shares := ActionWeights(m, m.Get(self), m.Get(self.Other())), ActionShares(OutlookOf(m, self));
            && Total(ws) == Sum(shares, 7) > 0
            && forall i :: 0 <= i < 7 ==>
                 (Pick(ws, Roll(gen, 0, Total(ws))) == ACTIONS[i] <==> Owns(shares, i, Roll(gen, 0, Total(ws))))
  {
    var ws, shares := ActionWeights(m, m.Get(self), m.Get(self.Other())), ActionShares(OutlookOf(m, self));
    hide ActionWeights, ActionShares, Roll, Pick, Total, Sum, OutlookOf, Owns;
    forall i | 0 <= i < 7 ensures ws[i] == Weighted(ACTIONS[i], shares[i]) {
      ActionTableIs(m, self, i);
    }
    TotalAtLeast(ws);
    RollInRange(gen, Total(ws));
    forall i | 0 <= i < 7
      ensures Pick(ws, Roll(gen, 0, Total(ws))) == ACTIONS[i] <==> Owns(shares, i, Roll(gen, 0, Total(ws)))
      ensures Total(ws) == Sum(shares, 7)
    {
      PickOwns(ws, shares, i, Roll(gen, 0, Total(ws)));
    }
    PickOwns(ws, shares, 0, Roll(gen, 0, Total(ws)));
  }

  lemma ZoneOwns(m: MatchState, self: Slot, action: Action, gen: Word)
    ensures var ws := ZoneWeights(action, m.Get(self), m.Get(self.Other()));
            var shares := ZoneShares(OutlookOf(m, self), action);
            && Total(ws) == Sum(shares, 3) > 0
            && forall i :: 0 <= i < 3 ==>
                 (Pick(ws, Roll(gen, 0, Total(ws))) == ZONES[i] <==> Owns(shares, i, Roll(gen, 0, Total(ws))))
  {
    var ws, shares := ZoneWeights(action, m.Get(self), m.Get(self.Other())), ZoneShares(OutlookOf(m, self), action);
    hide ZoneWeights, ZoneShares, Roll, Pick, Total, Sum, OutlookOf, Owns;
    forall i | 0 <= i < 3 ensures ws[i] == Weighted(ZONES[i], shares[i]) {
      ZoneTableIs(m, self, action, i);
    }
    TotalAtLeast(ws);
    RollInRange(gen, Total(ws));
    forall i | 0 <= i < 3
      ensures Pick(ws, Roll(gen, 0, Total(ws))) == ZONES[i] <==> Owns(shares, i, Roll(gen, 0, Total(ws)))
    {
      PickOwns(ws, shares, i, Roll(gen, 0, Total(ws)));
    }
    PickOwns(ws, shares, 0, Roll(gen, 0, Total(ws)));
  }

  /**
   What the computer decides for either fighter of a match: for a stunned one nothing, without a roll; otherwise an
   action and a zone by two rolls, each option for exactly its own share of them, as the fighter's own tiredness and
   posture, its opponent's, and the momentum between them make it.
   */
  lemma DecisionsInNumbers(m: MatchState, self: Slot, gen: Word)
    requires m.p1.id != [] && m.p2.id != [] && m.p1.id != m.p2.id
    ensures var id, (decided, after) := m.Get(self).id, DecideSpec(m, m.Get(self).id, gen);
            && decided.Some? && decided.value.player == id
            && (if m.Get(self).state == Stunned || m.Get(self).effects.stun > 0
                then decided.value == TurnInput(id, NoAction, Torso, 0) && after == gen
                else ByHabit(decided.value, OutlookOf(m, self), gen) && after == Advance(Advance(gen)))
  {
    hide Roll, Pick, ActionWeights, ZoneWeights, Total, ActionShares, ZoneShares, Sum, Owns, OutlookOf, Advance,
      PLAYABLE;
    DecideMeaning(m, m.Get(self).id, gen);
    var input := DecideSpec(m, m.Get(self).id, gen).0.value;
    Listed(input.action, input.target);
    ActionOwns(m, self, gen);
    ZoneOwns(m, self, input.action, Advance(gen));
  }

  lemma Seven(n: seq<int>)
    requires |n| == 7
    ensures Sum(n, 7) == n[0] + n[1] + n[2] + n[3] + n[4] + n[5] + n[6] && Sum(n, 0) == 0 && Sum(n, 1) == n[0]
  {
    assert Sum(n, 1) == n[0] && Sum(n, 2) == n[0] + n[1] && Sum(n, 3) == n[0] + n[1] + n[2];
    assert Sum(n, 4) == Sum(n, 3) + n[3] && Sum(n, 5) == Sum(n, 4) + n[4] && Sum(n, 6) == Sum(n, 5) + n[5];
  }

  /** On its feet, with equal momentum, a tired fighter strikes for 26 rolls in 110, and a rested one for 34 in 100. */
  lemma TiredFightersStrikeLess(m: MatchState, self: Slot, gen: Word)
    requires m.p1.id != [] && m.p2.id != [] && m.p1.id != m.p2.id
    requires m.combat == m.p1.state == m.p2.state == Neutral && m.p1.momentum == m.p2.momentum
    requires m.Get(self).effects.stun == 0 && m.Get(self.Other()).stamina >= 25
    ensures DecideSpec(m, m.Get(self).id, gen).0.Some?
    ensures var input := DecideSpec(m, m.Get(self).id, gen).0.value;
            input.action == Strike <==>
              if m.Get(self).stamina < 30 then Roll(gen, 0, 110) < 26 else Roll(gen, 0, 100) < 34
  {
    hide Roll, Advance, DecideSpec, Sum, ZoneShares;
    DecisionsInNumbers(m, self, gen);
    var shares := ActionShares(OutlookOf(m, self));
    Seven(shares);
    assert ACTIONS[0] == Strike;
    var input := DecideSpec(m, m.Get(self).id, gen).0.value;
    assert input.action == ACTIONS[0] <==> Owns(shares, 0, Roll(gen, 0, Sum(shares, 7)));
  }
}
