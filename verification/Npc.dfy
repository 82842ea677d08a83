/** The computer opponent: internal/npc/engine.go. Weighted choices of an action and of a target zone. */
module Npc {
  import opened Words
  import opened CombatTypes
  import opened Rng

  datatype Weighted<T> = Weighted(option: T, weight: int)

  // ---------- choosing by weight ----------

  function Total<T>(ws: seq<Weighted<T>>): int {
    if ws == [] then 0 else ws[0].weight + Total(ws[1..])
  }

  /** The walk along the list that the source makes, with its fallback to the last option. */
  function Pick<T>(ws: seq<Weighted<T>>, roll: int): T
    requires ws != []
  {
    if roll < ws[0].weight || |ws| == 1 then ws[0].option else Pick(ws[1..], roll - ws[0].weight)
  }

  predicate Positive<T>(ws: seq<Weighted<T>>) { forall i :: 0 <= i < |ws| ==> ws[i].weight >= 1 }

  predicate DistinctOptions<T(==)>(ws: seq<Weighted<T>>) {
    forall i, j :: 0 <= i < j < |ws| ==> ws[i].option != ws[j].option
  }

  lemma {:induction false} TotalAtLeast<T>(ws: seq<Weighted<T>>)
    requires Positive(ws)
    ensures Total(ws) >= |ws|
    ensures forall i :: 0 <= i < |ws| ==> Total(ws[..i]) <= Total(ws)
  {
    if ws != [] {
      TotalAtLeast(ws[1..]);
      forall i | 0 <= i < |ws| ensures Total(ws[..i]) <= Total(ws) {
        if i > 0 {
          assert ws[..i][1..] == ws[1..][..i - 1];
        }
      }
    }
  }

  /** Option i owns the rolls between the weights before it and its own end; every roll below the total has an owner, so
      the walk never falls off the list. */
  lemma {:induction false} PickOwner<T>(ws: seq<Weighted<T>>, roll: int) returns (i: nat)
    requires Positive(ws) && ws != [] && 0 <= roll < Total(ws)
    ensures i < |ws| && Pick(ws, roll) == ws[i].option
    ensures Total(ws[..i]) <= roll < Total(ws[..i]) + ws[i].weight
  {
    assert |ws| == 1 ==> ws[1..] == [];
    if roll < ws[0].weight {
      i := 0;
    } else {
      var j := PickOwner(ws[1..], roll - ws[0].weight);
      i := j + 1;
      assert ws[..i][1..] == ws[1..][..j];
    }
  }

  lemma {:induction false} TotalStep<T>(ws: seq<Weighted<T>>, i: nat)
    requires i < |ws|
    ensures Total(ws[..i + 1]) == Total(ws[..i]) + ws[i].weight
  {
    if i == 0 {
      assert ws[..1][1..] == [];
    } else {
      TotalStep(ws[1..], i - 1);
      assert ws[..i + 1][1..] == ws[1..][..i] && ws[..i][1..] == ws[1..][..i - 1];
    }
  }

  lemma {:induction false} TotalMonotone<T>(ws: seq<Weighted<T>>, i: nat, j: nat)
    requires Positive(ws) && i <= j <= |ws|
    ensures Total(ws[..i]) <= Total(ws[..j])
  {
    if i < j {
      TotalMonotone(ws, i, j - 1);
      TotalStep(ws, j - 1);
    }
  }

  /** Option i is returned for exactly the rolls in its own interval. */
  lemma PickExactly<T>(ws: seq<Weighted<T>>, i: nat, roll: int)
    requires Positive(ws) && DistinctOptions(ws) && i < |ws| && 0 <= roll < Total(ws)
    ensures Pick(ws, roll) == ws[i].option <==> Total(ws[..i]) <= roll < Total(ws[..i]) + ws[i].weight
  {
    var j := PickOwner(ws, roll);
    TotalStep(ws, i);
    TotalStep(ws, j);
    if j < i {
      TotalMonotone(ws, j + 1, i);
    } else if i < j {
      TotalMonotone(ws, i + 1, j);
    }
  }

  /** The rolls that return an option. */
  function RollsFor<T(==)>(ws: seq<Weighted<T>>, option: T): set<int>
    requires ws != []
  {
    set roll | 0 <= roll < Total(ws) && Pick(ws, roll) == option
  }

  /** Of the `total` rolls, exactly `weight` return each option. */
  lemma PickCounts<T>(ws: seq<Weighted<T>>, i: nat)
    requires Positive(ws) && DistinctOptions(ws) && i < |ws|
    ensures |RollsFor(ws, ws[i].option)| == ws[i].weight
  {
    var lo := Total(ws[..i]);
    var won := RollsFor(ws, ws[i].option);
    TotalStep(ws, i);
    TotalMonotone(ws, 0, i);
    TotalMonotone(ws, i + 1, |ws|);
    assert ws[..|ws|] == ws;
    forall roll ensures roll in won <==> lo <= roll < lo + ws[i].weight {
      if 0 <= roll < Total(ws) {
        PickExactly(ws, i, roll);
      }
    }
    IntervalSize(won, lo, ws[i].weight);
  }

  lemma {:induction false} IntervalSize(s: set<int>, lo: int, n: nat)
    requires forall x: int :: x in s <==> lo <= x < lo + n
    ensures |s| == n
  {
    if n == 0 {
      assert forall x: int :: x !in s;
    } else {
      var top := lo + n - 1;
      assert top in s;
      IntervalSize(s - {top}, lo, n - 1);
    }
  }

  // ---------- the weights ----------

  function BaseActionWeights(s: State): seq<Weighted<Action>> {
    match s
    case Clinch => ActionTable(20, 30, 10, 8, 8, 4, 20)
    case Ground => ActionTable(12, 32, 10, 8, 8, 6, 24)
    case Dominant => ActionTable(22, 30, 10, 8, 10, 14, 6)
    case SubmissionAttempt => ActionTable(12, 20, 12, 8, 8, 10, 30)
    case _ => ActionTable(34, 20, 14, 14, 8, 8, 2)
  }

  function ActionTable(strike: int, grapple: int, block: int, dodge: int, counter: int, feint: int, brk: int)
    : (ws: seq<Weighted<Action>>)
    ensures |ws| == 7 && DistinctOptions(ws)
    ensures forall i :: 0 <= i < 7 ==> ws[i].option in PLAYABLE
  {
    [Weighted(Strike, strike), Weighted(Grapple, grapple), Weighted(Block, block), Weighted(Dodge, dodge),
     Weighted(Counter, counter), Weighted(Feint, feint), Weighted(Break, brk)]
  }

  const PLAYABLE: set<Action> := {Strike, Grapple, Block, Dodge, Counter, Feint, Break}

  function AtLeastOne<T>(w: Weighted<T>): Weighted<T> { if w.weight < 1 then w.(weight := 1) else w }

  function ActionBonus(a: Action, self: Fighter, opp: Fighter): int {
    var delta := self.momentum - opp.momentum;
    match a
    case Strike => HitBonus(self, opp)
    case Grapple => HitBonus(self, opp)
    case Block => (if self.stamina < 30 then 10 else 0) + if delta <= -15 then 8 else 0
    case Dodge => (if self.stamina < 30 then 10 else 0) + if delta <= -15 then 8 else 0
    case Counter => if delta <= -10 then 6 else 0
    case Break =>
      (if self.stamina < 30 then 6 else 0)
      + if self.state == SubmissionAttempt || self.state == Ground || self.state == Clinch then 6 else 0
    case _ => 0
  }

  function HitBonus(self: Fighter, opp: Fighter): int {
    (if self.stamina < 30 then -8 else 0)
    + (if self.momentum - opp.momentum >= 20 then 8 else 0)
    + if opp.stamina < 25 then 6 else 0
  }

  function AdjustedAction(w: Weighted<Action>, self: Fighter, opp: Fighter): Weighted<Action> {
    AtLeastOne(w.(weight := w.weight + ActionBonus(w.option, self, opp)))
  }

  function BaseZoneWeights(a: Action): (ws: seq<Weighted<Zone>>)
    ensures |ws| == 3 && ws[0].option == Head && ws[1].option == Torso && ws[2].option == Legs
  {
    match a
    case Grapple => [Weighted(Head, 15), Weighted(Torso, 65), Weighted(Legs, 20)]
    case Counter => [Weighted(Head, 35), Weighted(Torso, 45), Weighted(Legs, 20)]
    case _ => [Weighted(Head, 30), Weighted(Torso, 45), Weighted(Legs, 25)]
  }

  function ZoneBonus(z: Zone, a: Action, self: Fighter, opp: Fighter): int {
    match z
    case Head =>
      (if self.momentum - opp.momentum >= 15 then 8 else 0) + if opp.stamina < 25 then 8 else 0
    case Torso => if a == Grapple then 10 else 0
    case Legs => (if opp.effects.legs > 0 then 10 else 0) + if opp.stats.agility >= 8 then 6 else 0
    case _ => 0
  }

  function AdjustedZone(w: Weighted<Zone>, a: Action, self: Fighter, opp: Fighter): Weighted<Zone> {
    AtLeastOne(w.(weight := w.weight + ZoneBonus(w.option, a, self, opp)))
  }

  function ActionWeights(m: MatchState, self: Fighter, opp: Fighter): (ws: seq<Weighted<Action>>)
    ensures |ws| == 7 && Positive(ws) && DistinctOptions(ws)
    ensures forall i :: 0 <= i < 7 ==> ws[i].option in PLAYABLE
  {
    var base := BaseActionWeights(m.combat);
    seq(7, i requires 0 <= i < 7 => AdjustedAction(base[i], self, opp))
  }

  function ZoneWeights(a: Action, self: Fighter, opp: Fighter): (ws: seq<Weighted<Zone>>)
    ensures |ws| == 3 && Positive(ws) && DistinctOptions(ws)
    ensures forall i :: 0 <= i < 3 ==> ws[i].option in {Head, Torso, Legs}
  {
    var base := BaseZoneWeights(a);
    seq(3, i requires 0 <= i < 3 => AdjustedZone(base[i], a, self, opp))
  }

  /** The in-place adjustment of the action weights. */
  method AdjustActionWeights(weights: array<Weighted<Action>>, self: Fighter, opp: Fighter)
    modifies weights
    ensures forall i :: 0 <= i < weights.Length ==> weights[i] == AdjustedAction(old(weights[i]), self, opp)
  {
    var delta := self.momentum - opp.momentum;
    for i := 0 to weights.Length
      invariant forall k :: 0 <= k < i ==> weights[k] == AdjustedAction(old(weights[k]), self, opp)
      invariant forall k :: i <= k < weights.Length ==> weights[k] == old(weights[k])
    {
      var w := weights[i].weight;
      match weights[i].option {
        case Strike => w := w + HitBonus(self, opp);
        case Grapple => w := w + HitBonus(self, opp);
        case Block =>
          if self.stamina < 30 { w := w + 10; }
          if delta <= -15 { w := w + 8; }
        case Dodge =>
          if self.stamina < 30 { w := w + 10; }
          if delta <= -15 { w := w + 8; }
        case Counter =>
          if delta <= -10 { w := w + 6; }
        case Break =>
          if self.stamina < 30 { w := w + 6; }
          if self.state == SubmissionAttempt || self.state == Ground || self.state == Clinch { w := w + 6; }
        case _ =>
      }
      if w < 1 { w := 1; }
      weights[i] := weights[i].(weight := w);
    }
  }

  method AdjustZoneWeights(weights: array<Weighted<Zone>>, a: Action, self: Fighter, opp: Fighter)
    modifies weights
    ensures forall i :: 0 <= i < weights.Length ==> weights[i] == AdjustedZone(old(weights[i]), a, self, opp)
  {
    var delta := self.momentum - opp.momentum;
    for i := 0 to weights.Length
      invariant forall k :: 0 <= k < i ==> weights[k] == AdjustedZone(old(weights[k]), a, self, opp)
      invariant forall k :: i <= k < weights.Length ==> weights[k] == old(weights[k])
    {
      var w := weights[i].weight;
      match weights[i].option {
        case Head =>
          if delta >= 15 { w := w + 8; }
          if opp.stamina < 25 { w := w + 8; }
        case Torso =>
          if a == Grapple { w := w + 10; }
        case Legs =>
          if opp.effects.legs > 0 { w := w + 10; }
          if opp.stats.agility >= 8 { w := w + 6; }
        case _ =>
      }
      if w < 1 { w := 1; }
      weights[i] := weights[i].(weight := w);
    }
  }

  /** `chooseAction` and `chooseZone`: one draw when there is anything to choose from, none otherwise. */
  method Choose<T>(weights: array<Weighted<T>>, otherwise: T, rng: DeterministicRNG) returns (choice: T)
    modifies rng
    ensures Total(weights[..]) <= 0 ==> choice == otherwise && rng.state == old(rng.state)
    ensures Total(weights[..]) > 0 ==>
              && weights.Length > 0 && rng.state == Advance(old(rng.state))
              && choice == Pick(weights[..], Roll(old(rng.state), 0, Total(weights[..])))
  {
    hide Roll, Advance;
    var total := 0;
    for i := 0 to weights.Length
      invariant total == Total(weights[..i]) && rng.state == old(rng.state)
    {
      TotalStep(weights[..], i);
      assert weights[..][..i + 1] == weights[..i + 1] && weights[..][..i] == weights[..i];
      total := total + weights[i].weight;
    }
    assert weights[..weights.Length] == weights[..];
    if total <= 0 {
      return otherwise;
    }
    var roll: int := rng.NextInt(total);
    ghost var drawn := roll;
    for i := 0 to weights.Length
      invariant rng.state == Advance(old(rng.state))
      invariant i < weights.Length ==> Pick(weights[..], drawn) == Pick(weights[i..], roll)
      invariant i == weights.Length ==> Pick(weights[..], drawn) == weights[weights.Length - 1].option
    {
      if roll < weights[i].weight {
        return weights[i].option;
      }
      roll := roll - weights[i].weight;
    }
    choice := weights[weights.Length - 1].option;
  }

  // ---------- the decision ----------

  predicate Dazed(f: Fighter) { f.state == Stunned || f.effects.stun > 0 }

  /** The decision and the generator it leaves behind; nothing when the fighter is not in the match. */
  function DecideSpec(m: MatchState, self: Id, gen: Word): (Option<TurnInput>, Word) {
    if self == [] || (self != m.p1.id && self != m.p2.id) then (None, gen)
    else
      var f, g := m.Get(m.SlotOf(self)), m.Get(m.SlotOf(self).Other());
      if Dazed(f) then (Some(TurnInput(f.id, NoAction, Torso, 0)), gen)
      else
        var actions := ActionWeights(m, f, g);
        TotalAtLeast(actions);
        var action := Pick(actions, Roll(gen, 0, Total(actions)));
        var zones := ZoneWeights(action, f, g);
        TotalAtLeast(zones);
        var zone := Pick(zones, Roll(Advance(gen), 0, Total(zones)));
        (Some(TurnInput(f.id, action, zone, 0)), Advance(Advance(gen)))
  }

  /** A fighter that is not stunned always gets an action and a real target, for exactly two draws; a stunned one gets
      neither, for none. */
  lemma DecideMeaning(m: MatchState, self: Id, gen: Word)
    ensures DecideSpec(m, self, gen).0.Some? <==> self != [] && (self == m.p1.id || self == m.p2.id)
    ensures DecideSpec(m, self, gen).0.Some? ==>
              var input, after := DecideSpec(m, self, gen).0.value, DecideSpec(m, self, gen).1;
              && input.player == self && input.target in {Head, Torso, Legs}
              && (if Dazed(m.Get(m.SlotOf(self))) then input.action == NoAction && after == gen
                  else input.action in PLAYABLE && after == Iterate(gen, 2))
  {
    hide Advance, Roll, Pick, ActionWeights, ZoneWeights, Total;
    if DecideSpec(m, self, gen).0.Some? && !Dazed(m.Get(m.SlotOf(self))) {
      var f, g := m.Get(m.SlotOf(self)), m.Get(m.SlotOf(self).Other());
      var actions := ActionWeights(m, f, g);
      TotalAtLeast(actions);
      var roll := Roll(gen, 0, Total(actions));
      RollInRange(gen, Total(actions));
      var i := PickOwner(actions, roll);
      var zones := ZoneWeights(Pick(actions, roll), f, g);
      TotalAtLeast(zones);
      RollInRange(Advance(gen), Total(zones));
      var j := PickOwner(zones, Roll(Advance(gen), 0, Total(zones)));
      TwoSteps(gen);
    }
  }

  lemma RollInRange(s: Word, n: int)
    requires 0 < n
    ensures 0 <= Roll(s, 0, n) < n
  {
  }

  lemma TwoSteps(s: Word)
    ensures Iterate(s, 2) == Advance(Advance(s))
  {
    hide Advance;
    assert Iterate(s, 0) == s;
    assert Iterate(s, 1) == Advance(s);
  }

  datatype DecideError = MissingSelf | NotInMatch

  method Decide(m: MatchState, self: Id, rng: DeterministicRNG) returns (r: Result<TurnInput, DecideError>)
    modifies rng
    ensures r.Ok? ==> DecideSpec(m, self, old(rng.state)).0 == Some(r.value)
    ensures r.Err? ==> DecideSpec(m, self, old(rng.state)).0 == None
    ensures rng.state == DecideSpec(m, self, old(rng.state)).1
    ensures r == Err(MissingSelf) <==> self == []
  {
    hide Advance, Roll, Pick, Total;
    if self == [] {
      return Err(MissingSelf);
    }
    if self != m.p1.id && self != m.p2.id {
      return Err(NotInMatch);
    }
    var f, g := m.Get(m.SlotOf(self)), m.Get(m.SlotOf(self).Other());
    if f.state == Stunned || f.effects.stun > 0 {
      return Ok(TurnInput(f.id, NoAction, Torso, 0));
    }
    ghost var gen := rng.state;
    var base := BaseActionWeights(m.combat);
    var actionWeights := new Weighted<Action>[7](i requires 0 <= i < 7 => base[i]);
    AdjustActionWeights(actionWeights, f, g);
    assert actionWeights[..] == ActionWeights(m, f, g);
    TotalAtLeast(actionWeights[..]);
    var action := Choose(actionWeights, NoAction, rng);
    DecideMeaning(m, self, gen);
    if action == NoAction {
      action := Block;
    }
    var zoneBase := BaseZoneWeights(action);
    var zoneWeights := new Weighted<Zone>[3](i requires 0 <= i < 3 => zoneBase[i]);
    AdjustZoneWeights(zoneWeights, action, f, g);
    assert zoneWeights[..] == ZoneWeights(action, f, g);
    TotalAtLeast(zoneWeights[..]);
    var zone := Choose(zoneWeights, Torso, rng);
    r := Ok(TurnInput(f.id, action, zone, 0));
  }
}
