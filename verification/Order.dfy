/**
 Canonical turn inputs: internal/combat/order.go. Whatever the arrival order, the resolver sees exactly one input
 per fighter, in the byte order of the player ids.
 */
module Order {
  import opened CombatTypes

  datatype InputError = EmptyPlayer | DuplicateInput | EmptyStateId | DuplicateStateId | UnknownPlayer

  /** Byte-wise lexicographic order, the order of Go strings. */
  predicate Before(a: Id, b: Id) {
    b != [] && (a == [] || a[0] < b[0] || (a[0] == b[0] && Before(a[1..], b[1..])))
  }

  /** The ids agree up to place `k`, where the first ends or has the lower byte. */
  predicate PartsAt(a: Id, b: Id, k: nat) {
    k <= |a| && k < |b| && a[..k] == b[..k] && (k == |a| || a[k] < b[k])
  }

  /** One id is before another exactly when it is cut off the other, or has the lower byte where they first differ. */
  lemma {:induction false} BeforeMeaning(a: Id, b: Id)
    ensures Before(a, b) <==> exists k :: 0 <= k < |b| && PartsAt(a, b, k)
  {
    if a != [] && b != [] && a[0] == b[0] {
      BeforeMeaning(a[1..], b[1..]);
      if Before(a[1..], b[1..]) {
        var k :| 0 <= k < |b[1..]| && PartsAt(a[1..], b[1..], k);
        assert a[..k + 1] == [a[0]] + a[1..][..k] && b[..k + 1] == [b[0]] + b[1..][..k];
        assert PartsAt(a, b, k + 1);
      }
      if k :| 0 <= k < |b| && PartsAt(a, b, k) {
        assert k > 0;
        assert a[1..][..k - 1] == a[..k][1..] && b[1..][..k - 1] == b[..k][1..];
        assert PartsAt(a[1..], b[1..], k - 1);
      }
    } else if b != [] {
      assert PartsAt(a, b, 0) <==> Before(a, b);
      LaterPlaces(a, b);
    }
  }

  lemma LaterPlaces(a: Id, b: Id)
    ensures forall k :: 0 < k < |b| && PartsAt(a, b, k) ==> a != [] && a[0] == b[0]
  {
    forall k | 0 < k < |b| && PartsAt(a, b, k) ensures a != [] && a[0] == b[0] {
      assert a[..k][0] == a[0] && b[..k][0] == b[0];
    }
  }

  /** Distinct ids are strictly ordered one way and not the other. */
  lemma {:induction false} BeforeIsTotal(a: Id, b: Id)
    ensures a != b ==> Before(a, b) != Before(b, a)
    ensures a == b ==> !Before(a, b)
  {
    if a != [] && b != [] && a[0] == b[0] {
      BeforeIsTotal(a[1..], b[1..]);
      assert a == [a[0]] + a[1..] && b == [b[0]] + b[1..];
    }
  }

  /** The slot whose fighter acts first. */
  function Lead(s: MatchState): Slot { if Before(s.p1.id, s.p2.id) then P1 else P2 }

  predicate Mentions(inputs: seq<TurnInput>, id: Id) {
    exists i :: 0 <= i < |inputs| && inputs[i].player == id
  }

  predicate ProperIds(s: MatchState) { s.p1.id != [] && s.p2.id != [] && s.p1.id != s.p2.id }

  predicate OnePerPlayer(inputs: seq<TurnInput>) {
    forall i, j :: 0 <= i < j < |inputs| ==> inputs[i].player != inputs[j].player
  }

  predicate AllKnown(s: MatchState, inputs: seq<TurnInput>) {
    forall i :: 0 <= i < |inputs| ==> inputs[i].player == s.p1.id || inputs[i].player == s.p2.id
  }

  /** What a turn's inputs must satisfy: at most one per fighter, and nobody else's. */
  predicate Acceptable(s: MatchState, inputs: seq<TurnInput>) {
    ProperIds(s) && OnePerPlayer(inputs) && AllKnown(s, inputs)
  }

  function NormalizeZone(z: Zone): Zone { if z.OtherZone? then Torso else z }

  /** The input a fighter is held to: its own one with a valid zone, or doing nothing. */
  function InputOf(inputs: seq<TurnInput>, id: Id): TurnInput {
    if inputs == [] then TurnInput(id, NoAction, Torso, 0)
    else
      var last := inputs[|inputs| - 1];
      if last.player == id then last.(target := NormalizeZone(last.target)) else InputOf(inputs[..|inputs| - 1], id)
  }

  /** The canonical pair, or nothing when the inputs are refused. */
  function Canonical(s: MatchState, inputs: seq<TurnInput>): Option<seq<TurnInput>> {
    if !Acceptable(s, inputs) then None
    else
      Some([InputOf(inputs, s.Get(Lead(s)).id), InputOf(inputs, s.Get(Lead(s).Other()).id)])
  }

  lemma {:induction false} InputOfFacts(inputs: seq<TurnInput>, id: Id)
    ensures InputOf(inputs, id).player == id && !InputOf(inputs, id).target.OtherZone?
    ensures !Mentions(inputs, id) ==> InputOf(inputs, id) == TurnInput(id, NoAction, Torso, 0)
    ensures forall i :: 0 <= i < |inputs| && inputs[i].player == id && OnePerPlayer(inputs) ==>
              InputOf(inputs, id) == inputs[i].(target := NormalizeZone(inputs[i].target))
  {
    if inputs != [] {
      var n := |inputs| - 1;
      InputOfFacts(inputs[..n], id);
      forall i | 0 <= i < n && inputs[i].player == id && OnePerPlayer(inputs)
        ensures InputOf(inputs, id) == inputs[i].(target := NormalizeZone(inputs[i].target))
      {
        assert inputs[..n][i] == inputs[i] && OnePerPlayer(inputs[..n]);
      }
      if !Mentions(inputs, id) {
        assert !Mentions(inputs[..n], id);
        assert inputs[n].player != id;
      }
    }
  }

  /** Three known players cannot all be distinct. */
  lemma AcceptableIsShort(s: MatchState, inputs: seq<TurnInput>)
    requires AllKnown(s, inputs) && |inputs| > 2
    ensures !OnePerPlayer(inputs)
  {
    assert inputs[0].player == inputs[1].player || inputs[1].player == inputs[2].player
        || inputs[0].player == inputs[2].player;
  }

  /** The canonical form has the leading fighter's input first and is its own canonical form. */
  lemma CanonicalIsIdempotent(s: MatchState, inputs: seq<TurnInput>)
    requires Canonical(s, inputs).Some?
    ensures var c := Canonical(s, inputs).value;
            && |c| == 2
            && c[0].player == s.Get(Lead(s)).id && c[1].player == s.Get(Lead(s).Other()).id
            && Before(c[0].player, c[1].player)
            && Canonical(s, c) == Some(c)
  {
    var lo, hi := s.Get(Lead(s)).id, s.Get(Lead(s).Other()).id;
    InputOfFacts(inputs, lo);
    InputOfFacts(inputs, hi);
    BeforeIsTotal(s.p1.id, s.p2.id);
    var c := Canonical(s, inputs).value;
    InputOfFacts(c, lo);
    InputOfFacts(c, hi);
    assert c[0].player == lo && c[1].player == hi;
  }

  /** Arrival order is immaterial: permuted inputs are refused together or have the same canonical form. */
  lemma CanonicalIgnoresArrivalOrder(s: MatchState, a: seq<TurnInput>, b: seq<TurnInput>)
    requires multiset(a) == multiset(b)
    ensures Canonical(s, a) == Canonical(s, b)
  {
    if Acceptable(s, a) {
      PermutedAcceptable(s, a, b);
    } else if Acceptable(s, b) {
      PermutedAcceptable(s, b, a);
    }
  }

  lemma PermutedAcceptable(s: MatchState, a: seq<TurnInput>, b: seq<TurnInput>)
    requires Acceptable(s, a) && multiset(a) == multiset(b)
    ensures Canonical(s, a) == Canonical(s, b)
  {
    if |a| > 2 { AcceptableIsShort(s, a); }
    assert |multiset(a)| == |a| && |multiset(b)| == |b|;
    hide Acceptable, Canonical;
    if |a| == 2 {
      assert a == [a[0], a[1]] && b == [b[0], b[1]];
      assert a[0] in multiset(b) && a[1] in multiset(b);
      assert b == a || b == [a[1], a[0]];
      PairEitherWay(s, a[0], a[1]);
    } else {
      assert |a| == 1 ==> a[0] in multiset(b);
      assert a == b;
    }
  }

  lemma PairEitherWay(s: MatchState, x: TurnInput, y: TurnInput)
    requires Acceptable(s, [x, y])
    ensures Canonical(s, [x, y]) == Canonical(s, [y, x])
  {
    InputOfFacts([x, y], s.p1.id);
    InputOfFacts([x, y], s.p2.id);
    InputOfFacts([y, x], s.p1.id);
    InputOfFacts([y, x], s.p2.id);
    assert [x, y][0] == [y, x][1] && [x, y][1] == [y, x][0];
  }

  /** The first fault found, in the order in which the source looks for faults. */
  function Fault(s: MatchState, inputs: seq<TurnInput>): Option<InputError> {
    if ScanFault(inputs).Some? then ScanFault(inputs)
    else if s.p1.id == [] || s.p2.id == [] then Some(EmptyStateId)
    else if s.p1.id == s.p2.id then Some(DuplicateStateId)
    else if !AllKnown(s, inputs) then Some(UnknownPlayer)
    else None
  }

  function ScanFault(inputs: seq<TurnInput>): Option<InputError> {
    if inputs == [] then None
    else
      var n := |inputs| - 1;
      if ScanFault(inputs[..n]).Some? then ScanFault(inputs[..n])
      else if inputs[n].player == [] then Some(EmptyPlayer)
      else if Mentions(inputs[..n], inputs[n].player) then Some(DuplicateInput)
      else None
  }

  lemma {:induction false} ScanFaultMeaning(inputs: seq<TurnInput>)
    ensures ScanFault(inputs).None? <==> OnePerPlayer(inputs) && !Mentions(inputs, [])
  {
    if inputs != [] {
      var n := |inputs| - 1;
      ScanFaultMeaning(inputs[..n]);
      if ScanFault(inputs).None? {
        forall i, j | 0 <= i < j < |inputs| ensures inputs[i].player != inputs[j].player {
          assert inputs[i] == inputs[..n][i];
          assert j < n ==> inputs[j] == inputs[..n][j];
        }
        forall i | 0 <= i < |inputs| ensures inputs[i].player != [] {
          assert i < n ==> inputs[i] == inputs[..n][i];
        }
      }
      if OnePerPlayer(inputs) && !Mentions(inputs, []) {
        forall i | 0 <= i < n ensures inputs[..n][i].player != inputs[n].player && inputs[..n][i].player != [] {
          assert inputs[i] == inputs[..n][i];
        }
        assert inputs[n].player != [];
      }
    }
  }

  /** The scan's precedence of errors refuses exactly what is not acceptable. */
  lemma FaultMeaning(s: MatchState, inputs: seq<TurnInput>)
    ensures Fault(s, inputs).None? <==> Acceptable(s, inputs)
  {
    ScanFaultMeaning(inputs);
  }

  /** Extending a faultless scan by one input. */
  lemma ScanStep(inputs: seq<TurnInput>, n: nat)
    requires n < |inputs| && ScanFault(inputs[..n]).None?
    ensures ScanFault(inputs[..n + 1]) ==
            if inputs[n].player == [] then Some(EmptyPlayer)
            else if Mentions(inputs[..n], inputs[n].player) then Some(DuplicateInput)
            else None
    ensures forall id :: Mentions(inputs[..n + 1], id) <==> id == inputs[n].player || Mentions(inputs[..n], id)
  {
    assert inputs[..n + 1][..n] == inputs[..n];
    forall id ensures Mentions(inputs[..n + 1], id) <==> id == inputs[n].player || Mentions(inputs[..n], id) {
      if Mentions(inputs[..n], id) {
        var i :| 0 <= i < n && inputs[..n][i].player == id;
        assert inputs[..n + 1][i].player == id;
      }
      assert inputs[..n + 1][n].player == inputs[n].player;
      if Mentions(inputs[..n + 1], id) && id != inputs[n].player {
        var i :| 0 <= i < n + 1 && inputs[..n + 1][i].player == id;
        assert inputs[..n][i].player == id;
      }
    }
  }

  predicate Indexes(inputs: seq<TurnInput>, byPlayer: map<Id, TurnInput>) {
    && (forall id :: id in byPlayer ==> Mentions(inputs, id))
    && (forall i :: 0 <= i < |inputs| ==> inputs[i].player in byPlayer && byPlayer[inputs[i].player] == inputs[i])
  }

  method IndexInputs(inputs: seq<TurnInput>) returns (r: Result<map<Id, TurnInput>, InputError>)
    ensures r.Ok? ==> ScanFault(inputs).None? && Indexes(inputs, r.value)
    ensures r.Err? ==> ScanFault(inputs) == Some(r.error)
  {
    var byPlayer: map<Id, TurnInput> := map[];
    for n := 0 to |inputs|
      invariant ScanFault(inputs[..n]).None?
      invariant Indexes(inputs[..n], byPlayer)
    {
      ScanStep(inputs, n);
      if inputs[n].player == [] {
        ScanFaultPrefix(inputs, n + 1);
        return Err(EmptyPlayer);
      }
      if inputs[n].player in byPlayer {
        ScanFaultPrefix(inputs, n + 1);
        return Err(DuplicateInput);
      }
      assert !Mentions(inputs[..n], inputs[n].player);
      var grown := byPlayer[inputs[n].player := inputs[n]];
      var seen := inputs[..n + 1];
      forall i | 0 <= i < |seen| ensures seen[i].player in grown && grown[seen[i].player] == seen[i] {
        if i < n {
          assert seen[i] == inputs[..n][i];
        }
      }
      byPlayer := grown;
    }
    assert inputs[..|inputs|] == inputs;
    r := Ok(byPlayer);
  }

  method CanonicalizeInputs(s: MatchState, inputs: seq<TurnInput>) returns (r: Result<seq<TurnInput>, InputError>)
    ensures r.Ok? ==> Canonical(s, inputs) == Some(r.value)
    ensures r.Err? ==> Canonical(s, inputs) == None && Fault(s, inputs) == Some(r.error)
  {
    FaultMeaning(s, inputs);
    var index := IndexInputs(inputs);
    if index.Err? {
      return Err(index.error);
    }
    var byPlayer := index.value;
    if s.p1.id == [] || s.p2.id == [] {
      return Err(EmptyStateId);
    }
    if s.p1.id == s.p2.id {
      return Err(DuplicateStateId);
    }
    var unchecked := byPlayer.Keys;
    while unchecked != {}
      invariant unchecked <= byPlayer.Keys
      invariant forall id :: id in byPlayer && id !in unchecked ==> id == s.p1.id || id == s.p2.id
    {
      var id :| id in unchecked;
      if id != s.p1.id && id != s.p2.id {
        assert Mentions(inputs, id);
        return Err(UnknownPlayer);
      }
      unchecked := unchecked - {id};
    }
    assert AllKnown(s, inputs);

    var ids := if Before(s.p1.id, s.p2.id) then [s.p1.id, s.p2.id] else [s.p2.id, s.p1.id];
    var ordered := [];
    for n := 0 to 2
      invariant |ordered| == n
      invariant forall k :: 0 <= k < n ==> ordered[k] == InputOf(inputs, ids[k])
    {
      InputOfFacts(inputs, ids[n]);
      var input := if ids[n] in byPlayer then byPlayer[ids[n]] else TurnInput(ids[n], NoAction, Torso, 0);
      if input.target != Head && input.target != Torso && input.target != Legs {
        input := input.(target := Torso);
      }
      ordered := ordered + [input];
    }
    assert ordered == Canonical(s, inputs).value;
    r := Ok(ordered);
  }

  lemma {:induction false} ScanFaultPrefix(inputs: seq<TurnInput>, n: nat)
    requires n <= |inputs| && ScanFault(inputs[..n]).Some?
    ensures ScanFault(inputs) == ScanFault(inputs[..n])
  {
    if n == |inputs| {
      assert inputs[..n] == inputs;
    } else {
      var m := |inputs| - 1;
      assert inputs[..m][..n] == inputs[..n];
      ScanFaultPrefix(inputs[..m], n);
    }
  }
}
