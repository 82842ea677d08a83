/** The deterministic generator: internal/engine/rng.go, a 64-bit xorshift state with a multiplied output. */
module Rng {
  import opened Words

  const DEFAULT_SEED: nat := 0x9e3779b97f4a7c15
  const MULTIPLIER: nat := 2685821657736338717

  function Seeded(seed: Word): Word { if seed == ZERO then Bits(DEFAULT_SEED, 64) else seed }

  // ---------- the state transition ----------

  function Right12(s: Word): Word { Xor(s, ShiftRight(s, 12)) }
  function Left25(s: Word): Word { Xor(s, ShiftLeft(s, 25)) }
  function Right27(s: Word): Word { Xor(s, ShiftRight(s, 27)) }

  /** The state after one draw. */
  function Advance(s: Word): Word { Right27(Left25(Right12(s))) }

  function UnRight12(s: Word): Word {
    Xor(Xor(Xor(Xor(Xor(s, ShiftRight(s, 12)), ShiftRight(s, 24)), ShiftRight(s, 36)), ShiftRight(s, 48)),
        ShiftRight(s, 60))
  }

  function UnLeft25(s: Word): Word { Xor(Xor(s, ShiftLeft(s, 25)), ShiftLeft(s, 50)) }
  function UnRight27(s: Word): Word { Xor(Xor(s, ShiftRight(s, 27)), ShiftRight(s, 54)) }

  /** The state a draw started from. */
  function Retreat(s: Word): Word { UnRight12(UnLeft25(UnRight27(s))) }

  lemma Undo12(s: Word)
    ensures UnRight12(Right12(s)) == s && Right12(UnRight12(s)) == s
  {
  }

  lemma Undo25(s: Word)
    ensures UnLeft25(Left25(s)) == s && Left25(UnLeft25(s)) == s
  {
  }

  lemma Undo27(s: Word)
    ensures UnRight27(Right27(s)) == s && Right27(UnRight27(s)) == s
  {
  }

  /** `Retreat` undoes `Advance` from every state, and the other way round: the transition is a permutation. */
  lemma AdvanceIsAPermutation(s: Word)
    ensures Retreat(Advance(s)) == s && Advance(Retreat(s)) == s
  {
    hide Right12, Left25, Right27, UnRight12, UnLeft25, UnRight27;
    Undo12(s);
    Undo25(Right12(s));
    Undo27(Left25(Right12(s)));
    Undo27(s);
    Undo25(UnRight27(s));
    Undo12(UnLeft25(UnRight27(s)));
  }

  lemma ZeroIsFixed()
    ensures Advance(ZERO) == ZERO
  {
    BitsOfZero(64);
    assert Right12(ZERO) == ZERO;
    assert Left25(ZERO) == ZERO;
    assert Right27(ZERO) == ZERO;
  }

  // ---------- streams ----------

  function Iterate(s: Word, k: nat): Word { if k == 0 then s else Advance(Iterate(s, k - 1)) }

  /** No seed ever leads to the zero state, from which the generator could not escape. */
  lemma {:induction false} NeverZero(seed: Word, k: nat)
    ensures Iterate(Seeded(seed), k) != ZERO
  {
    hide Advance, Retreat, Bits;
    if k == 0 {
      BitsOfZero(64);
      BitsOfOdd(DEFAULT_SEED, 64);
    } else {
      NeverZero(seed, k - 1);
      AdvanceIsAPermutation(Iterate(Seeded(seed), k - 1));
      AdvanceIsAPermutation(ZERO);
      ZeroIsFixed();
    }
  }

  lemma {:induction false} IterateAdd(s: Word, j: nat, k: nat)
    ensures Iterate(Iterate(s, j), k) == Iterate(s, j + k)
  {
    hide Advance;
    if k > 0 {
      IterateAdd(s, j, k - 1);
    }
  }

  /** What a draw below `n` reports once the generator has moved to state `s`. */
  function Output(s: Word, n: int): (r: nat)
    requires 0 < n
    ensures r < n
  {
    (Val(s) * MULTIPLIER % TWO64) % n
  }

  /** The i-th roll below `n` from state `s`. */
  function Roll(s: Word, i: nat, n: int): (r: nat)
    requires 0 < n
    ensures r < n
  {
    Output(Iterate(s, i + 1), n)
  }

  lemma RollLater(s: Word, j: nat, i: nat, n: int)
    requires 0 < n
    ensures Roll(Iterate(s, j), i, n) == Roll(s, j + i, n)
  {
    hide Output, Iterate;
    IterateAdd(s, j, i + 1);
  }

  class DeterministicRNG {
    var state: Word

    constructor (seed: Word)
      ensures state == Seeded(seed)
      ensures state == if seed == ZERO then Bits(0x9e3779b97f4a7c15, 64) else seed
    {
      state := if seed == ZERO then Bits(DEFAULT_SEED, 64) else seed;
    }

    method NextUint64() returns (x: nat)
      modifies this
      ensures state == Advance(old(state))
      ensures var a := Xor(old(state), ShiftRight(old(state), 12));
              var b := Xor(a, ShiftLeft(a, 25));
              state == Xor(b, ShiftRight(b, 27))
      ensures x == Val(state) * MULTIPLIER % TWO64
      ensures x == Val(state) * 2685821657736338717 % 0x1_0000_0000_0000_0000
    {
      hide Bits, Val;
      var s := state;
      s := Xor(s, ShiftRight(s, 12));
      s := Xor(s, ShiftLeft(s, 25));
      s := Xor(s, ShiftRight(s, 27));
      state := s;
      x := Val(s) * MULTIPLIER % TWO64;
    }

    /** A bound that is not positive is answered with 0 and draws nothing. */
    method NextInt(n: int) returns (r: nat)
      modifies this
      ensures n <= 0 ==> r == 0 && state == old(state)
      ensures n > 0 ==> state == Advance(old(state)) && r == Roll(old(state), 0, n)
      ensures n > 0 ==> r == Val(state) * 2685821657736338717 % 0x1_0000_0000_0000_0000 % n
    {
      hide Advance, Val;
      if n <= 0 {
        return 0;
      }
      var x := NextUint64();
      assert Iterate(old(state), 0) == old(state);
      r := x % n;
    }

    function Snapshot(): (s: Word)
      reads this
      ensures s == state
    {
      state
    }
  }
}
