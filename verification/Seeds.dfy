/** The random streams of the computer opponents: how each slot's own seed is made from that of the match. */
module Seeds {
  import opened Words
  import opened CombatTypes
  import opened Match

  function Repeated(b: Byte, k: nat): nat { if k == 0 then 0 else b + 256 * Repeated(b, k - 1) }

  function Doubled(r: nat, k: nat): nat { if k == 0 then r else 2 * Doubled(r, k - 1) }

  lemma Byteful(r: nat)
    ensures Doubled(r, 8) == 256 * r
  {
    assert Doubled(r, 0) == r;
    assert Doubled(r, 1) == 2 * Doubled(r, 0);
    assert Doubled(r, 2) == 2 * Doubled(r, 1);
    assert Doubled(r, 3) == 2 * Doubled(r, 2);
    assert Doubled(r, 4) == 2 * Doubled(r, 3);
    assert Doubled(r, 5) == 2 * Doubled(r, 4);
    assert Doubled(r, 6) == 2 * Doubled(r, 5);
    assert Doubled(r, 7) == 2 * Doubled(r, 6);
  }

  lemma LowByte(b: Byte, r: nat, width: nat, i: nat)
    requires i < 8 + width
    ensures Bits(b + 256 * r, 8 + width)[i] == if i < 8 then Bits(b, 8)[i] else Bits(r, width)[i - 8]
  {
    hide Bits, Doubled;
    Byteful(1);
    Byteful(r);
    ShiftedBits(b, r, 8, width, i);
  }

  lemma BitsStep(n: nat, width: nat, i: nat)
    requires i < width
    ensures Bits(n, width)[i] == if i == 0 then n % 2 == 1 else Bits(n / 2, width - 1)[i - 1]
  {
  }

  lemma {:induction false} ShiftedBits(b: nat, r: nat, k: nat, width: nat, i: nat)
    requires i < k + width && b < Doubled(1, k)
    ensures Bits(b + Doubled(r, k), k + width)[i] == if i < k then Bits(b, k)[i] else Bits(r, width)[i - k]
  {
    hide Bits;
    if k > 0 {
      var n := b + Doubled(r, k);
      assert n / 2 == b / 2 + Doubled(r, k - 1) && n % 2 == b % 2;
      BitsStep(n, k + width, i);
      if i < k {
        BitsStep(b, k, i);
      }
      if i > 0 {
        ShiftedBits(b / 2, r, k - 1, width, i - 1);
      }
    } else {
      assert b == 0 && Doubled(r, 0) == r;
    }
  }

  lemma {:induction false} RepeatedBits(b: Byte, k: nat, width: nat, i: nat)
    requires i < width == 8 * k
    ensures Bits(Repeated(b, k), width)[i] == Bits(b, 8)[i % 8]
  {
    hide Bits;
    LowByte(b, Repeated(b, k - 1), width - 8, i);
    if i >= 8 {
      RepeatedBits(b, k - 1, width - 8, i - 8);
    }
  }

  lemma FirstSaltByte(j: nat)
    requires j < 8
    ensures Bits(165, 8)[j] <==> j in {0, 2, 5, 7}
  {
    assert Bits(165, 8) == [true, false, true, false, false, true, false, true];
  }

  lemma SecondSaltByte(j: nat)
    requires j < 8
    ensures Bits(90, 8)[j] <==> j in {1, 3, 4, 6}
  {
    assert Bits(90, 8) == [false, true, false, true, true, false, true, false];
  }

  lemma OneBit(i: nat)
    requires i < 64
    ensures Bits(1, 64)[i] <==> i == 0
  {
    BitsOfZero(63);
  }

  lemma SaltBits(i: nat)
    requires i < 64
    ensures Bits(SALT1, 64)[i] <==> i % 8 in {0, 2, 5, 7}
    ensures Bits(SALT2, 64)[i] <==> i % 8 in {1, 3, 4, 6}
  {
    assert Repeated(165, 8) == SALT1 && Repeated(90, 8) == SALT2;
    hide Bits, Repeated;
    RepeatedBits(165, 8, 64, i);
    RepeatedBits(90, 8, 64, i);
    FirstSaltByte(i % 8);
    SecondSaltByte(i % 8);
  }

  /** The two slots' generators start from the match's seed with every bit turned over in one of them and not in the
      other, or from 1 where that would be 0; so never from the same state, and never from the zero state. */
  lemma SlotSeedsDiffer(seed: Word, initial: MatchState)
    ensures var l := Begun(seed, initial);
            && l.c1.gen != l.c2.gen && l.c1.gen != ZERO && l.c2.gen != ZERO
            && ((forall i :: 0 <= i < 64 ==> l.c1.gen[i] == (seed[i] != (i % 8 in {0, 2, 5, 7})))
                || (l.c1.gen == Bits(1, 64) && Xor(seed, Bits(SALT1, 64)) == ZERO))
            && ((forall i :: 0 <= i < 64 ==> l.c2.gen[i] == (seed[i] != (i % 8 in {1, 3, 4, 6})))
                || (l.c2.gen == Bits(1, 64) && Xor(seed, Bits(SALT2, 64)) == ZERO))
  {
    hide Bits;
    BitsOfZero(64);
    OneBit(0);
    OneBit(1);
    SaltsMix(seed);
    var one, two := Xor(seed, Bits(SALT1, 64)), Xor(seed, Bits(SALT2, 64));
    assert one[0] != two[0] && one[1] != two[1] && one[2] != two[2];
    assert SeedWithSalt(seed, SALT1) == if one == ZERO then Bits(1, 64) else one;
    assert SeedWithSalt(seed, SALT2) == if two == ZERO then Bits(1, 64) else two;
  }

  lemma SaltsMix(seed: Word)
    ensures forall i :: 0 <= i < 64 ==>
              && Xor(seed, Bits(SALT1, 64))[i] == (seed[i] != (i % 8 in {0, 2, 5, 7}))
              && Xor(seed, Bits(SALT2, 64))[i] == (seed[i] != (i % 8 in {1, 3, 4, 6}))
  {
    forall i | 0 <= i < 64
      ensures Bits(SALT1, 64)[i] <==> i % 8 in {0, 2, 5, 7}
      ensures Bits(SALT2, 64)[i] <==> i % 8 in {1, 3, 4, 6}
    {
      SaltBits(i);
    }
    hide Bits;
  }
}
