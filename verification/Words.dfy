/**
 64-bit machine words as their bits, least significant first, together with the numbers they stand for. Shifts and
 exclusive-or act bit by bit; multiplication acts on the number, modulo 2^64.
 */
module Words {
  const TWO64: nat := 0x1_0000_0000_0000_0000

  type Word = w: seq<bool> | |w| == 64 witness Bits(0, 64)

  type Byte = b: nat | b < 256

  const ZERO: Word := Bits(0, 64)

  function Xor(a: Word, b: Word): Word { seq(64, i requires 0 <= i < 64 => a[i] != b[i]) }

  function ShiftRight(a: Word, k: nat): Word { seq(64, i requires 0 <= i < 64 => i + k < 64 && a[i + k]) }

  function ShiftLeft(a: Word, k: nat): Word { seq(64, i requires 0 <= i < 64 => k <= i && a[i - k]) }

  function Pow2(k: nat): nat { if k == 0 then 1 else 2 * Pow2(k - 1) }

  function Val(bits: seq<bool>): nat {
    if bits == [] then 0 else (if bits[0] then 1 else 0) + 2 * Val(bits[1..])
  }

  function Bits(n: nat, width: nat): (bits: seq<bool>)
    ensures |bits| == width
  {
    if width == 0 then [] else [n % 2 == 1] + Bits(n / 2, width - 1)
  }

  lemma {:induction false} BitsOfZero(width: nat)
    ensures forall i :: 0 <= i < width ==> !Bits(0, width)[i]
  {
    if width > 0 {
      BitsOfZero(width - 1);
    }
  }

  lemma BitsOfOdd(n: nat, width: nat)
    requires n % 2 == 1 && width > 0
    ensures Bits(n, width)[0]
  {
  }

  /** Bits and numbers below the width's power of two determine each other. */
  lemma {:induction false} BitsOfVal(bits: seq<bool>)
    ensures Val(bits) < Pow2(|bits|) && Bits(Val(bits), |bits|) == bits
  {
    if bits != [] {
      BitsOfVal(bits[1..]);
      assert Val(bits) / 2 == Val(bits[1..]);
    }
  }

  lemma {:induction false} ValOfBits(n: nat, width: nat)
    requires n < Pow2(width)
    ensures Val(Bits(n, width)) == n
  {
    if width > 0 {
      ValOfBits(n / 2, width - 1);
    }
  }

  lemma ValInjective(a: seq<bool>, b: seq<bool>)
    requires |a| == |b| && Val(a) == Val(b)
    ensures a == b
  {
    BitsOfVal(a);
    BitsOfVal(b);
  }
}
