/**
 Turn checksums: the byte stream `hashMatchState` writes, and the FNV-1a fold over it
 (internal/combat/resolver.go, hash writers).
 */
module Checksum {
  import opened Words
  import opened CombatTypes

  const FNV_OFFSET: nat := 0xcbf29ce484222325
  const FNV_PRIME: nat := 0x100000001b3
  /** The inverse of the prime modulo 2^64. */
  const FNV_INVERSE: nat := 0xce965057aff6957b

  // ---------- FNV-1a ----------

  /** Exclusive-or of the low `width` bits of two numbers. */
  function XorLow(a: nat, b: nat, width: nat): nat {
    if width == 0 then 0 else (if a % 2 == b % 2 then 0 else 1) + 2 * XorLow(a / 2, b / 2, width - 1)
  }

  lemma {:induction false} XorLowFacts(a: nat, b: nat, c: nat, width: nat)
    requires b < Pow2(width) && c < Pow2(width)
    ensures XorLow(a, b, width) < Pow2(width)
    ensures XorLow(a, b, width) == XorLow(a, c, width) ==> b == c
    ensures XorLow(XorLow(a, b, width), b, width) == a % Pow2(width)
  {
    if width > 0 {
      XorLowFacts(a / 2, b / 2, c / 2, width - 1);
      HalfMod(a, Pow2(width - 1));
    }
  }

  lemma HalfMod(a: nat, m: nat)
    requires m > 0
    ensures a % (2 * m) == a % 2 + 2 * ((a / 2) % m)
  {
    var h := a / 2;
    var q, r := h / m, h % m;
    assert h == q * m + r;
    assert a == a % 2 + 2 * h;
    assert a == q * (2 * m) + (a % 2 + 2 * r);
    RemainderIs(a, 2 * m, q, a % 2 + 2 * r);
  }

  lemma RemainderIs(a: int, m: nat, q: int, r: int)
    requires m > 0 && a == q * m + r && 0 <= r < m
    ensures a % m == r && a / m == q
  {
    var k := a / m - q;
    assert a == (a / m) * m + a % m;
    assert k * m == (a / m) * m - q * m == r - a % m;
    NoMultiple(k, m);
  }

  lemma MultiplesAreFar(k: int, m: int)
    requires m >= 0
    ensures k >= 1 ==> k * m >= m
    ensures k <= -1 ==> k * m <= -m
  {
    if k >= 1 {
      assert (k - 1) * m >= 0;
    } else if k <= -1 {
      assert (-k - 1) * m >= 0;
    }
  }

  /** Zero is the only multiple of m that is closer to zero than m. */
  lemma NoMultiple(k: int, m: int)
    requires -m < k * m < m
    ensures k == 0
  {
    MultiplesAreFar(k, m);
  }

  /** The low byte of the hash is combined with the input byte. */
  function Mix(h: nat, b: Byte): nat { h / 256 * 256 + XorLow(h, b, 8) }

  function FnvStep(h: nat, b: Byte): nat { (Mix(h, b) * FNV_PRIME) % TWO64 }

  function Fnv(h: nat, bytes: seq<Byte>): nat {
    if bytes == [] then h else FnvStep(Fnv(h, bytes[..|bytes| - 1]), bytes[|bytes| - 1])
  }

  lemma Pow2At8()
    ensures Pow2(8) == 256
  {
  }

  lemma MixFacts(h: nat, g: nat, b: Byte, c: Byte)
    requires h < TWO64 && g < TWO64
    ensures Mix(h, b) < TWO64
    ensures Mix(h, b) == Mix(h, c) ==> b == c
    ensures Mix(h, b) == Mix(g, b) ==> h == g
  {
    Pow2At8();
    XorLowFacts(h, b, c, 8);
    XorLowFacts(g, b, c, 8);
    assert XorLow(h, b, 8) < 256 && XorLow(h, c, 8) < 256 && XorLow(g, b, 8) < 256 by {
      XorLowFacts(h, c, b, 8);
    }
    hide XorLow, Pow2;
    MixBound(h, XorLow(h, b, 8));
    SameMix(h, h, XorLow(h, b, 8), XorLow(h, c, 8));
    SameMix(h, g, XorLow(h, b, 8), XorLow(g, b, 8));
    ByteSplit(h);
    ByteSplit(g);
  }

  lemma ByteSplit(h: nat)
    ensures h == h / 256 * 256 + h % 256
  {
  }

  lemma MixBound(h: nat, low: nat)
    requires h < TWO64 && low < 256
    ensures h / 256 * 256 + low < TWO64
  {
  }

  lemma SameMix(h: nat, g: nat, low: nat, other: nat)
    requires low < 256 && other < 256
    ensures h / 256 * 256 + low == g / 256 * 256 + other ==> h / 256 == g / 256 && low == other
  {
  }

  /** Multiplication by the prime is injective on 64-bit words. */
  lemma TimesPrimeInjective(x: nat, y: nat)
    requires x < TWO64 && y < TWO64 && (x * FNV_PRIME) % TWO64 == (y * FNV_PRIME) % TWO64
    ensures x == y
  {
    var k := x * FNV_PRIME / TWO64 - y * FNV_PRIME / TWO64;
    assert (x - y) * FNV_PRIME == k * TWO64;
    var t := FNV_PRIME * FNV_INVERSE / TWO64;
    assert FNV_PRIME * FNV_INVERSE == t * TWO64 + 1;
    InverseDivides(x - y, k, FNV_PRIME, FNV_INVERSE, t, TWO64);
    var z := k * FNV_INVERSE - (x - y) * t;
    assert z * TWO64 == x - y;
    NoMultiple(z, TWO64);
  }

  /** With an inverse of p modulo w, whatever p takes to a multiple of w is one. */
  lemma InverseDivides(d: int, k: int, p: int, inverse: int, t: int, w: int)
    requires d * p == k * w && p * inverse == t * w + 1
    ensures d == (k * inverse - d * t) * w
  {
    assert d * (p * inverse) == d * p * inverse;
    assert d * (t * w + 1) == d * t * w + d;
    assert k * w * inverse == k * inverse * w;
  }

  /** Each step is a bijection in the hash and an injection in the byte. */
  lemma FnvStepInjective(h: nat, g: nat, b: Byte, c: Byte)
    requires h < TWO64 && g < TWO64
    ensures FnvStep(h, b) < TWO64
    ensures h != g ==> FnvStep(h, b) != FnvStep(g, b)
    ensures b != c ==> FnvStep(h, b) != FnvStep(h, c)
  {
    MixFacts(h, g, b, c);
    MixFacts(g, h, b, c);
    MixFacts(h, g, c, b);
    hide Mix;
    if FnvStep(h, b) == FnvStep(g, b) {
      TimesPrimeInjective(Mix(h, b), Mix(g, b));
    }
    if FnvStep(h, b) == FnvStep(h, c) {
      TimesPrimeInjective(Mix(h, b), Mix(h, c));
    }
  }

  lemma {:induction false} FnvBounded(h: nat, bytes: seq<Byte>)
    requires h < TWO64
    ensures Fnv(h, bytes) < TWO64
  {
    if bytes != [] {
      FnvBounded(h, bytes[..|bytes| - 1]);
      FnvStepInjective(Fnv(h, bytes[..|bytes| - 1]), h, bytes[|bytes| - 1], 0);
    }
  }

  lemma {:induction false} FnvConcat(h: nat, a: seq<Byte>, b: seq<Byte>)
    ensures Fnv(h, a + b) == Fnv(Fnv(h, a), b)
  {
    hide FnvStep;
    if b == [] {
      assert a + b == a;
    } else {
      FnvConcat(h, a, b[..|b| - 1]);
      assert (a + b)[..|a + b| - 1] == a + b[..|b| - 1];
    }
  }

  /** A difference once made survives whatever equal bytes follow. */
  lemma {:induction false} FnvKeepsDifference(h: nat, g: nat, bytes: seq<Byte>)
    requires h < TWO64 && g < TWO64 && h != g
    ensures Fnv(h, bytes) != Fnv(g, bytes)
  {
    if bytes != [] {
      var n := |bytes| - 1;
      FnvKeepsDifference(h, g, bytes[..n]);
      FnvBounded(h, bytes[..n]);
      FnvBounded(g, bytes[..n]);
      FnvStepInjective(Fnv(h, bytes[..n]), Fnv(g, bytes[..n]), bytes[n], bytes[n]);
    }
  }

  /** Streams that differ in exactly one byte never collide. */
  lemma OneByteNeverCollides(h: nat, before: seq<Byte>, b: Byte, c: Byte, after: seq<Byte>)
    requires h < TWO64 && b != c
    ensures Fnv(h, before + [b] + after) != Fnv(h, before + [c] + after)
  {
    hide FnvStep;
    var g := Fnv(h, before);
    FnvBounded(h, before);
    FnvStepInjective(g, g, b, c);
    FnvStepInjective(g, g, c, b);
    assert (before + [b])[..|before|] == before && (before + [c])[..|before|] == before;
    FnvConcat(h, before + [b], after);
    FnvConcat(h, before + [c], after);
    FnvKeepsDifference(FnvStep(g, b), FnvStep(g, c), after);
  }

  // ---------- the byte stream of a state ----------

  /** What the hash writers are asked to write. */
  datatype Field = Text(id: Id) | Number(n: int)

  /** `width` little-endian bytes of a number. */
  function LittleEndian(n: nat, width: nat): (bytes: seq<Byte>)
    ensures |bytes| == width
  {
    if width == 0 then [] else [n % 256] + LittleEndian(n / 256, width - 1)
  }

  /** `uint64(v)` of a Go int, then eight bytes. */
  function NumberBytes(v: int): (bytes: seq<Byte>)
    ensures |bytes| == 8
  {
    LittleEndian(v % TWO64, 8)
  }

  function FieldBytes(f: Field): seq<Byte> {
    match f
    case Text(id) => id + [0]
    case Number(n) => NumberBytes(n)
  }

  function Encode(fields: seq<Field>): seq<Byte> {
    if fields == [] then [] else FieldBytes(fields[0]) + Encode(fields[1..])
  }

  predicate NulFree(id: Id) { forall i :: 0 <= i < |id| ==> id[i] != 0 }

  /** A value a Go program can hold in a field: a 64-bit signed number, or a string without NUL bytes. */
  predicate Writable(f: Field) {
    match f
    case Text(id) => NulFree(id)
    case Number(n) => -0x8000_0000_0000_0000 <= n < 0x8000_0000_0000_0000
  }

  predicate SameShape(a: seq<Field>, b: seq<Field>) {
    |a| == |b| && forall i :: 0 <= i < |a| ==> (a[i].Text? <==> b[i].Text?)
  }

  function Pow256(k: nat): nat { if k == 0 then 1 else 256 * Pow256(k - 1) }

  lemma {:induction false} LittleEndianInjective(a: nat, b: nat, width: nat)
    requires a < Pow256(width) && b < Pow256(width) && LittleEndian(a, width) == LittleEndian(b, width)
    ensures a == b
  {
    if width > 0 {
      assert a % 256 == LittleEndian(a, width)[0] == b % 256;
      assert LittleEndian(a / 256, width - 1) == LittleEndian(a, width)[1..] == LittleEndian(b / 256, width - 1);
      LittleEndianInjective(a / 256, b / 256, width - 1);
    }
  }

  lemma NumberBytesInjective(v: int, w: int)
    requires Writable(Number(v)) && Writable(Number(w)) && NumberBytes(v) == NumberBytes(w)
    ensures v == w
  {
    assert Pow256(4) == 0x1_0000_0000;
    assert Pow256(8) == TWO64;
    LittleEndianInjective(v % TWO64, w % TWO64, 8);
  }

  /** A NUL-terminated string can be told from what follows it. */
  lemma {:induction false} TextPrefixFree(a: Id, b: Id, x: seq<Byte>, y: seq<Byte>)
    requires NulFree(a) && NulFree(b) && a + [0] + x == b + [0] + y
    ensures a == b && x == y
  {
    var s, t := a + [0] + x, b + [0] + y;
    assert s[0] == if a == [] then 0 else a[0];
    assert t[0] == if b == [] then 0 else b[0];
    if a != [] {
      assert a[1..] + [0] + x == s[1..] == t[1..] == b[1..] + [0] + y;
      TextPrefixFree(a[1..], b[1..], x, y);
      assert a == [a[0]] + a[1..] && b == [b[0]] + b[1..];
    } else {
      assert x == s[1..] && y == t[1..];
    }
  }

  lemma FieldPrefixFree(f: Field, g: Field, x: seq<Byte>, y: seq<Byte>)
    requires Writable(f) && Writable(g) && (f.Text? <==> g.Text?)
    requires FieldBytes(f) + x == FieldBytes(g) + y
    ensures f == g && x == y
  {
    if f.Text? {
      TextPrefixFree(f.id, g.id, x, y);
    } else {
      var s := FieldBytes(f) + x;
      assert FieldBytes(f) == s[..8] && FieldBytes(g) == s[..8] && x == s[8..] && y == s[8..];
      NumberBytesInjective(f.n, g.n);
    }
  }

  /** The encoding of a list of fields is injective among lists of one shape. */
  lemma {:induction false} EncodeInjective(a: seq<Field>, b: seq<Field>)
    requires SameShape(a, b) && Encode(a) == Encode(b)
    requires forall i :: 0 <= i < |a| ==> Writable(a[i]) && Writable(b[i])
    ensures a == b
  {
    hide FieldBytes, Writable;
    if a != [] {
      FieldPrefixFree(a[0], b[0], Encode(a[1..]), Encode(b[1..]));
      EncodeInjective(a[1..], b[1..]);
      assert a == [a[0]] + a[1..] && b == [b[0]] + b[1..];
    }
  }

  // ---------- what a state writes ----------

  function StateCode(s: State): nat {
    match s
    case Neutral => 0
    case Clinch => 1
    case Ground => 2
    case Dominant => 3
    case Stunned => 4
    case SubmissionAttempt => 5
  }

  function ActionCode(a: Action): nat {
    match a
    case NoAction => 0
    case Strike => 1
    case Grapple => 2
    case Block => 3
    case Dodge => 4
    case Counter => 5
    case Feint => 6
    case Break => 7
    case OtherAction(extra) => 8 + extra
  }

  function ArchetypeCode(a: Archetype): nat {
    match a
    case Balanced => 0
    case Powerhouse => 1
    case Technician => 2
    case HighFlyer => 3
    case OtherArchetype(extra) => 4 + extra
  }

  function Flag(b: bool): Field { Number(if b then 1 else 0) }

  /** The bytes of "KO" and "Submission". */
  function MethodText(m: Method): Id {
    match m
    case NoMethod => []
    case KO => [75, 79]
    case Submission => [83, 117, 98, 109, 105, 115, 115, 105, 111, 110]
  }

  /** The lower half of the generator state, `RNGState & 0xffffffff`. */
  function LowHalf(w: Word): nat { Val(w[..32]) }

  function BodyFields(f: Fighter): seq<Field> {
    [Text(f.id), Number(ArchetypeCode(f.archetype)),
     Number(f.stats.power), Number(f.stats.technique), Number(f.stats.agility), Number(f.stats.endurance),
     Number(f.hp), Number(f.stamina), Number(f.momentum)]
  }

  function TailFields(f: Fighter): seq<Field> {
    [Number(StateCode(f.state)), Number(f.effects.stun), Number(f.effects.torso), Number(f.effects.legs),
     Number(ActionCode(f.lastAction)), Flag(f.lastSuccess), Number(f.lastHit)]
  }

  function FighterFields(f: Fighter): seq<Field> { BodyFields(f) + TailFields(f) }

  function HeaderFields(m: MatchState): seq<Field> {
    [Text(m.p1.id), Text(m.p2.id), Number(m.turn), Number(StateCode(m.combat)), Number(m.distance),
     Number(LowHalf(m.rng))]
  }

  function OutcomeFields(o: Outcome): seq<Field> {
    [Flag(o.finished), Text(o.winner), Text(MethodText(o.how))]
  }

  function StateFields(m: MatchState): seq<Field> {
    HeaderFields(m) + FighterFields(m.p1) + FighterFields(m.p2) + OutcomeFields(m.outcome)
  }

  function StateHash(m: MatchState): nat { Fnv(FNV_OFFSET, Encode(StateFields(m))) }

  function RollBytes(rolls: seq<nat>): seq<Byte> {
    if rolls == [] then [] else RollBytes(rolls[..|rolls| - 1]) + NumberBytes(rolls[|rolls| - 1])
  }

  function RollHash(rolls: seq<nat>): nat { Fnv(FNV_OFFSET, RollBytes(rolls)) }

  /** The fields of two fighters determine the fighters. */
  lemma FighterFieldsInjective(f: Fighter, g: Fighter)
    requires FighterFields(f) == FighterFields(g)
    ensures f == g
  {
    var a, b := FighterFields(f), FighterFields(g);
    assert a[0] == b[0] && a[1] == b[1] && a[2] == b[2] && a[3] == b[3] && a[4] == b[4] && a[5] == b[5];
    assert a[6] == b[6] && a[7] == b[7] && a[8] == b[8] && a[9] == b[9] && a[10] == b[10] && a[11] == b[11];
    assert a[12] == b[12] && a[13] == b[13] && a[14] == b[14] && a[15] == b[15];
  }

  lemma HeaderFieldsInjective(m: MatchState, n: MatchState)
    requires HeaderFields(m) == HeaderFields(n)
    ensures m.turn == n.turn && m.combat == n.combat && m.distance == n.distance && m.rng[..32] == n.rng[..32]
  {
    var a, b := HeaderFields(m), HeaderFields(n);
    assert a[2] == b[2] && a[3] == b[3] && a[4] == b[4] && a[5] == b[5];
    ValInjective(m.rng[..32], n.rng[..32]);
  }

  lemma OutcomeFieldsInjective(o: Outcome, p: Outcome)
    requires OutcomeFields(o) == OutcomeFields(p)
    ensures o == p
  {
    var a, b := OutcomeFields(o), OutcomeFields(p);
    assert a[0] == b[0] && a[1] == b[1] && a[2] == b[2];
    assert MethodText(o.how) == MethodText(p.how);
    assert |MethodText(o.how)| == |MethodText(p.how)|;
  }

  predicate AllWritable(fields: seq<Field>) { forall i :: 0 <= i < |fields| ==> Writable(fields[i]) }

  /** Two states with the same byte stream agree in everything but the upper half of the generator state. */
  lemma StreamIsInjective(m: MatchState, n: MatchState)
    requires AllWritable(StateFields(m)) && AllWritable(StateFields(n))
    requires Encode(StateFields(m)) == Encode(StateFields(n))
    ensures m.rng[..32] == n.rng[..32] && m == n.(rng := m.rng)
  {
    StreamShape(m, n);
    EncodeInjective(StateFields(m), StateFields(n));
    var a, b := StateFields(m), StateFields(n);
    hide HeaderFields, FighterFields, OutcomeFields, Writable, Encode;
    StreamParts(m);
    StreamParts(n);
    HeaderFieldsInjective(m, n);
    FighterFieldsInjective(m.p1, n.p1);
    FighterFieldsInjective(m.p2, n.p2);
    OutcomeFieldsInjective(m.outcome, n.outcome);
  }

  lemma ShapeConcat(a: seq<Field>, b: seq<Field>, c: seq<Field>, d: seq<Field>)
    requires SameShape(a, b) && SameShape(c, d)
    ensures SameShape(a + c, b + d)
  {
  }

  lemma FighterShape(f: Fighter, g: Fighter)
    ensures SameShape(FighterFields(f), FighterFields(g))
  {
  }

  lemma StreamShape(m: MatchState, n: MatchState)
    ensures SameShape(StateFields(m), StateFields(n))
  {
    FighterShape(m.p1, n.p1);
    FighterShape(m.p2, n.p2);
    assert SameShape(HeaderFields(m), HeaderFields(n)) && SameShape(OutcomeFields(m.outcome), OutcomeFields(n.outcome));
    hide HeaderFields, FighterFields, OutcomeFields, SameShape;
    ShapeConcat(HeaderFields(m), HeaderFields(n), FighterFields(m.p1), FighterFields(n.p1));
    ShapeConcat(HeaderFields(m) + FighterFields(m.p1), HeaderFields(n) + FighterFields(n.p1),
                FighterFields(m.p2), FighterFields(n.p2));
    ShapeConcat(HeaderFields(m) + FighterFields(m.p1) + FighterFields(m.p2),
                HeaderFields(n) + FighterFields(n.p1) + FighterFields(n.p2),
                OutcomeFields(m.outcome), OutcomeFields(n.outcome));
  }

  lemma StreamParts(m: MatchState)
    ensures var a := StateFields(m);
            && |a| == 41
            && a[..6] == HeaderFields(m) && a[6..22] == FighterFields(m.p1)
            && a[22..38] == FighterFields(m.p2) && a[38..] == OutcomeFields(m.outcome)
  {
  }

  // ---------- states that differ in one small number ----------

  lemma {:induction false} EncodeConcat(a: seq<Field>, b: seq<Field>)
    ensures Encode(a + b) == Encode(a) + Encode(b)
  {
    hide FieldBytes;
    if a == [] {
      assert a + b == b;
    } else {
      EncodeConcat(a[1..], b);
      assert (a + b)[1..] == a[1..] + b && (a + b)[0] == a[0];
      assert Encode(a + b) == FieldBytes(a[0]) + Encode(a[1..] + b);
    }
  }

  /** Numbers below 256 are written as their own value and seven zero bytes. */
  lemma SmallNumberBytes(n: Byte)
    ensures NumberBytes(n) == [n] + LittleEndian(0, 7)
  {
  }

  lemma EncodeAround(a: seq<Field>, i: nat, v: Byte)
    requires i < |a|
    ensures Encode(a[i := Number(v)]) == Encode(a[..i]) + [v] + (LittleEndian(0, 7) + Encode(a[i + 1..]))
  {
    hide LittleEndian, Encode;
    var before, after := a[..i], a[i + 1..];
    assert a[i := Number(v)] == before + ([Number(v)] + after);
    EncodeConcat(before, [Number(v)] + after);
    OneNumber(v, after);
    SmallNumberBytes(v);
    hide FieldBytes;
    assert Encode(before) + ([v] + LittleEndian(0, 7) + Encode(after))
        == Encode(before) + [v] + (LittleEndian(0, 7) + Encode(after));
  }

  /** Changing one field between two values below 256 changes the hash. */
  lemma SmallChangeNeverCollides(a: seq<Field>, i: nat, v: Byte, w: Byte)
    requires i < |a| && v != w
    ensures Fnv(FNV_OFFSET, Encode(a[i := Number(v)])) != Fnv(FNV_OFFSET, Encode(a[i := Number(w)]))
  {
    hide LittleEndian, Encode, Fnv;
    EncodeAround(a, i, v);
    EncodeAround(a, i, w);
    OneByteNeverCollides(FNV_OFFSET, Encode(a[..i]), v, w, LittleEndian(0, 7) + Encode(a[i + 1..]));
  }

  lemma OneNumber(n: int, after: seq<Field>)
    ensures Encode([Number(n)] + after) == NumberBytes(n) + Encode(after)
  {
    assert ([Number(n)] + after)[1..] == after;
  }

  /** Two states that differ only in the hit points of one fighter never share a state hash. */
  lemma HitPointsChangeTheHash(m: MatchState, s: Slot, v: Byte, w: Byte)
    requires v != w
    ensures StateHash(m.Put(s, m.Get(s).(hp := v))) != StateHash(m.Put(s, m.Get(s).(hp := w)))
  {
    var i := if s == P1 then 12 else 28;
    hide Encode, Fnv;
    HpField(m, s, v);
    HpField(m, s, w);
    StreamParts(m);
    SmallChangeNeverCollides(StateFields(m), i, v, w);
  }

  lemma HpField(m: MatchState, s: Slot, v: Byte)
    ensures |StateFields(m)| == 41
    ensures StateFields(m.Put(s, m.Get(s).(hp := v))) == StateFields(m)[if s == P1 then 12 else 28 := Number(v)]
  {
    StreamParts(m);
    var n := m.Put(s, m.Get(s).(hp := v));
    assert FighterFields(n.Get(s)) == FighterFields(m.Get(s))[6 := Number(v)];
    assert HeaderFields(n) == HeaderFields(m) && OutcomeFields(n.outcome) == OutcomeFields(m.outcome);
  }

  // ---------- the running hash ----------

  /** `hash/fnv` as the resolver uses it: a sum that every write advances. */
  class Hash64 {
    var sum: nat

    constructor ()
      ensures sum == FNV_OFFSET
    {
      sum := FNV_OFFSET;
    }

    method Write(bytes: seq<Byte>)
      modifies this
      ensures sum == Fnv(old(sum), bytes)
    {
      hide FnvStep;
      for i := 0 to |bytes|
        invariant sum == Fnv(old(sum), bytes[..i])
      {
        assert bytes[..i + 1][..i] == bytes[..i];
        sum := FnvStep(sum, bytes[i]);
      }
      assert bytes[..|bytes|] == bytes;
    }

    method WriteInt(v: int)
      modifies this
      ensures sum == Fnv(old(sum), FieldBytes(Number(v)))
    {
      hide Fnv, LittleEndian;
      Write(LittleEndian(v % TWO64, 8));
    }

    method WriteBool(v: bool)
      modifies this
      ensures sum == Fnv(old(sum), FieldBytes(Flag(v)))
    {
      hide Fnv, FieldBytes;
      if v {
        WriteInt(1);
      } else {
        WriteInt(0);
      }
    }

    method WriteString(v: Id)
      modifies this
      ensures sum == Fnv(old(sum), FieldBytes(Text(v)))
    {
      hide Fnv;
      Write(v);
      Write([0]);
      FnvConcat(old(sum), v, [0]);
    }

    method WriteFighter(f: Fighter)
      modifies this
      ensures sum == Fnv(old(sum), Encode(FighterFields(f)))
    {
      hide Fnv, FieldBytes, Encode, StateCode, ActionCode, ArchetypeCode;
      ghost var start, body, tail := sum, BodyFields(f), TailFields(f);
      Written(start, body, 0);
      WriteString(f.id);
      Written(start, body, 1);
      WriteInt(ArchetypeCode(f.archetype));
      Written(start, body, 2);
      WriteInt(f.stats.power);
      Written(start, body, 3);
      WriteInt(f.stats.technique);
      Written(start, body, 4);
      WriteInt(f.stats.agility);
      Written(start, body, 5);
      WriteInt(f.stats.endurance);
      Written(start, body, 6);
      WriteInt(f.hp);
      Written(start, body, 7);
      WriteInt(f.stamina);
      Written(start, body, 8);
      WriteInt(f.momentum);
      Written(start, body, 9);
      assert body[..9] == body;
      WriteTail(f);
      WrittenAll(start, body, tail);
    }

    /** The second half of a fighter's fields. */
    method WriteTail(f: Fighter)
      modifies this
      ensures sum == Fnv(old(sum), Encode(TailFields(f)))
    {
      hide Fnv, FieldBytes, Encode, StateCode, ActionCode;
      ghost var start, tail := sum, TailFields(f);
      Written(start, tail, 0);
      WriteInt(StateCode(f.state));
      Written(start, tail, 1);
      WriteInt(f.effects.stun);
      Written(start, tail, 2);
      WriteInt(f.effects.torso);
      Written(start, tail, 3);
      WriteInt(f.effects.legs);
      Written(start, tail, 4);
      WriteInt(ActionCode(f.lastAction));
      Written(start, tail, 5);
      WriteBool(f.lastSuccess);
      Written(start, tail, 6);
      WriteInt(f.lastHit);
      Written(start, tail, 7);
      assert tail[..7] == tail;
    }
  }

  /** Writing one more field of a list. */
  lemma Written(h: nat, fields: seq<Field>, i: nat)
    requires i <= |fields|
    ensures i == 0 ==> Fnv(h, Encode(fields[..i])) == h
    ensures i > 0 ==> Fnv(h, Encode(fields[..i])) == Fnv(Fnv(h, Encode(fields[..i - 1])), FieldBytes(fields[i - 1]))
  {
    hide FnvStep, FieldBytes;
    if i > 0 {
      var before := fields[..i - 1];
      assert fields[..i] == before + [fields[i - 1]];
      EncodeConcat(before, [fields[i - 1]]);
      assert Encode([fields[i - 1]]) == FieldBytes(fields[i - 1]);
      FnvConcat(h, Encode(before), FieldBytes(fields[i - 1]));
    }
  }

  lemma WrittenAll(h: nat, a: seq<Field>, b: seq<Field>)
    ensures Fnv(h, Encode(a + b)) == Fnv(Fnv(h, Encode(a)), Encode(b))
  {
    hide Fnv, Encode;
    EncodeConcat(a, b);
    FnvConcat(h, Encode(a), Encode(b));
  }

  method HashMatchState(m: MatchState) returns (sum: nat)
    ensures sum == StateHash(m)
  {
    hide Fnv, FieldBytes, Encode, FighterFields, Val;
    var h := new Hash64();
    ghost var head, tail := HeaderFields(m), OutcomeFields(m.outcome);
    Written(FNV_OFFSET, head, 0);
    h.WriteString(m.p1.id);
    Written(FNV_OFFSET, head, 1);
    h.WriteString(m.p2.id);
    Written(FNV_OFFSET, head, 2);
    h.WriteInt(m.turn);
    Written(FNV_OFFSET, head, 3);
    h.WriteInt(StateCode(m.combat));
    Written(FNV_OFFSET, head, 4);
    h.WriteInt(m.distance);
    Written(FNV_OFFSET, head, 5);
    h.WriteInt(LowHalf(m.rng));
    Written(FNV_OFFSET, head, 6);
    assert head[..6] == head;
    h.WriteFighter(m.p1);
    WrittenAll(FNV_OFFSET, head, FighterFields(m.p1));
    h.WriteFighter(m.p2);
    WrittenAll(FNV_OFFSET, head + FighterFields(m.p1), FighterFields(m.p2));
    ghost var mid := h.sum;
    Written(mid, tail, 0);
    h.WriteBool(m.outcome.finished);
    Written(mid, tail, 1);
    h.WriteString(m.outcome.winner);
    Written(mid, tail, 2);
    h.WriteString(MethodText(m.outcome.how));
    Written(mid, tail, 3);
    assert tail[..3] == tail;
    WrittenAll(FNV_OFFSET, head + FighterFields(m.p1) + FighterFields(m.p2), tail);
    sum := h.sum;
  }
}
