/** What is hashed, byte for byte: the order of the fields, their codes and bytes, the hash itself, and the rolls. */
module Layout {
  import opened Words
  import opened CombatTypes
  import opened Turn
  import opened Rng
  import opened Checksum
  import opened Resolver

  // ---------- the hash ----------

  /** The published value of 64-bit FNV-1a for "a". */
  lemma FnvOfA()
    ensures Fnv(FNV_OFFSET, [97]) == 0xaf63dc4c8601ec8c
  {
    assert XorLow(0xcbf29ce4842223, 0, 0) == 0;
    assert XorLow(0x197e539c9084446, 0, 1) == 0;
    assert XorLow(0x32fca739210888c, 1, 2) == 1;
    assert XorLow(0x65f94e724211119, 3, 3) == 2;
    assert XorLow(0xcbf29ce48422232, 6, 4) == 4;
    assert XorLow(0x197e539c90844464, 12, 5) == 8;
    assert XorLow(0x32fca739210888c9, 24, 6) == 17;
    assert XorLow(0x65f94e7242111192, 48, 7) == 34;
    assert XorLow(0xcbf29ce484222325, 97, 8) == 68;
    assert Mix(FNV_OFFSET, 97) == 0xcbf29ce484222344;
    assert 0xcbf29ce484222344 * FNV_PRIME == 0xcbf29ce5de * TWO64 + 0xaf63dc4c8601ec8c;
    hide Mix;
    assert FnvStep(FNV_OFFSET, 97) == 0xaf63dc4c8601ec8c;
    var byte: seq<Byte> := [97];
    assert byte[..0] == [] && Fnv(FNV_OFFSET, byte) == FnvStep(Fnv(FNV_OFFSET, byte[..0]), 97);
  }

  // ---------- the bytes ----------

  /** The number that little-endian bytes stand for. */
  function Read(bytes: seq<Byte>): nat {
    if bytes == [] then 0 else bytes[0] + 256 * Read(bytes[1..])
  }

  lemma {:induction false} LittleEndianReads(n: nat, width: nat)
    requires n < Pow256(width)
    ensures Read(LittleEndian(n, width)) == n
  {
    if width > 0 {
      LittleEndianReads(n / 256, width - 1);
      assert LittleEndian(n, width)[1..] == LittleEndian(n / 256, width - 1);
    }
  }

  /** A number is written as eight bytes, least significant first, that stand for it modulo 2^64; a string as its
      bytes and a zero. */
  lemma FieldsAreWritten(v: int, id: Id)
    ensures |FieldBytes(Number(v))| == 8 && Read(FieldBytes(Number(v))) == v % 0x1_0000_0000_0000_0000
    ensures FieldBytes(Text(id)) == id + [0]
  {
    assert Pow256(8) == 0x1_0000_0000_0000_0000;
    LittleEndianReads(v % TWO64, 8);
  }

  lemma {:induction false} LowBits(w: seq<bool>, k: nat)
    requires k <= |w|
    ensures Pow2(k) > 0 && Val(w[..k]) == Val(w) % Pow2(k)
  {
    if k > 0 {
      LowBits(w[1..], k - 1);
      assert w[..k][1..] == w[1..][..k - 1];
      HalfMod(Val(w), Pow2(k - 1));
    }
  }

  // ---------- the fields ----------

  /** The first fields of a state are the ids, the turn, the code of the combat state, the distance and the lower half
      of the generator's state; the fighters and the outcome follow. */
  lemma StateIsWritten(m: MatchState)
    ensures var f := StateFields(m);
            && |f| == 41
            && f[..2] == [Text(m.p1.id), Text(m.p2.id)]
            && f[2..6] == [Number(m.turn), Number(StateCode(m.combat)), Number(m.distance),
                           Number(Val(m.rng) % 0x1_0000_0000)]
            && f[6..22] == FighterFields(m.p1) && f[22..38] == FighterFields(m.p2)
            && f[38..] == [Number(if m.outcome.finished then 1 else 0), Text(m.outcome.winner),
                           Text(match m.outcome.how
                                case NoMethod => []
                                case KO => [75, 79]
                                case Submission => [83, 117, 98, 109, 105, 115, 115, 105, 111, 110])]
  {
    assert Pow2(8) == 256 && Pow2(12) == 4096 && Pow2(16) == 65536 && Pow2(20) == 1048576;
    assert Pow2(24) == 16777216 && Pow2(28) == 268435456 && Pow2(32) == 4294967296;
    LowBits(m.rng, 32);
    hide Val, FighterFields, StateCode, Pow2;
    FighterIsWritten(m.p1);
    FighterIsWritten(m.p2);
  }

  lemma FighterIsWritten(f: Fighter)
    ensures var n := FighterFields(f);
            && |n| == 16
            && n[0] == Text(f.id) && n[1] == Number(ArchetypeCode(f.archetype))
            && n[2] == Number(f.stats.power) && n[3] == Number(f.stats.technique)
            && n[4] == Number(f.stats.agility) && n[5] == Number(f.stats.endurance)
            && n[6] == Number(f.hp) && n[7] == Number(f.stamina) && n[8] == Number(f.momentum)
            && n[9] == Number(StateCode(f.state))
            && n[10] == Number(f.effects.stun) && n[11] == Number(f.effects.torso) && n[12] == Number(f.effects.legs)
            && n[13] == Number(ActionCode(f.lastAction)) && n[14] == Number(if f.lastSuccess then 1 else 0)
            && n[15] == Number(f.lastHit)
  {
  }

  /** Every value of an enumeration is written as its place among the declared ones. */
  lemma CodesAreRanks(i: nat, extra: Byte)
    ensures i < 6 ==> StateCode([Neutral, Clinch, Ground, Dominant, Stunned, SubmissionAttempt][i]) == i
    ensures i < 8 ==> ActionCode([NoAction, Strike, Grapple, Block, Dodge, Counter, Feint, Break][i]) == i
    ensures i < 4 ==> ArchetypeCode([Balanced, Powerhouse, Technician, HighFlyer][i]) == i
    ensures ActionCode(OtherAction(extra)) == 8 + extra && ArchetypeCode(OtherArchetype(extra)) == 4 + extra
  {
  }

  // ---------- the rolls ----------

  lemma {:induction false} RollsLength(rolls: seq<nat>)
    ensures |RollBytes(rolls)| == 8 * |rolls|
  {
    if rolls != [] {
      RollsLength(rolls[..|rolls| - 1]);
    }
  }

  /** The roll hash is that of eight bytes for each roll, in order. */
  lemma {:induction false} RollsAreWritten(rolls: seq<nat>, i: nat)
    requires i < |rolls|
    ensures 8 * i + 8 <= |RollBytes(rolls)| == 8 * |rolls|
    ensures RollBytes(rolls)[8 * i..8 * i + 8] == FieldBytes(Number(rolls[i]))
  {
    var n := |rolls| - 1;
    var before, last := RollBytes(rolls[..n]), NumberBytes(rolls[n]);
    RollsLength(rolls);
    RollsLength(rolls[..n]);
    assert RollBytes(rolls) == before + last;
    hide RollBytes, NumberBytes;
    if i < n {
      RollsAreWritten(rolls[..n], i);
      assert (before + last)[8 * i..8 * i + 8] == before[8 * i..8 * i + 8];
    } else {
      assert (before + last)[8 * n..8 * n + 8] == last;
    }
  }

  /** The rolls of a turn are the next outputs of the generator, modulo 10000: the state's product with a constant,
      modulo 2^64. */
  lemma RollsAreOutputs(s: Word, i: nat)
    requires i < 6
    ensures TapeOf(s)[i] == Val(Iterate(s, i + 1)) * 2685821657736338717 % 0x1_0000_0000_0000_0000 % 10000
  {
    hide Iterate, Val;
  }
}
