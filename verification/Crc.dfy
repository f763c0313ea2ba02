/** ucrc32 of DuiLib/XUnzip.cpp: the table and the unrolled loop against the bit-at-a-time CRC of section 8 of RFC 1952. */
module Crc {
  import opened Bits

  // ---------------------------------------------------------------- bit at a time

  function Bit(c: bv32): bv32
  {
    if c & 1 == 1 then (c >> 1) ^ 0xedb88320 else c >> 1
  }

  function Eight(c: bv32): bv32 { Bit(Bit(Bit(Bit(Bit(Bit(Bit(Bit(c)))))))) }

  /** One byte of the message. */
  function Feed(c: bv32, b: bv8): bv32 { Eight(Xor(c, Widen(b))) }

  function Xor(x: bv32, y: bv32): bv32 { x ^ y }

  function Widen(b: bv8): bv32 { b as bv32 }

  function FeedAll(c: bv32, data: seq<bv8>): bv32
    decreases |data|
  {
    if data == [] then c else FeedAll(Feed(c, data[0]), data[1..])
  }

  function Not(c: bv32): bv32 { c ^ 0xffffffff }

  function Crc32(crc: bv32, data: seq<bv8>): bv32 { Not(FeedAll(Not(crc), data)) }

  lemma {:induction false} FeedAppend(c: bv32, a: seq<bv8>, b: seq<bv8>)
    ensures FeedAll(c, a + b) == FeedAll(FeedAll(c, a), b)
    decreases |a|
  {
    hide Feed;
    if a == [] {
      assert a + b == b;
    } else {
      assert (a + b)[1..] == a[1..] + b && (a + b)[0] == a[0];
      FeedAppend(Feed(c, a[0]), a[1..], b);
    }
  }

  lemma {:induction false} NotTwice(c: bv32)
    ensures Not(Not(c)) == c
  {
  }

  /** The CRC of one buffer carried on over another is that of their concatenation. */
  lemma {:induction false} CrcAppend(crc: bv32, a: seq<bv8>, b: seq<bv8>)
    ensures Crc32(Crc32(crc, a), b) == Crc32(crc, a + b)
  {
    hide FeedAll, Not;
    FeedAppend(Not(crc), a, b);
    NotTwice(FeedAll(Not(crc), a));
  }

  // ---------------------------------------------------------------- the table

  const CRC_0: seq<bv32> := [0x00000000, 0x77073096, 0xee0e612c, 0x990951ba, 0x076dc419, 0x706af48f, 0xe963a535, 0x9e6495a3]
  const CRC_1: seq<bv32> := [0x0edb8832, 0x79dcb8a4, 0xe0d5e91e, 0x97d2d988, 0x09b64c2b, 0x7eb17cbd, 0xe7b82d07, 0x90bf1d91]
  const CRC_2: seq<bv32> := [0x1db71064, 0x6ab020f2, 0xf3b97148, 0x84be41de, 0x1adad47d, 0x6ddde4eb, 0xf4d4b551, 0x83d385c7]
  const CRC_3: seq<bv32> := [0x136c9856, 0x646ba8c0, 0xfd62f97a, 0x8a65c9ec, 0x14015c4f, 0x63066cd9, 0xfa0f3d63, 0x8d080df5]
  const CRC_4: seq<bv32> := [0x3b6e20c8, 0x4c69105e, 0xd56041e4, 0xa2677172, 0x3c03e4d1, 0x4b04d447, 0xd20d85fd, 0xa50ab56b]
  const CRC_5: seq<bv32> := [0x35b5a8fa, 0x42b2986c, 0xdbbbc9d6, 0xacbcf940, 0x32d86ce3, 0x45df5c75, 0xdcd60dcf, 0xabd13d59]
  const CRC_6: seq<bv32> := [0x26d930ac, 0x51de003a, 0xc8d75180, 0xbfd06116, 0x21b4f4b5, 0x56b3c423, 0xcfba9599, 0xb8bda50f]
  const CRC_7: seq<bv32> := [0x2802b89e, 0x5f058808, 0xc60cd9b2, 0xb10be924, 0x2f6f7c87, 0x58684c11, 0xc1611dab, 0xb6662d3d]
  const CRC_8: seq<bv32> := [0x76dc4190, 0x01db7106, 0x98d220bc, 0xefd5102a, 0x71b18589, 0x06b6b51f, 0x9fbfe4a5, 0xe8b8d433]
  const CRC_9: seq<bv32> := [0x7807c9a2, 0x0f00f934, 0x9609a88e, 0xe10e9818, 0x7f6a0dbb, 0x086d3d2d, 0x91646c97, 0xe6635c01]
  const CRC_10: seq<bv32> := [0x6b6b51f4, 0x1c6c6162, 0x856530d8, 0xf262004e, 0x6c0695ed, 0x1b01a57b, 0x8208f4c1, 0xf50fc457]
  const CRC_11: seq<bv32> := [0x65b0d9c6, 0x12b7e950, 0x8bbeb8ea, 0xfcb9887c, 0x62dd1ddf, 0x15da2d49, 0x8cd37cf3, 0xfbd44c65]
  const CRC_12: seq<bv32> := [0x4db26158, 0x3ab551ce, 0xa3bc0074, 0xd4bb30e2, 0x4adfa541, 0x3dd895d7, 0xa4d1c46d, 0xd3d6f4fb]
  const CRC_13: seq<bv32> := [0x4369e96a, 0x346ed9fc, 0xad678846, 0xda60b8d0, 0x44042d73, 0x33031de5, 0xaa0a4c5f, 0xdd0d7cc9]
  const CRC_14: seq<bv32> := [0x5005713c, 0x270241aa, 0xbe0b1010, 0xc90c2086, 0x5768b525, 0x206f85b3, 0xb966d409, 0xce61e49f]
  const CRC_15: seq<bv32> := [0x5edef90e, 0x29d9c998, 0xb0d09822, 0xc7d7a8b4, 0x59b33d17, 0x2eb40d81, 0xb7bd5c3b, 0xc0ba6cad]
  const CRC_16: seq<bv32> := [0xedb88320, 0x9abfb3b6, 0x03b6e20c, 0x74b1d29a, 0xead54739, 0x9dd277af, 0x04db2615, 0x73dc1683]
  const CRC_17: seq<bv32> := [0xe3630b12, 0x94643b84, 0x0d6d6a3e, 0x7a6a5aa8, 0xe40ecf0b, 0x9309ff9d, 0x0a00ae27, 0x7d079eb1]
  const CRC_18: seq<bv32> := [0xf00f9344, 0x8708a3d2, 0x1e01f268, 0x6906c2fe, 0xf762575d, 0x806567cb, 0x196c3671, 0x6e6b06e7]
  const CRC_19: seq<bv32> := [0xfed41b76, 0x89d32be0, 0x10da7a5a, 0x67dd4acc, 0xf9b9df6f, 0x8ebeeff9, 0x17b7be43, 0x60b08ed5]
  const CRC_20: seq<bv32> := [0xd6d6a3e8, 0xa1d1937e, 0x38d8c2c4, 0x4fdff252, 0xd1bb67f1, 0xa6bc5767, 0x3fb506dd, 0x48b2364b]
  const CRC_21: seq<bv32> := [0xd80d2bda, 0xaf0a1b4c, 0x36034af6, 0x41047a60, 0xdf60efc3, 0xa867df55, 0x316e8eef, 0x4669be79]
  const CRC_22: seq<bv32> := [0xcb61b38c, 0xbc66831a, 0x256fd2a0, 0x5268e236, 0xcc0c7795, 0xbb0b4703, 0x220216b9, 0x5505262f]
  const CRC_23: seq<bv32> := [0xc5ba3bbe, 0xb2bd0b28, 0x2bb45a92, 0x5cb36a04, 0xc2d7ffa7, 0xb5d0cf31, 0x2cd99e8b, 0x5bdeae1d]
  const CRC_24: seq<bv32> := [0x9b64c2b0, 0xec63f226, 0x756aa39c, 0x026d930a, 0x9c0906a9, 0xeb0e363f, 0x72076785, 0x05005713]
  const CRC_25: seq<bv32> := [0x95bf4a82, 0xe2b87a14, 0x7bb12bae, 0x0cb61b38, 0x92d28e9b, 0xe5d5be0d, 0x7cdcefb7, 0x0bdbdf21]
  const CRC_26: seq<bv32> := [0x86d3d2d4, 0xf1d4e242, 0x68ddb3f8, 0x1fda836e, 0x81be16cd, 0xf6b9265b, 0x6fb077e1, 0x18b74777]
  const CRC_27: seq<bv32> := [0x88085ae6, 0xff0f6a70, 0x66063bca, 0x11010b5c, 0x8f659eff, 0xf862ae69, 0x616bffd3, 0x166ccf45]
  const CRC_28: seq<bv32> := [0xa00ae278, 0xd70dd2ee, 0x4e048354, 0x3903b3c2, 0xa7672661, 0xd06016f7, 0x4969474d, 0x3e6e77db]
  const CRC_29: seq<bv32> := [0xaed16a4a, 0xd9d65adc, 0x40df0b66, 0x37d83bf0, 0xa9bcae53, 0xdebb9ec5, 0x47b2cf7f, 0x30b5ffe9]
  const CRC_30: seq<bv32> := [0xbdbdf21c, 0xcabac28a, 0x53b39330, 0x24b4a3a6, 0xbad03605, 0xcdd70693, 0x54de5729, 0x23d967bf]
  const CRC_31: seq<bv32> := [0xb3667a2e, 0xc4614ab8, 0x5d681b02, 0x2a6f2b94, 0xb40bbe37, 0xc30c8ea1, 0x5a05df1b, 0x2d02ef8d]

  function CrcRow(r: nat): seq<bv32>
  {
    if r == 0 then CRC_0
    else if r == 1 then CRC_1
    else if r == 2 then CRC_2
    else if r == 3 then CRC_3
    else if r == 4 then CRC_4
    else if r == 5 then CRC_5
    else if r == 6 then CRC_6
    else if r == 7 then CRC_7
    else if r == 8 then CRC_8
    else if r == 9 then CRC_9
    else if r == 10 then CRC_10
    else if r == 11 then CRC_11
    else if r == 12 then CRC_12
    else if r == 13 then CRC_13
    else if r == 14 then CRC_14
    else if r == 15 then CRC_15
    else if r == 16 then CRC_16
    else if r == 17 then CRC_17
    else if r == 18 then CRC_18
    else if r == 19 then CRC_19
    else if r == 20 then CRC_20
    else if r == 21 then CRC_21
    else if r == 22 then CRC_22
    else if r == 23 then CRC_23
    else if r == 24 then CRC_24
    else if r == 25 then CRC_25
    else if r == 26 then CRC_26
    else if r == 27 then CRC_27
    else if r == 28 then CRC_28
    else if r == 29 then CRC_29
    else if r == 30 then CRC_30
    else CRC_31
  }

  function Word(i: nat): bv32
    requires i < 256
  {
    Widen(i as bv8)
  }

  /** Eight entries of the table, from number base on. */
  ghost predicate RowOk(t: seq<bv32>, base: nat)
  {
    |t| == 8 && base <= 248
    && t[0] == Eight(Word(base)) && t[1] == Eight(Word(base + 1)) && t[2] == Eight(Word(base + 2)) && t[3] == Eight(Word(base + 3))
    && t[4] == Eight(Word(base + 4)) && t[5] == Eight(Word(base + 5)) && t[6] == Eight(Word(base + 6)) && t[7] == Eight(Word(base + 7))
  }

  lemma {:induction false} Row0() ensures RowOk(CRC_0, 0) {}
  lemma {:induction false} Row1() ensures RowOk(CRC_1, 8) {}
  lemma {:induction false} Row2() ensures RowOk(CRC_2, 16) {}
  lemma {:induction false} Row3() ensures RowOk(CRC_3, 24) {}
  lemma {:induction false} Row4() ensures RowOk(CRC_4, 32) {}
  lemma {:induction false} Row5() ensures RowOk(CRC_5, 40) {}
  lemma {:induction false} Row6() ensures RowOk(CRC_6, 48) {}
  lemma {:induction false} Row7() ensures RowOk(CRC_7, 56) {}
  lemma {:induction false} Row8() ensures RowOk(CRC_8, 64) {}
  lemma {:induction false} Row9() ensures RowOk(CRC_9, 72) {}
  lemma {:induction false} Row10() ensures RowOk(CRC_10, 80) {}
  lemma {:induction false} Row11() ensures RowOk(CRC_11, 88) {}
  lemma {:induction false} Row12() ensures RowOk(CRC_12, 96) {}
  lemma {:induction false} Row13() ensures RowOk(CRC_13, 104) {}
  lemma {:induction false} Row14() ensures RowOk(CRC_14, 112) {}
  lemma {:induction false} Row15() ensures RowOk(CRC_15, 120) {}
  lemma {:induction false} Row16() ensures RowOk(CRC_16, 128) {}
  lemma {:induction false} Row17() ensures RowOk(CRC_17, 136) {}
  lemma {:induction false} Row18() ensures RowOk(CRC_18, 144) {}
  lemma {:induction false} Row19() ensures RowOk(CRC_19, 152) {}
  lemma {:induction false} Row20() ensures RowOk(CRC_20, 160) {}
  lemma {:induction false} Row21() ensures RowOk(CRC_21, 168) {}
  lemma {:induction false} Row22() ensures RowOk(CRC_22, 176) {}
  lemma {:induction false} Row23() ensures RowOk(CRC_23, 184) {}
  lemma {:induction false} Row24() ensures RowOk(CRC_24, 192) {}
  lemma {:induction false} Row25() ensures RowOk(CRC_25, 200) {}
  lemma {:induction false} Row26() ensures RowOk(CRC_26, 208) {}
  lemma {:induction false} Row27() ensures RowOk(CRC_27, 216) {}
  lemma {:induction false} Row28() ensures RowOk(CRC_28, 224) {}
  lemma {:induction false} Row29() ensures RowOk(CRC_29, 232) {}
  lemma {:induction false} Row30() ensures RowOk(CRC_30, 240) {}
  lemma {:induction false} Row31() ensures RowOk(CRC_31, 248) {}

  // ---------------------------------------------------------------- the table-driven form

  lemma {:induction false} ShiftXor(x: bv32, y: bv32)
    ensures (x ^ y) >> 1 == (x >> 1) ^ (y >> 1)
  {
  }

  lemma {:induction false} Odd(x: bv32)
    ensures x & 1 == 0 || x & 1 == 1
  {
  }

  lemma {:induction false} OddXor(x: bv32, y: bv32)
    ensures (x ^ y) & 1 == (x & 1) ^ (y & 1)
  {
  }

  lemma {:induction false} XorOnce(x: bv32, y: bv32, p: bv32)
    ensures (x ^ p) ^ y == (x ^ y) ^ p && x ^ (y ^ p) == (x ^ y) ^ p
  {
  }

  lemma {:induction false} XorTwice(x: bv32, y: bv32, p: bv32)
    ensures (x ^ p) ^ (y ^ p) == x ^ y
  {
  }

  lemma {:induction false} BitXor(x: bv32, y: bv32)
    ensures Bit(Xor(x, y)) == Xor(Bit(x), Bit(y))
  {
    ShiftXor(x, y);
    OddXor(x, y);
    Odd(x);
    Odd(y);
    XorOnce(x >> 1, y >> 1, 0xedb88320);
    XorTwice(x >> 1, y >> 1, 0xedb88320);
  }

  /** Shifting a byte out is linear. */
  lemma {:induction false} EightXor(x: bv32, y: bv32)
    ensures Eight(Xor(x, y)) == Xor(Eight(x), Eight(y))
  {
    hide Bit, Xor;
    BitXor(x, y);
    var x1, y1 := Bit(x), Bit(y);
    BitXor(x1, y1);
    var x2, y2 := Bit(x1), Bit(y1);
    BitXor(x2, y2);
    var x3, y3 := Bit(x2), Bit(y2);
    BitXor(x3, y3);
    var x4, y4 := Bit(x3), Bit(y3);
    BitXor(x4, y4);
    var x5, y5 := Bit(x4), Bit(y4);
    BitXor(x5, y5);
    var x6, y6 := Bit(x5), Bit(y5);
    BitXor(x6, y6);
    BitXor(Bit(x6), Bit(y6));
  }

  function LowByte(x: bv32): bv32 { x & 0xff }
  function HighBytes(x: bv32): bv32 { x & 0xffffff00 }
  function Shifted(x: bv32): bv32 { x >> 8 }
  function LowBits(x: bv32): bv8 { (x & 0xff) as bv8 }

  lemma {:induction false} EightHigh(x: bv32)
    ensures Eight(HighBytes(x)) == Shifted(x)
  {
  }

  lemma {:induction false} SplitLow(x: bv32)
    ensures x == Xor(LowByte(x), HighBytes(x))
  {
  }

  /** Only the low byte goes through the table. */
  lemma {:induction false} EightSplit(x: bv32)
    ensures Eight(x) == Xor(Eight(LowByte(x)), Shifted(x))
  {
    hide Eight, Xor, LowByte, HighBytes, Shifted;
    SplitLow(x);
    EightXor(LowByte(x), HighBytes(x));
    EightHigh(x);
  }

  lemma {:induction false} XorByte(c: bv32, b: bv8)
    ensures Shifted(Xor(c, Widen(b))) == Shifted(c)
  {
  }

  /** crc_table */
  function Entry(i: bv8): bv32
  {
    var r := CrcRow((i as int) / 8);
    if (i as int) % 8 < |r| then r[(i as int) % 8] else 0
  }

  lemma {:induction false} RowsOk(r: nat)
    requires r < 32
    ensures RowOk(CrcRow(r), 8 * r)
  {
    hide RowOk, Eight;
    match r {
      case 0 => Row0();
      case 1 => Row1();
      case 2 => Row2();
      case 3 => Row3();
      case 4 => Row4();
      case 5 => Row5();
      case 6 => Row6();
      case 7 => Row7();
      case 8 => Row8();
      case 9 => Row9();
      case 10 => Row10();
      case 11 => Row11();
      case 12 => Row12();
      case 13 => Row13();
      case 14 => Row14();
      case 15 => Row15();
      case 16 => Row16();
      case 17 => Row17();
      case 18 => Row18();
      case 19 => Row19();
      case 20 => Row20();
      case 21 => Row21();
      case 22 => Row22();
      case 23 => Row23();
      case 24 => Row24();
      case 25 => Row25();
      case 26 => Row26();
      case 27 => Row27();
      case 28 => Row28();
      case 29 => Row29();
      case 30 => Row30();
      case 31 => Row31();
    }
  }

  lemma {:induction false} InRow(t: seq<bv32>, base: nat, c: nat)
    requires c < 8 && RowOk(t, base)
    ensures t[c] == Eight(Word(base + c))
  {
    hide Eight, Word;
  }

  lemma {:induction false} WordOf(i: bv8)
    ensures Word(i as int) == Widen(i)
  {
    Again(i);
    hide Widen;
  }

  lemma {:induction false} Again(i: bv8)
    ensures (i as int) as bv8 == i
  {
  }

  /** Every entry of the table is what shifting its index out gives. */
  lemma {:induction false} EntryIs(i: bv8)
    ensures Entry(i) == Eight(Widen(i))
  {
    var r, c := (i as int) / 8, (i as int) % 8;
    hide Eight, CrcRow, Word, Widen;
    RowsOk(r);
    InRow(CrcRow(r), 8 * r, c);
    WordOf(i);
  }

  /** CRC_DO1 */
  function Do1(crc: bv32, b: bv8): bv32 { Xor(Entry(LowBits(Xor(crc, Widen(b)))), Shifted(crc)) }

  lemma {:induction false} LowIs(x: bv32)
    ensures Widen(LowBits(x)) == LowByte(x)
  {
  }

  /** One lookup does the work of eight shifts. */
  lemma {:induction false} Do1Is(crc: bv32, b: bv8)
    ensures Do1(crc, b) == Feed(crc, b)
  {
    hide Eight, Entry, Xor, Widen, LowBits, LowByte, Shifted;
    var x := Xor(crc, Widen(b));
    EntryIs(LowBits(x));
    LowIs(x);
    EightSplit(x);
    XorByte(crc, b);
  }

  function Do2(c: bv32, buf: seq<bv8>, i: nat): bv32
    requires i + 2 <= |buf|
  {
    Do1(Do1(c, buf[i]), buf[i + 1])
  }

  function Do4(c: bv32, buf: seq<bv8>, i: nat): bv32
    requires i + 4 <= |buf|
  {
    Do2(Do2(c, buf, i), buf, i + 2)
  }

  function Do8(c: bv32, buf: seq<bv8>, i: nat): bv32
    requires i + 8 <= |buf|
  {
    Do4(Do4(c, buf, i), buf, i + 4)
  }

  lemma {:induction false} FeedSlices(c: bv32, buf: seq<bv8>, i: nat, j: nat, k: nat)
    requires i <= j <= k <= |buf|
    ensures FeedAll(c, buf[i..k]) == FeedAll(FeedAll(c, buf[i..j]), buf[j..k])
  {
    assert buf[i..k] == buf[i..j] + buf[j..k];
    FeedAppend(c, buf[i..j], buf[j..k]);
  }

  lemma {:induction false} One(c: bv32, buf: seq<bv8>, i: nat)
    requires i < |buf|
    ensures FeedAll(c, buf[i..i + 1]) == Do1(c, buf[i])
  {
    hide Feed, Do1;
    Do1Is(c, buf[i]);
    assert buf[i..i + 1] == [buf[i]] && [buf[i]][1..] == [];
  }

  lemma {:induction false} Two(c: bv32, buf: seq<bv8>, i: nat)
    requires i + 2 <= |buf|
    ensures Do2(c, buf, i) == FeedAll(c, buf[i..i + 2])
  {
    hide FeedAll, Do1;
    FeedSlices(c, buf, i, i + 1, i + 2);
    One(c, buf, i);
    One(Do1(c, buf[i]), buf, i + 1);
  }

  lemma {:induction false} Four(c: bv32, buf: seq<bv8>, i: nat)
    requires i + 4 <= |buf|
    ensures Do4(c, buf, i) == FeedAll(c, buf[i..i + 4])
  {
    hide FeedAll, Do2;
    FeedSlices(c, buf, i, i + 2, i + 4);
    Two(c, buf, i);
    Two(Do2(c, buf, i), buf, i + 2);
  }

  /** The unrolled eight steps are eight steps. */
  lemma {:induction false} EightSteps(c: bv32, buf: seq<bv8>, i: nat)
    requires i + 8 <= |buf|
    ensures Do8(c, buf, i) == FeedAll(c, buf[i..i + 8])
  {
    hide FeedAll, Do4;
    FeedSlices(c, buf, i, i + 4, i + 8);
    Four(c, buf, i);
    Four(Do4(c, buf, i), buf, i + 4);
  }

  lemma {:induction false} FeedNone(c: bv32, buf: seq<bv8>)
    ensures FeedAll(c, buf[..0]) == c && buf[..|buf|] == buf
  {
  }

  /** ucrc32 */
  method Ucrc32(crc0: bv32, ptr: Buf<bv8>) returns (r: bv32)
    ensures r == if ptr.NoBuf? then 0 else Crc32(crc0, ptr.data)
  {
    hide *;
    if ptr.NoBuf? { return 0; }
    var buf := ptr.data;
    var crc := Not(crc0);
    ghost var c0 := crc;
    var p, len := 0, |buf|;
    FeedNone(c0, buf);
    while len >= 8
      invariant 0 <= p && 0 <= len && p + len == |buf| && crc == FeedAll(c0, buf[..p])
    {
      EightSteps(crc, buf, p);
      FeedSlices(c0, buf, 0, p, p + 8);
      crc := Do8(crc, buf, p);
      p := p + 8;
      len := len - 8;
    }
    while len > 0
      invariant 0 <= p && 0 <= len && p + len == |buf| && crc == FeedAll(c0, buf[..p])
    {
      One(crc, buf, p);
      FeedSlices(c0, buf, 0, p, p + 1);
      crc := Do1(crc, buf[p]);
      p := p + 1;
      len := len - 1;
    }
    r := Not(crc);
    CrcIs(crc0, buf);
  }

  lemma {:induction false} CrcIs(crc: bv32, buf: seq<bv8>)
    ensures Crc32(crc, buf) == Not(FeedAll(Not(crc), buf))
  {
  }

  // ---------------------------------------------------------------- what the checksum is, without its definition

  /** A word as four bytes, the lowest first. */
  function Bytes4(c: bv32): seq<bv8>
  {
    [LowBits(c), LowBits(c >> 8), LowBits(c >> 16), LowBits(c >> 24)]
  }

  /** A byte that is fed when register and message differ in all bits but for those of k: the low byte that goes through the table,
      and what is left of the register. */
  lemma {:induction false} Differ(x: bv32, k: bv32, b: bv8)
    requires b == LowBits(Xor(x, 0xffffffff))
    ensures LowByte(Xor(Xor(x, k), Widen(b))) == LowByte(Xor(k, 0xff))
    ensures Shifted(Xor(Xor(x, k), Widen(b))) == Xor(Shifted(x), Shifted(k))
  {
    hide *;
    WidenLow(Xor(x, 0xffffffff));
    LowDiffers(x, k);
    XorByte(Xor(x, k), b);
    ShiftedXor(x, k);
  }

  lemma {:induction false} WidenLow(y: bv32)
    ensures Widen(LowBits(y)) == LowByte(y)
  {
  }

  lemma {:induction false} LowDiffers(x: bv32, k: bv32)
    ensures LowByte(Xor(Xor(x, k), LowByte(Xor(x, 0xffffffff)))) == LowByte(Xor(k, 0xff))
  {
  }

  lemma {:induction false} ShiftedXor(x: bv32, k: bv32)
    ensures Shifted(Xor(x, k)) == Xor(Shifted(x), Shifted(k))
  {
  }

  lemma {:induction false} XorSwap(e: bv32, x: bv32, k: bv32)
    ensures Xor(e, Xor(x, k)) == Xor(x, Xor(e, k))
  {
  }

  lemma {:induction false} FeedIs(c: bv32, b: bv8)
    ensures Feed(c, b) == Eight(Xor(c, Widen(b)))
  {
  }

  /** With k2 for what the byte makes of k. */
  lemma {:induction false} DifferFeed(x: bv32, k: bv32, k2: bv32, b: bv8)
    requires b == LowBits(Xor(x, 0xffffffff)) && k2 == Xor(Eight(LowByte(Xor(k, 0xff))), Shifted(k))
    ensures Feed(Xor(x, k), b) == Xor(Shifted(x), k2)
  {
    hide *;
    FeedIs(Xor(x, k), b);
    Differ(x, k, b);
    EightSplit(Xor(Xor(x, k), Widen(b)));
    XorSwap(Eight(LowByte(Xor(k, 0xff))), Shifted(x), Shifted(k));
  }

  /** The four constants. */
  lemma {:induction false} Constants()
    ensures Xor(Eight(LowByte(Xor(0, 0xff))), Shifted(0)) == 0x2d02ef8d
    ensures Xor(Eight(LowByte(Xor(0x2d02ef8d, 0xff))), Shifted(0x2d02ef8d)) == 0xbe2612ff
    ensures Xor(Eight(LowByte(Xor(0xbe2612ff, 0xff))), Shifted(0xbe2612ff)) == 0xbe2612
    ensures Xor(Eight(LowByte(Xor(0xbe2612, 0xff))), Shifted(0xbe2612)) == 0xdebb20e3
  {
  }

  lemma {:induction false} Complements(s: bv32)
    ensures Bytes4(Xor(s, 0xffffffff)) == [LowBits(Xor(s, 0xffffffff)), LowBits(Xor(Shifted(s), 0xffffffff)),
              LowBits(Xor(Shifted(Shifted(s)), 0xffffffff)), LowBits(Xor(Shifted(Shifted(Shifted(s))), 0xffffffff))]
    ensures Xor(Shifted(Shifted(Shifted(Shifted(s)))), 0xdebb20e3) == 0xdebb20e3 && Xor(s, 0) == s
  {
  }

  lemma {:induction false} FeedOne(c: bv32, a: bv8)
    ensures FeedAll(c, [a]) == Feed(c, a)
  {
    hide Feed;
    assert [a][1..] == [];
  }

  lemma {:induction false} FeedTwo(c: bv32, a: bv8, b: bv8)
    ensures FeedAll(c, [a, b]) == Feed(Feed(c, a), b)
  {
    hide Feed, FeedAll;
    assert [a, b] == [a] + [b];
    FeedAppend(c, [a], [b]);
    FeedOne(c, a);
    FeedOne(Feed(c, a), b);
  }

  lemma {:induction false} FeedFour(c: bv32, a: bv8, b: bv8, d: bv8, e: bv8)
    ensures FeedAll(c, [a, b, d, e]) == Feed(Feed(Feed(Feed(c, a), b), d), e)
  {
    hide Feed, FeedAll;
    assert [a, b, d, e] == [a, b] + [d, e];
    FeedAppend(c, [a, b], [d, e]);
    FeedTwo(c, a, b);
    FeedTwo(Feed(Feed(c, a), b), d, e);
  }

  lemma {:induction false} FeedComplement(s: bv32)
    ensures FeedAll(s, Bytes4(Xor(s, 0xffffffff))) == 0xdebb20e3
  {
    hide *;
    Constants();
    Complements(s);
    var s1, s2, s3 := Shifted(s), Shifted(Shifted(s)), Shifted(Shifted(Shifted(s)));
    var b0, b1, b2, b3 := LowBits(Xor(s, 0xffffffff)), LowBits(Xor(s1, 0xffffffff)), LowBits(Xor(s2, 0xffffffff)), LowBits(Xor(s3, 0xffffffff));
    DifferFeed(s, 0, 0x2d02ef8d, b0);
    DifferFeed(s1, 0x2d02ef8d, 0xbe2612ff, b1);
    DifferFeed(s2, 0xbe2612ff, 0xbe2612, b2);
    DifferFeed(s3, 0xbe2612, 0xdebb20e3, b3);
    FeedFour(s, b0, b1, b2, b3);
  }

  lemma {:induction false} NotIs(s: bv32)
    ensures Not(s) == Xor(s, 0xffffffff)
    ensures Not(0xdebb20e3) == 0x2144df1c
  {
  }

  /** The CRC of any buffer that is followed by its own CRC, lowest byte first, is one constant. */
  lemma {:induction false} OwnCrc(crc: bv32, data: seq<bv8>)
    ensures Crc32(crc, data + Bytes4(Crc32(crc, data))) == 0x2144df1c
  {
    hide FeedAll, Bytes4, Not, Xor;
    FeedAppend(Not(crc), data, Bytes4(Crc32(crc, data)));
    FeedComplement(FeedAll(Not(crc), data));
    NotIs(FeedAll(Not(crc), data));
  }

  lemma {:induction false} DigitsFed()
    ensures Feed(0xffffffff, 0x31) == 0x7c231048 && Feed(0x7c231048, 0x32) == 0xb0acbb32 && Feed(0xb0acbb32, 0x33) == 0x77b79c2d
    ensures Feed(0x77b79c2d, 0x34) == 0x641c1f5c && Feed(0x641c1f5c, 0x35) == 0x340ac5e3 && Feed(0x340ac5e3, 0x36) == 0xf68d2c9e
    ensures Feed(0xf68d2c9e, 0x37) == 0xaffc9660 && Feed(0xaffc9660, 0x38) == 0x651f2550 && Feed(0x651f2550, 0x39) == 0x340bc6d9
  {
  }

  /** The CRC of the nine digits. */
  lemma {:induction false} NineDigits()
    ensures Crc32(0, [0x31, 0x32, 0x33, 0x34, 0x35, 0x36, 0x37, 0x38, 0x39]) == 0xcbf43926
  {
    DigitsFed();
    hide Feed, FeedAll;
    var a, b, c: seq<bv8> := [0x31, 0x32, 0x33, 0x34], [0x35, 0x36, 0x37, 0x38], [0x39];
    assert [0x31, 0x32, 0x33, 0x34, 0x35, 0x36, 0x37, 0x38, 0x39] == a + (b + c);
    FeedAppend(0xffffffff, a, b + c);
    FeedFour(0xffffffff, 0x31, 0x32, 0x33, 0x34);
    FeedAppend(0x641c1f5c, b, c);
    FeedFour(0x641c1f5c, 0x35, 0x36, 0x37, 0x38);
    FeedOne(0x651f2550, 0x39);
  }
}
