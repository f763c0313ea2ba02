/** bitreverse16 and bit_reverse of DuiLib/stb_image.c: reversal by masks and shifts. */
module BitReversal {
  import opened Bits

  function Swap1(n: nat): nat { Or(Shr(And(n, 0xAAAA), 1), Shl(And(n, 0x5555), 1)) }
  function Swap2(n: nat): nat { Or(Shr(And(n, 0xCCCC), 2), Shl(And(n, 0x3333), 2)) }
  function Swap4(n: nat): nat { Or(Shr(And(n, 0xF0F0), 4), Shl(And(n, 0x0F0F), 4)) }
  function Swap8(n: nat): nat { Or(Shr(And(n, 0xFF00), 8), Shl(And(n, 0x00FF), 8)) }

  function BitReverse16(n: nat): nat
  {
    Swap8(Swap4(Swap2(Swap1(n))))
  }

  function BitReverse(v: nat, bits: nat): nat
    requires bits <= 16
  {
    Shr(BitReverse16(v), 16 - bits)
  }

  function Bit(v: nat, i: nat): (b: nat)
    ensures b < 2
  {
    Shr(v, i) % 2
  }

  lemma {:induction false} BitAnd(x: nat, y: nat, i: nat)
    ensures Bit(And(x, y), i) == Bit(x, i) * Bit(y, i)
  {
    if x == 0 || y == 0 {
      ShrZero(0, i);
    } else if i > 0 {
      var b := (x % 2) * (y % 2);
      assert b == 0 || b == 1;
      BitAnd(x / 2, y / 2, i - 1);
      assert And(x, y) / 2 == And(x / 2, y / 2);
    }
  }

  lemma {:induction false} BitOr(x: nat, y: nat, i: nat)
    ensures Bit(Or(x, y), i) == if Bit(x, i) == 1 || Bit(y, i) == 1 then 1 else 0
    decreases i
  {
    if x == 0 || y == 0 {
      ShrZero(0, i);
    } else {
      var bit := if x % 2 == 1 || y % 2 == 1 then 1 else 0;
      var rest := Or(x / 2, y / 2);
      assert Or(x, y) == bit + 2 * rest;
      hide Or;
      if i > 0 {
        BitOr(x / 2, y / 2, i - 1);
        assert Shr(Or(x, y), i) == Shr(rest, i - 1);
      }
    }
  }

  lemma {:induction false} BitShift(v: nat, s: nat, i: nat)
    ensures Bit(Shr(v, s), i) == Bit(v, s + i)
    ensures Bit(Shl(v, s), i) == if i < s then 0 else Bit(v, i - s)
  {
    ShrShr(v, s, i);
    ShlOne(s);
    Join(0, v, s);
    assert 0 + Shl(v, s) == Shl(v, s);
    if i < s {
      ShrLow(Shl(v, s), s, i);
      ShrZero(0, i);
      assert Low(Shr(Shl(v, s), i), s - i) == 0;
    } else {
      ShrShr(Shl(v, s), s, i - s);
    }
  }

  lemma {:induction false} BitRev(v: nat, n: nat, i: nat)
    requires i < n
    ensures Bit(Rev(v, n), i) == Bit(v, n - 1 - i)
  {
    if i > 0 {
      assert Rev(v, n) / 2 == Rev(v, n - 1);
      BitRev(v, n - 1, i - 1);
    }
  }

  lemma {:induction false} SameBits(x: nat, y: nat, n: nat)
    requires forall i :: 0 <= i < n ==> Bit(x, i) == Bit(y, i)
    ensures Low(x, n) == Low(y, n)
  {
    if n > 0 {
      SameBits(x, y, n - 1);
      ShrSucc(x, n - 1);
      ShrSucc(y, n - 1);
      assert Bit(x, n - 1) == Bit(y, n - 1);
    }
  }

  lemma {:induction false} SwapBit(n: nat, hi: nat, lo: nat, s: nat, i: nat)
    ensures Bit(Or(Shr(And(n, hi), s), Shl(And(n, lo), s)), i) ==
            if Bit(n, i + s) * Bit(hi, i + s) == 1 || (i >= s && Bit(n, i - s) * Bit(lo, i - s) == 1) then 1 else 0
  {
    BitOr(Shr(And(n, hi), s), Shl(And(n, lo), s), i);
    BitShift(And(n, hi), s, i);
    BitShift(And(n, lo), s, i);
    BitAnd(n, hi, i + s);
    if i >= s { BitAnd(n, lo, i - s); }
  }

  lemma {:induction false} BitNibble(v: nat, d: nat, i: nat)
    requires i < 4
    ensures Bit(v, d + i) == Bit(Low(Shr(v, d), 4), i)
  {
    hide Shr, Low;
    ShrShr(v, d, i);
    ShrLow(Shr(v, d), 4, i);
    LowParity(Shr(v, d + i), 4 - i);
  }

  lemma {:induction false} NibbleBits(i: nat)
    requires i < 4
    ensures Bit(0x0, i) == 0 && Bit(0xF, i) == 1
    ensures Bit(0xA, i) == (if i == 1 || i == 3 then 1 else 0) && Bit(0x5, i) == (if i == 1 || i == 3 then 0 else 1)
    ensures Bit(0xC, i) == (if i >= 2 then 1 else 0) && Bit(0x3, i) == (if i >= 2 then 0 else 1)
  {
    if i == 0 {} else if i == 1 {} else if i == 2 {
      assert Shr(0x0, 2) == 0 && Shr(0xF, 2) == 3 && Shr(0xA, 2) == 2 && Shr(0x5, 2) == 1 && Shr(0xC, 2) == 3 && Shr(0x3, 2) == 0;
    } else {
      assert Shr(0x0, 3) == 0 && Shr(0xF, 3) == 1 && Shr(0xA, 3) == 1 && Shr(0x5, 3) == 0 && Shr(0xC, 3) == 1 && Shr(0x3, 3) == 0;
    }
  }

  lemma {:induction false} Digits1()
    ensures Low(Shr(0xAAAA, 0), 4) == 0xa && Low(Shr(0x5555, 0), 4) == 0x5
    ensures Low(Shr(0xAAAA, 4), 4) == 0xa && Low(Shr(0x5555, 4), 4) == 0x5
    ensures Low(Shr(0xAAAA, 8), 4) == 0xa && Low(Shr(0x5555, 8), 4) == 0x5
    ensures Low(Shr(0xAAAA, 12), 4) == 0xa && Low(Shr(0x5555, 12), 4) == 0x5
  {
    assert Shr(0xAAAA, 4) == 0xaaa && Shr(0x5555, 4) == 0x555;
    assert Shr(0xAAAA, 8) == 0xaa && Shr(0x5555, 8) == 0x55;
    ShrShr(0xAAAA, 8, 4);
    ShrShr(0x5555, 8, 4);
  }

  lemma {:induction false} MaskBits1(d: nat, i: nat)
    requires d in {0, 4, 8, 12} && i < 4
    ensures Bit(0xAAAA, d + i) == (if (d + i) % 2 < 1 then 0 else 1)
    ensures Bit(0x5555, d + i) == (if (d + i) % 2 < 1 then 1 else 0)
  {
    hide *;
    Digits1();
    BitNibble(0xAAAA, d, i);
    BitNibble(0x5555, d, i);
    NibbleBits(i);
  }

  lemma {:induction false} Digits2()
    ensures Low(Shr(0xCCCC, 0), 4) == 0xc && Low(Shr(0x3333, 0), 4) == 0x3
    ensures Low(Shr(0xCCCC, 4), 4) == 0xc && Low(Shr(0x3333, 4), 4) == 0x3
    ensures Low(Shr(0xCCCC, 8), 4) == 0xc && Low(Shr(0x3333, 8), 4) == 0x3
    ensures Low(Shr(0xCCCC, 12), 4) == 0xc && Low(Shr(0x3333, 12), 4) == 0x3
  {
    assert Shr(0xCCCC, 4) == 0xccc && Shr(0x3333, 4) == 0x333;
    assert Shr(0xCCCC, 8) == 0xcc && Shr(0x3333, 8) == 0x33;
    ShrShr(0xCCCC, 8, 4);
    ShrShr(0x3333, 8, 4);
  }

  lemma {:induction false} MaskBits2(d: nat, i: nat)
    requires d in {0, 4, 8, 12} && i < 4
    ensures Bit(0xCCCC, d + i) == (if (d + i) % 4 < 2 then 0 else 1)
    ensures Bit(0x3333, d + i) == (if (d + i) % 4 < 2 then 1 else 0)
  {
    hide *;
    Digits2();
    BitNibble(0xCCCC, d, i);
    BitNibble(0x3333, d, i);
    NibbleBits(i);
  }

  lemma {:induction false} Digits4()
    ensures Low(Shr(0xF0F0, 0), 4) == 0x0 && Low(Shr(0x0F0F, 0), 4) == 0xf
    ensures Low(Shr(0xF0F0, 4), 4) == 0xf && Low(Shr(0x0F0F, 4), 4) == 0x0
    ensures Low(Shr(0xF0F0, 8), 4) == 0x0 && Low(Shr(0x0F0F, 8), 4) == 0xf
    ensures Low(Shr(0xF0F0, 12), 4) == 0xf && Low(Shr(0x0F0F, 12), 4) == 0x0
  {
    assert Shr(0xF0F0, 4) == 0xf0f && Shr(0x0F0F, 4) == 0xf0;
    assert Shr(0xF0F0, 8) == 0xf0 && Shr(0x0F0F, 8) == 0xf;
    ShrShr(0xF0F0, 8, 4);
    ShrShr(0x0F0F, 8, 4);
  }

  lemma {:induction false} MaskBits4(d: nat, i: nat)
    requires d in {0, 4, 8, 12} && i < 4
    ensures Bit(0xF0F0, d + i) == (if (d + i) % 8 < 4 then 0 else 1)
    ensures Bit(0x0F0F, d + i) == (if (d + i) % 8 < 4 then 1 else 0)
  {
    hide *;
    Digits4();
    BitNibble(0xF0F0, d, i);
    BitNibble(0x0F0F, d, i);
    NibbleBits(i);
  }

  lemma {:induction false} Digits8()
    ensures Low(Shr(0xFF00, 0), 4) == 0x0 && Low(Shr(0x00FF, 0), 4) == 0xf
    ensures Low(Shr(0xFF00, 4), 4) == 0x0 && Low(Shr(0x00FF, 4), 4) == 0xf
    ensures Low(Shr(0xFF00, 8), 4) == 0xf && Low(Shr(0x00FF, 8), 4) == 0x0
    ensures Low(Shr(0xFF00, 12), 4) == 0xf && Low(Shr(0x00FF, 12), 4) == 0x0
  {
    assert Shr(0xFF00, 4) == 0xff0 && Shr(0x00FF, 4) == 0xf;
    assert Shr(0xFF00, 8) == 0xff && Shr(0x00FF, 8) == 0x0;
    ShrShr(0xFF00, 8, 4);
    ShrShr(0x00FF, 8, 4);
  }

  lemma {:induction false} MaskBits8(d: nat, i: nat)
    requires d in {0, 4, 8, 12} && i < 4
    ensures Bit(0xFF00, d + i) == (if (d + i) % 16 < 8 then 0 else 1)
    ensures Bit(0x00FF, d + i) == (if (d + i) % 16 < 8 then 1 else 0)
  {
    hide *;
    Digits8();
    BitNibble(0xFF00, d, i);
    BitNibble(0x00FF, d, i);
    NibbleBits(i);
  }

  lemma {:induction false} Below16(x: nat, i: nat)
    requires x < 0x10000 && i >= 16
    ensures Bit(x, i) == 0
  {
    Pow2Mono(16, i);
    Pow2Values();
    ShrZero(x, i);
  }

  lemma {:induction false} Swap1Bit(n: nat, i: nat)
    requires i < 16
    ensures Bit(Swap1(n), i) == Bit(n, if i % 2 < 1 then i + 1 else i - 1)
  {
    hide Bit, And, Or, Shr, Shl;
    SwapBit(n, 0xAAAA, 0x5555, 1, i);
    var up, down := i + 1, i - 1;
    if up < 16 { MaskBits1(up / 4 * 4, up % 4); } else { Below16(0xAAAA, up); }
    if i >= 1 { MaskBits1(down / 4 * 4, down % 4); }
  }

  lemma {:induction false} Swap2Bit(n: nat, i: nat)
    requires i < 16
    ensures Bit(Swap2(n), i) == Bit(n, if i % 4 < 2 then i + 2 else i - 2)
  {
    hide Bit, And, Or, Shr, Shl;
    SwapBit(n, 0xCCCC, 0x3333, 2, i);
    var up, down := i + 2, i - 2;
    if up < 16 { MaskBits2(up / 4 * 4, up % 4); } else { Below16(0xCCCC, up); }
    if i >= 2 { MaskBits2(down / 4 * 4, down % 4); }
  }

  lemma {:induction false} Swap4Bit(n: nat, i: nat)
    requires i < 16
    ensures Bit(Swap4(n), i) == Bit(n, if i % 8 < 4 then i + 4 else i - 4)
  {
    hide Bit, And, Or, Shr, Shl;
    SwapBit(n, 0xF0F0, 0x0F0F, 4, i);
    var up, down := i + 4, i - 4;
    if up < 16 { MaskBits4(up / 4 * 4, up % 4); } else { Below16(0xF0F0, up); }
    if i >= 4 { MaskBits4(down / 4 * 4, down % 4); }
  }

  lemma {:induction false} Swap8Bit(n: nat, i: nat)
    requires i < 16
    ensures Bit(Swap8(n), i) == Bit(n, if i % 16 < 8 then i + 8 else i - 8)
  {
    hide Bit, And, Or, Shr, Shl;
    SwapBit(n, 0xFF00, 0x00FF, 8, i);
    var up, down := i + 8, i - 8;
    if up < 16 { MaskBits8(up / 4 * 4, up % 4); } else { Below16(0xFF00, up); }
    if i >= 8 { MaskBits8(down / 4 * 4, down % 4); }
  }

  lemma {:induction false} AndBelow(x: nat, y: nat)
    ensures And(x, y) <= y
  {
    if x != 0 && y != 0 { AndBelow(x / 2, y / 2); }
  }

  lemma {:induction false} OrBelow(x: nat, y: nat, n: nat)
    requires x < Pow2(n) && y < Pow2(n)
    ensures Or(x, y) < Pow2(n)
  {
    if x != 0 && y != 0 { OrBelow(x / 2, y / 2, n - 1); }
  }

  lemma {:induction false} ReversedBit(n: nat, i: nat)
    requires i < 16
    ensures Bit(BitReverse16(n), i) == Bit(n, 15 - i)
  {
    hide Bit, Swap1, Swap2, Swap4, Swap8;
    Swap8Bit(Swap4(Swap2(Swap1(n))), i);
    var i8 := if i < 8 then i + 8 else i - 8;
    Swap4Bit(Swap2(Swap1(n)), i8);
    var i4 := if i8 % 8 < 4 then i8 + 4 else i8 - 4;
    Swap2Bit(Swap1(n), i4);
    var i2 := if i4 % 4 < 2 then i4 + 2 else i4 - 2;
    Swap1Bit(n, i2);
  }

  lemma {:induction false} ReversedBelow(n: nat)
    ensures BitReverse16(n) < Pow2(16)
  {
    var c := Swap4(Swap2(Swap1(n)));
    AndBelow(c, 0xFF00);
    AndBelow(c, 0x00FF);
    Pow2Values();
    ShlMul(And(c, 0x00FF), 8);
    OrBelow(Shr(And(c, 0xFF00), 8), Shl(And(c, 0x00FF), 8), 16);
  }

  /** The mask-and-shift reversal is the reversal of the low sixteen bits. */
  lemma {:induction false} BitReverse16IsRev(n: nat)
    ensures BitReverse16(n) == Rev(n, 16)
  {
    var r := BitReverse16(n);
    forall i | 0 <= i < 16 ensures Bit(r, i) == Bit(Rev(n, 16), i) {
      ReversedBit(n, i);
      BitRev(n, 16, i);
    }
    SameBits(r, Rev(n, 16), 16);
    ReversedBelow(n);
    ShrZero(r, 16);
    ShrZero(Rev(n, 16), 16);
  }

  /** bit_reverse(v, bits) reverses a code of that many bits. */
  lemma {:induction false} BitReverseIsRev(v: nat, bits: nat)
    requires bits <= 16
    ensures BitReverse(v, bits) == Rev(v, bits)
  {
    BitReverse16IsRev(v);
    TopOfRev(v, bits, 16);
  }
}
