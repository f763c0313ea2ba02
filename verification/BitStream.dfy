/** Bit strings, and byte strings read as one number with the first bit least significant. */
module BitStream {
  import opened Bits

  /** The number whose bits, least significant first, are bs. */
  function BitsVal(bs: seq<bool>): (v: nat)
    ensures v < Pow2(|bs|)
  {
    if bs == [] then 0 else (if bs[0] then 1 else 0) + 2 * BitsVal(bs[1..])
  }

  /** n bits of v, least significant first: how RFC 1951 packs numbers. */
  function LsbBits(v: nat, n: nat): (bs: seq<bool>)
    ensures |bs| == n
  {
    if n == 0 then [] else [v % 2 == 1] + LsbBits(v / 2, n - 1)
  }

  /** n bits of v, most significant first: how RFC 1951 packs Huffman codes. */
  function MsbBits(v: nat, n: nat): (bs: seq<bool>)
    ensures |bs| == n
  {
    if n == 0 then [] else MsbBits(v / 2, n - 1) + [v % 2 == 1]
  }

  /** The stream v begins with the bits bs. */
  ghost predicate Begins(v: nat, bs: seq<bool>)
  {
    Low(v, |bs|) == BitsVal(bs)
  }

  function BytesVal(data: seq<byte>): nat
  {
    if data == [] then 0 else data[0] + 256 * BytesVal(data[1..])
  }

  lemma {:induction false} BitsValAppend(a: seq<bool>, b: seq<bool>)
    ensures BitsVal(a + b) == BitsVal(a) + Shl(BitsVal(b), |a|)
  {
    if a == [] {
      assert a + b == b;
    } else {
      assert (a + b)[1..] == a[1..] + b;
      BitsValAppend(a[1..], b);
    }
  }

  lemma {:induction false} BeginsAppend(v: nat, a: seq<bool>, b: seq<bool>)
    ensures Begins(v, a + b) <==> Begins(v, a) && Begins(Shr(v, |a|), b)
  {
    hide BitsVal, Low, Shl, Shr, Pow2;
    BitsValAppend(a, b);
    LowAppend(v, |a|, |b|);
    Join(BitsVal(a), BitsVal(b), |a|);
    Join(Low(v, |a|), Low(Shr(v, |a|), |b|), |a|);
  }

  lemma {:induction false} BeginsLsb(v: nat, x: nat, n: nat)
    requires Begins(v, LsbBits(x, n)) && x < Pow2(n)
    ensures Low(v, n) == x
  {
    LsbVal(x, n);
    ShrZero(x, n);
  }

  lemma {:induction false} LsbVal(x: nat, n: nat)
    ensures BitsVal(LsbBits(x, n)) == Low(x, n)
  {
    if n > 0 {
      LsbVal(x / 2, n - 1);
      assert LsbBits(x, n)[1..] == LsbBits(x / 2, n - 1);
    }
  }

  lemma {:induction false} MsbVal(c: nat, n: nat)
    ensures BitsVal(MsbBits(c, n)) == Rev(c, n)
  {
    if n > 0 {
      MsbVal(c / 2, n - 1);
      var lo := if c % 2 == 1 then 1 else 0;
      BitsValAppend(MsbBits(c / 2, n - 1), [c % 2 == 1]);
      assert BitsVal([c % 2 == 1]) == lo;
      ShlOne(n - 1);
      RevPrepend(c % 2, c / 2, n - 1);
    }
  }

  /** A stream that begins with a code packed most significant bit first reads as that code. */
  lemma {:induction false} BeginsMsb(v: nat, c: nat, n: nat)
    requires Begins(v, MsbBits(c, n)) && c < Pow2(n)
    ensures Rev(v, n) == c
  {
    MsbVal(c, n);
    RevLow(v, n, n);
    RevRev(c, n);
    ShrZero(c, n);
  }

  /** Byte number i of a byte string, and zero past its end. */
  lemma {:induction false} ByteAt(data: seq<byte>, i: nat)
    ensures Low(Shr(BytesVal(data), 8 * i), 8) == if i < |data| then data[i] else 0
  {
    if data == [] {
      ShrZero(0, 8 * i);
      ShrZero(0, 8);
    } else {
      Pow2Values();
      ShlMul(BytesVal(data[1..]), 8);
      Join(data[0], BytesVal(data[1..]), 8);
      if i > 0 {
        ByteAt(data[1..], i - 1);
        ShrShr(BytesVal(data), 8, 8 * (i - 1));
      }
    }
  }

  /** n bytes of v, least significant first. */
  function ToBytes(v: nat, n: nat): (data: seq<byte>)
    ensures |data| == n
  {
    if n == 0 then [] else [v % 256] + ToBytes(v / 256, n - 1)
  }

  lemma {:induction false} ToBytesBack(v: nat, n: nat)
    ensures BytesVal(ToBytes(v, n)) == Low(v, 8 * n)
  {
    if n > 0 {
      var rest := ToBytes(v / 256, n - 1);
      assert ToBytes(v, n)[1..] == rest;
      ToBytesBack(v / 256, n - 1);
      EightMore(v, n - 1);
    }
  }

  lemma {:induction false} EightMore(v: nat, n: nat)
    ensures Low(v, 8 * (n + 1)) == v % 256 + 256 * Low(v / 256, 8 * n)
  {
    hide *;
    Pow2Values();
    EightBits(v);
    LowAppend(v, 8, 8 * n);
    ShlMul(Low(Shr(v, 8), 8 * n), 8);
  }

  lemma {:induction false} EightBits(v: nat)
    ensures Low(v, 8) == v % 256 && Shr(v, 8) == v / 256
  {
    hide *;
    Pow2Values();
    Split(v, 8);
    ShlMul(Shr(v, 8), 8);
  }

  /** Bits packed into bytes begin those bytes. */
  lemma {:induction false} PackedBegins(bs: seq<bool>, n: nat)
    requires |bs| <= 8 * n
    ensures Begins(BytesVal(ToBytes(BitsVal(bs), n)), bs)
  {
    hide BytesVal, ToBytes, Low, BitsVal, Pow2;
    ToBytesBack(BitsVal(bs), n);
    LowLow(BitsVal(bs), 8 * n, |bs|);
    ShrZero(BitsVal(bs), |bs|);
  }

  /** Two adjacent bytes as one little-endian number. */
  lemma {:induction false} TwoBytes(v: nat)
    ensures Low(v, 16) == Low(v, 8) + 256 * Low(Shr(v, 8), 8)
  {
    hide Low, Shl, Shr, Pow2;
    LowAppend(v, 8, 8);
    ShlMul(Low(Shr(v, 8), 8), 8);
    Pow2Values();
  }

  lemma {:induction false} OrDisjoint(lo: nat, x: nat, n: nat)
    requires lo < Pow2(n)
    ensures Or(lo, Shl(x, n)) == lo + Shl(x, n)
  {
    if n == 0 {
    } else if lo == 0 {
    } else if x == 0 {
      ShlOne(n);
    } else {
      OrDisjoint(lo / 2, x, n - 1);
      assert Shl(x, n) == 2 * Shl(x, n - 1) && Shl(x, n) > 0;
    }
  }

  lemma {:induction false} LowUnfold(v: nat, n: nat)
    requires n > 0
    ensures Low(v, n) == v % 2 + 2 * Low(v / 2, n - 1)
  {
  }

  lemma {:induction false} OrEven(p: nat, q: nat, b: nat, x: nat, y: nat)
    requires b < 2 && p == b + 2 * x && q == 2 * y
    ensures Or(p, q) == b + 2 * Or(x, y)
  {
  }

  lemma {:induction false} OrSame(p: nat, q: nat, b: nat, x: nat, y: nat)
    requires b < 2 && p == b + 2 * x && q == b + 2 * y
    ensures Or(p, q) == b + 2 * Or(x, y)
  {
  }

  lemma {:induction false} OrZero(x: nat)
    ensures Or(x, 0) == x && Or(0, x) == x
  {
  }

  lemma {:induction false} OrLow(v: nat, a: nat, m: nat)
    ensures Or(Low(v, a), Low(v, m)) == Low(v, if a < m then m else a)
  {
    if a == 0 || m == 0 {
      assert Low(v, 0) == 0;
      OrZero(Low(v, a));
      OrZero(Low(v, m));
    } else {
      hide Or, Low, Pow2;
      var b, w := v % 2, v / 2;
      LowUnfold(v, a);
      LowUnfold(v, m);
      OrLow(w, a - 1, m - 1);
      OrSame(Low(v, a), Low(v, m), b, Low(w, a - 1), Low(w, m - 1));
    }
  }

  /** Or-ing a value with agreeing higher bits of the same stream extends it. */
  lemma {:induction false} OrAgree(v: nat, a: nat, n: nat, m: nat)
    requires n <= a
    ensures Or(Low(v, a), Shl(Low(Shr(v, n), m), n)) == Low(v, if a < n + m then n + m else a)
  {
    if n == 0 {
      OrLow(v, a, m);
    } else {
      hide Or, Low, Shl, Shr, Pow2;
      var b, w, x := v % 2, v / 2, Low(Shr(v, n), m);
      OrAgreeStep(v, a, n, m);
      OrAgree(w, a - 1, n - 1, m);
      OrEven(Low(v, a), Shl(x, n), b, Low(w, a - 1), Shl(x, n - 1));
    }
  }

  lemma {:induction false} OrAgreeStep(v: nat, a: nat, n: nat, m: nat)
    requires 0 < n <= a
    ensures Low(v, a) == v % 2 + 2 * Low(v / 2, a - 1)
    ensures Shr(v, n) == Shr(v / 2, n - 1)
    ensures Shl(Low(Shr(v, n), m), n) == 2 * Shl(Low(Shr(v, n), m), n - 1)
    ensures Low(v, n + m) == v % 2 + 2 * Low(v / 2, n - 1 + m)
  {
    hide Low;
    LowUnfold(v, a);
    LowUnfold(v, n + m);
  }

  /** One more byte in the bit buffer. */
  lemma {:induction false} FillStep(data: seq<byte>, pos: nat, n: nat, fetched: nat)
    requires pos + n == 8 * fetched
    ensures var b := if fetched < |data| then data[fetched] else 0;
            Or(Low(Shr(BytesVal(data), pos), n), Shl(b, n)) == Low(Shr(BytesVal(data), pos), n + 8)
  {
    hide Low, Shr, Shl, Or, BytesVal, Pow2;
    var v := BytesVal(data);
    ByteAt(data, fetched);
    ShrShr(v, pos, n);
    LowAppend(Shr(v, pos), n, 8);
    OrDisjoint(Low(Shr(v, pos), n), if fetched < |data| then data[fetched] else 0, n);
  }

  lemma {:induction false} ConsumeStep(v: nat, pos: nat, n: nat, k: nat)
    requires k <= n
    ensures Low(Low(Shr(v, pos), n), k) == Low(Shr(v, pos), k)
    ensures Shr(Low(Shr(v, pos), n), k) == Low(Shr(v, pos + k), n - k)
  {
    hide Low, Shr;
    LowLow(Shr(v, pos), n, k);
    ShrLow(Shr(v, pos), n, k);
    ShrShr(v, pos, k);
  }
}
