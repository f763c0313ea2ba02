/** Natural numbers read as bit strings, least significant bit first.
    A byte stream is one natural number, so a read past its end yields zero bits. */
module Bits {

  /** A pointer to a buffer, which may be null. */
  datatype Buf<T> = NoBuf | Buf(data: seq<T>)

  type byte = b: nat | b < 256

  function Pow2(n: nat): (p: nat)
    ensures p >= 1
  {
    if n == 0 then 1 else 2 * Pow2(n - 1)
  }

  function Least(a: nat, b: nat): nat { if a < b then a else b }

  /** v >> n */
  function Shr(v: nat, n: nat): (r: nat)
    ensures r <= v
  {
    if n == 0 then v else Shr(v / 2, n - 1)
  }

  /** v & ((1 << n) - 1) */
  function Low(v: nat, n: nat): (r: nat)
    ensures r <= v
    ensures r < Pow2(n)
  {
    if n == 0 then 0 else v % 2 + 2 * Low(v / 2, n - 1)
  }

  /** v << n */
  function Shl(v: nat, n: nat): (r: nat)
    ensures r >= v
  {
    if n == 0 then v else 2 * Shl(v, n - 1)
  }

  /** The first n bits of v taken as a number whose first bit is the most significant. */
  function Rev(v: nat, n: nat): (r: nat)
    ensures r < Pow2(n)
  {
    if n == 0 then 0 else 2 * Rev(v, n - 1) + Shr(v, n - 1) % 2
  }

  function And(x: nat, y: nat): nat
  {
    if x == 0 || y == 0 then 0 else (x % 2) * (y % 2) + 2 * And(x / 2, y / 2)
  }

  function Or(x: nat, y: nat): nat
    decreases x + y
  {
    if x == 0 then y else if y == 0 then x else
    (if x % 2 == 1 || y % 2 == 1 then 1 else 0) + 2 * Or(x / 2, y / 2)
  }

  function Xor(x: nat, y: nat): nat
    decreases x + y
  {
    if x == 0 then y else if y == 0 then x else
    (if x % 2 == y % 2 then 0 else 1) + 2 * Xor(x / 2, y / 2)
  }

  lemma {:induction false} Pow2Add(a: nat, b: nat)
    ensures Pow2(a + b) == Pow2(a) * Pow2(b)
  {
    if a > 0 { Pow2Add(a - 1, b); }
  }

  lemma {:induction false} Pow2Mono(a: nat, b: nat)
    requires a <= b
    ensures Pow2(a) <= Pow2(b)
    decreases b
  {
    if a < b { Pow2Mono(a, b - 1); }
  }

  lemma {:induction false} Pow2Values()
    ensures Pow2(1) == 2 && Pow2(2) == 4 && Pow2(3) == 8 && Pow2(4) == 16 && Pow2(5) == 32 && Pow2(6) == 64
    ensures Pow2(7) == 128 && Pow2(8) == 256 && Pow2(9) == 512 && Pow2(10) == 1024
    ensures Pow2(14) == 0x4000 && Pow2(15) == 0x8000 && Pow2(16) == 0x10000
    ensures Pow2(24) == 0x100_0000 && Pow2(32) == 0x1_0000_0000
  {
    assert Pow2(10) == 1024;
    assert Pow2(15) == 0x8000;
    assert Pow2(20) == 0x10_0000;
    assert Pow2(25) == 0x200_0000;
    assert Pow2(30) == 0x4000_0000;
  }

  lemma {:induction false} MorePowers()
    ensures Pow2(11) == 2048 && Pow2(12) == 4096 && Pow2(13) == 8192
  {
    assert Pow2(5) == 32;
    assert Pow2(9) == 512;
  }

  lemma {:induction false} LowNone(v: nat)
    ensures Low(v, 0) == 0 && Shr(v, 0) == v
  {
  }

  lemma {:induction false} Split(v: nat, n: nat)
    ensures v == Low(v, n) + Shl(Shr(v, n), n)
  {
    if n > 0 {
      Split(v / 2, n - 1);
    }
  }

  lemma {:induction false} Join(lo: nat, hi: nat, n: nat)
    requires lo < Pow2(n)
    ensures Low(lo + Shl(hi, n), n) == lo
    ensures Shr(lo + Shl(hi, n), n) == hi
  {
    if n > 0 {
      var v := lo + Shl(hi, n);
      assert Shl(hi, n) == 2 * Shl(hi, n - 1);
      assert v / 2 == lo / 2 + Shl(hi, n - 1) && v % 2 == lo % 2;
      Join(lo / 2, hi, n - 1);
    }
  }

  lemma {:induction false} ShrZero(v: nat, n: nat)
    requires v < Pow2(n)
    ensures Shr(v, n) == 0 && Low(v, n) == v
  {
    if n > 0 { ShrZero(v / 2, n - 1); }
  }

  lemma {:induction false} ShrShr(v: nat, a: nat, b: nat)
    ensures Shr(Shr(v, a), b) == Shr(v, a + b)
  {
    if a > 0 { ShrShr(v / 2, a - 1, b); }
  }

  lemma {:induction false} LowLow(v: nat, a: nat, b: nat)
    requires b <= a
    ensures Low(Low(v, a), b) == Low(v, b)
  {
    if b > 0 {
      LowLow(v / 2, a - 1, b - 1);
    }
  }

  lemma {:induction false} ShrLow(v: nat, a: nat, b: nat)
    requires b <= a
    ensures Shr(Low(v, a), b) == Low(Shr(v, b), a - b)
  {
    if b > 0 {
      ShrLow(v / 2, a - 1, b - 1);
    }
  }

  /** The low a + b bits are the low a bits followed by the next b bits. */
  lemma {:induction false} LowAppend(v: nat, a: nat, b: nat)
    ensures Low(v, a) + Shl(Low(Shr(v, a), b), a) == Low(v, a + b)
  {
    if a > 0 {
      LowAppend(v / 2, a - 1, b);
      assert Shl(Low(Shr(v, a), b), a) == 2 * Shl(Low(Shr(v / 2, a - 1), b), a - 1);
    }
  }

  lemma {:induction false} LowParity(v: nat, n: nat)
    requires n > 0
    ensures Low(v, n) % 2 == v % 2
  {
    var rest := Low(v / 2, n - 1);
    assert Low(v, n) == v % 2 + 2 * rest;
  }

  lemma {:induction false} RevLow(v: nat, a: nat, n: nat)
    requires n <= a
    ensures Rev(Low(v, a), n) == Rev(v, n)
  {
    if n > 0 {
      RevLow(v, a, n - 1);
      ShrLow(v, a, n - 1);
      LowParity(Shr(v, n - 1), a - (n - 1));
    }
  }

  /** Reading a + b bits: the first a of them are the top ones. */
  lemma {:induction false} RevAppend(v: nat, a: nat, b: nat)
    ensures Rev(v, a + b) == Shl(Rev(v, a), b) + Rev(Shr(v, a), b)
  {
    if b > 0 {
      RevAppend(v, a, b - 1);
      ShrShr(v, a, b - 1);
    }
  }

  lemma {:induction false} RevShl(x: nat, n: nat)
    ensures Rev(2 * x, n + 1) == Rev(x, n)
  {
    if n > 0 { RevShl(x, n - 1); }
  }

  lemma {:induction false} RevPrepend(b: nat, x: nat, n: nat)
    requires b < 2
    ensures Rev(b + 2 * x, n + 1) == (if b == 1 then Pow2(n) else 0) + Rev(x, n)
  {
    if n > 0 { RevPrepend(b, x, n - 1); }
    else { assert Rev(b + 2 * x, 1) == 2 * Rev(b + 2 * x, 0) + Shr(b + 2 * x, 0) % 2; }
  }

  lemma {:induction false} ShrSucc(v: nat, n: nat)
    ensures Shr(v, n + 1) == Shr(v, n) / 2
    ensures Low(v, n + 1) == Low(v, n) + (if Shr(v, n) % 2 == 1 then Pow2(n) else 0)
  {
    if n > 0 { ShrSucc(v / 2, n - 1); }
  }

  lemma {:induction false} RevRev(v: nat, n: nat)
    ensures Rev(Rev(v, n), n) == Low(v, n)
  {
    if n > 0 {
      RevRev(v, n - 1);
      RevPrepend(Shr(v, n - 1) % 2, Rev(v, n - 1), n - 1);
      ShrSucc(v, n - 1);
    }
  }

  lemma {:induction false} ShlMono(x: nat, y: nat, n: nat)
    requires x < y
    ensures Shl(x, n) + Pow2(n) <= Shl(y, n)
  {
    if n > 0 { ShlMono(x, y, n - 1); }
  }

  lemma {:induction false} ShlShl(x: nat, a: nat, b: nat)
    ensures Shl(Shl(x, a), b) == Shl(x, a + b)
  {
    if b > 0 { ShlShl(x, a, b - 1); }
  }

  lemma {:induction false} ShlAdd(x: nat, y: nat, n: nat)
    ensures Shl(x + y, n) == Shl(x, n) + Shl(y, n)
  {
    if n > 0 { ShlAdd(x, y, n - 1); }
  }

  lemma {:induction false} ShlMul(x: nat, n: nat)
    ensures Shl(x, n) == x * Pow2(n)
  {
    if n > 0 { ShlMul(x, n - 1); }
  }

  lemma {:induction false} ShlOne(n: nat)
    ensures Shl(1, n) == Pow2(n) && Shl(0, n) == 0
  {
    if n > 0 { ShlOne(n - 1); }
  }

  lemma {:induction false} ShlHalf(x: nat, n: nat)
    ensures Shl(2 * x, n) == 2 * Shl(x, n)
  {
    if n > 0 { ShlHalf(x, n - 1); }
  }

  /** An interval of 2^n positions at a multiple of 2^n is one node of the binary tree. */
  lemma {:induction false} ShrInterval(q: nat, c: nat, n: nat)
    ensures Shr(q, n) == c <==> Shl(c, n) <= q < Shl(c, n) + Pow2(n)
  {
    Split(q, n);
    var d := Shr(q, n);
    if c < d { ShlMono(c, d, n); }
    if d < c { ShlMono(d, c, n); }
  }

  /** Trailing zeros read first disappear: x << a has the same reversal in a more bits. */
  lemma {:induction false} RevTrailing(x: nat, a: nat, n: nat)
    ensures Rev(Shl(x, a), a + n) == Rev(x, n)
  {
    if a > 0 {
      RevTrailing(x, a - 1, n);
      RevShl(Shl(x, a - 1), a - 1 + n);
    }
  }

  /** The first n bits of a stream are the first n bits of its m-bit position. */
  lemma {:induction false} TopOfRev(b: nat, n: nat, m: nat)
    requires n <= m
    ensures Shr(Rev(b, m), m - n) == Rev(b, n)
    decreases m
  {
    if n < m {
      TopOfRev(b, n, m - 1);
    }
  }

  /** The low n bits of a reversal are the reversed top n bits. */
  lemma {:induction false} LowOfRev(c: nat, w: nat, n: nat)
    requires n <= w
    ensures Low(Rev(c, w), n) == Rev(Shr(c, w - n), n)
  {
    RevAppend(c, w - n, n);
    Join(Rev(Shr(c, w - n), n), Rev(c, w - n), n);
  }

  lemma {:induction false} RevInjective(x: nat, y: nat, n: nat)
    requires x < Pow2(n) && y < Pow2(n) && Rev(x, n) == Rev(y, n)
    ensures x == y
  {
    RevRev(x, n);
    RevRev(y, n);
    ShrZero(x, n);
    ShrZero(y, n);
  }

  /** A code of a + b bits is its first a bits followed by its last b bits. */
  lemma {:induction false} SplitCode(c: nat, b: nat)
    ensures c == Shl(Shr(c, b), b) + Low(c, b)
  {
    Split(c, b);
  }

  lemma {:induction false} ShrBound(q: nat, a: nat, n: nat)
    requires q < Pow2(a + n)
    ensures Shr(q, n) < Pow2(a)
  {
    ShrInterval(q, Shr(q, n), n);
    ShlOne(n);
    Pow2Add(a, n);
    ShlMul(Pow2(a), n);
    if Shr(q, n) > Pow2(a) { ShlMono(Pow2(a), Shr(q, n), n); }
  }

  lemma {:induction false} ShlBound(c: nat, a: nat, n: nat)
    requires c < Pow2(a)
    ensures Shl(c, n) + Pow2(n) <= Pow2(a + n)
  {
    ShlMono(c, Pow2(a), n);
    ShlMul(Pow2(a), n);
    Pow2Add(a, n);
  }

  lemma {:induction false} ShrOfShl(c: nat, n: nat)
    ensures Shr(Shl(c, n), n) == c && Low(Shl(c, n), n) == 0
  {
    Join(0, c, n);
  }

  lemma {:induction false} ShrMono(x: nat, y: nat, n: nat)
    requires x <= y
    ensures Shr(x, n) <= Shr(y, n)
  {
    if n > 0 { ShrMono(x / 2, y / 2, n - 1); }
  }

  /** Testing and flipping the single bit m. */
  lemma {:induction false} FlipBit(i: nat, m: nat)
    ensures And(i, Pow2(m)) == if Shr(i, m) % 2 == 1 then Pow2(m) else 0
    ensures Xor(i, Pow2(m)) == if Shr(i, m) % 2 == 1 then i - Pow2(m) else i + Pow2(m)
    ensures Shr(i, m) % 2 == 1 ==> i >= Pow2(m)
  {
    if m == 0 {
      if i != 0 {
        assert And(i / 2, 0) == 0 && Xor(i / 2, 0) == i / 2;
      }
    } else {
      FlipBit(i / 2, m - 1);
      if i == 0 { ShrZero(0, m); }
    }
  }

  /** Shifting a sum whose low part fits below the shift of the high part. */
  lemma {:induction false} ShrSum(c: nat, r: nat, n: nat, m: nat)
    requires m <= n && r < Pow2(n)
    ensures Shr(Shl(c, n) + r, m) == Shl(c, n - m) + Shr(r, m)
  {
    if m > 0 {
      assert Shl(c, n) == 2 * Shl(c, n - 1);
      assert (Shl(c, n) + r) / 2 == Shl(c, n - 1) + r / 2;
      ShrSum(c, r / 2, n - 1, m - 1);
    }
  }

  /** A field of a number, and what is left above it. */
  lemma {:induction false} BitsAt(v: nat, a: nat, n: nat, x: nat, q: nat, r: nat)
    requires Shr(v, a) == x == r + q * Pow2(n) && r < Pow2(n)
    ensures Low(Shr(v, a), n) == r && Shr(v, a + n) == q
  {
    ShrShr(v, a, n);
    ShlMul(q, n);
    Join(r, q, n);
  }
}
