/** adler32 of DuiLib/XUnzip.cpp against sections 2.2 and 9 of RFC 1950: sums reduced once every NMAX bytes instead of after each byte. */
module Adler {
  import opened Bits

  const BASE: nat := 65521
  const NMAX: nat := 5552
  const WORD: nat := 0x1_0000_0000

  datatype Sums = Sums(s1: nat, s2: nat)

  // ---------------------------------------------------------------- RFC 1950

  /** One byte, with both sums reduced. */
  function Update(s: Sums, b: byte): Sums
  {
    var s1 := (s.s1 + b) % BASE;
    Sums(s1, (s.s2 + s1) % BASE)
  }

  function Checksum(s: Sums, data: seq<byte>): Sums
    decreases |data|
  {
    if data == [] then s else Checksum(Update(s, data[0]), data[1..])
  }

  function Unpack(adler: nat): Sums
    requires adler < WORD
  {
    Sums(adler % 0x10000, adler / 0x10000)
  }

  function Pack(s: Sums): nat { s.s2 * 0x10000 + s.s1 }

  lemma {:induction false} PackUnpack(s: Sums)
    requires s.s1 < 0x10000 && s.s2 < 0x10000
    ensures Pack(s) < WORD && Unpack(Pack(s)) == s
  {
  }

  lemma {:induction false} ChecksumSmall(s: Sums, data: seq<byte>)
    requires s.s1 < 0x10000 && s.s2 < 0x10000
    ensures Checksum(s, data).s1 < 0x10000 && Checksum(s, data).s2 < 0x10000
    decreases |data|
  {
    if data != [] { ChecksumSmall(Update(s, data[0]), data[1..]); }
  }

  lemma {:induction false} ChecksumAppend(s: Sums, a: seq<byte>, b: seq<byte>)
    ensures Checksum(s, a + b) == Checksum(Checksum(s, a), b)
    decreases |a|
  {
    hide Update;
    if a == [] {
      assert a + b == b;
    } else {
      assert (a + b)[1..] == a[1..] + b && (a + b)[0] == a[0];
      ChecksumAppend(Update(s, a[0]), a[1..], b);
    }
  }

  // ---------------------------------------------------------------- sums that are not reduced

  function AdDo1(s: Sums, b: byte): Sums { Sums(s.s1 + b, s.s2 + (s.s1 + b)) }

  function Add(s: Sums, data: seq<byte>): Sums
    decreases |data|
  {
    if data == [] then s else Add(AdDo1(s, data[0]), data[1..])
  }

  function AdDo2(s: Sums, buf: seq<byte>, i: nat): Sums
    requires i + 2 <= |buf|
  {
    AdDo1(AdDo1(s, buf[i]), buf[i + 1])
  }

  function AdDo4(s: Sums, buf: seq<byte>, i: nat): Sums
    requires i + 4 <= |buf|
  {
    AdDo2(AdDo2(s, buf, i), buf, i + 2)
  }

  function AdDo8(s: Sums, buf: seq<byte>, i: nat): Sums
    requires i + 8 <= |buf|
  {
    AdDo4(AdDo4(s, buf, i), buf, i + 4)
  }

  function AdDo16(s: Sums, buf: seq<byte>, i: nat): Sums
    requires i + 16 <= |buf|
  {
    AdDo8(AdDo8(s, buf, i), buf, i + 8)
  }

  lemma {:induction false} AddAppend(s: Sums, a: seq<byte>, b: seq<byte>)
    ensures Add(s, a + b) == Add(Add(s, a), b)
    decreases |a|
  {
    if a == [] {
      assert a + b == b;
    } else {
      assert (a + b)[1..] == a[1..] + b && (a + b)[0] == a[0];
      AddAppend(AdDo1(s, a[0]), a[1..], b);
    }
  }

  lemma {:induction false} AddSlices(s: Sums, buf: seq<byte>, i: nat, j: nat, k: nat)
    requires i <= j <= k <= |buf|
    ensures Add(s, buf[i..k]) == Add(Add(s, buf[i..j]), buf[j..k])
  {
    assert buf[i..k] == buf[i..j] + buf[j..k];
    AddAppend(s, buf[i..j], buf[j..k]);
  }

  lemma {:induction false} AddOne(s: Sums, buf: seq<byte>, i: nat)
    requires i < |buf|
    ensures Add(s, buf[i..i + 1]) == AdDo1(s, buf[i])
  {
    assert buf[i..i + 1] == [buf[i]] && [buf[i]][1..] == [];
  }

  lemma {:induction false} AddTwo(s: Sums, buf: seq<byte>, i: nat)
    requires i + 2 <= |buf|
    ensures AdDo2(s, buf, i) == Add(s, buf[i..i + 2])
  {
    AddSlices(s, buf, i, i + 1, i + 2);
    AddOne(s, buf, i);
    AddOne(AdDo1(s, buf[i]), buf, i + 1);
  }

  lemma {:induction false} AddFour(s: Sums, buf: seq<byte>, i: nat)
    requires i + 4 <= |buf|
    ensures AdDo4(s, buf, i) == Add(s, buf[i..i + 4])
  {
    hide AdDo2, Add;
    AddSlices(s, buf, i, i + 2, i + 4);
    AddTwo(s, buf, i);
    AddTwo(AdDo2(s, buf, i), buf, i + 2);
  }

  /** The unrolled sixteen steps are sixteen steps. */
  lemma {:induction false} AddSixteen(s: Sums, buf: seq<byte>, i: nat)
    requires i + 16 <= |buf|
    ensures AdDo16(s, buf, i) == Add(s, buf[i..i + 16])
  {
    hide AdDo4, Add;
    AddSlices(s, buf, i, i + 8, i + 16);
    AddSlices(s, buf, i, i + 4, i + 8);
    AddFour(s, buf, i);
    AddFour(AdDo4(s, buf, i), buf, i + 4);
    var t := AdDo8(s, buf, i);
    AddSlices(t, buf, i + 8, i + 12, i + 16);
    AddFour(t, buf, i + 8);
    AddFour(AdDo4(t, buf, i + 8), buf, i + 12);
  }

  /** Twice the most that s2 can be after n bytes. */
  function Worst(n: nat): nat { 255 * n * (n + 1) + 2 * (n + 1) * 65535 }

  /** No sum exceeds its bound, whatever 16-bit values the sums start from. */
  lemma {:induction false} AddBound(s: Sums, data: seq<byte>, m: nat)
    requires s.s1 <= 65535 + 255 * m && 2 * s.s2 <= Worst(m)
    ensures Add(s, data).s1 <= 65535 + 255 * (m + |data|) && 2 * Add(s, data).s2 <= Worst(m + |data|)
    decreases |data|
  {
    if data != [] {
      WorstStep(m);
      AddBound(AdDo1(s, data[0]), data[1..], m + 1);
    }
  }

  lemma {:induction false} WorstStep(m: nat)
    ensures Worst(m + 1) == Worst(m) + 2 * (65535 + 255 * (m + 1))
  {
  }

  lemma {:induction false} WorstMono(m: nat, n: nat)
    requires m <= n
    ensures Worst(m) <= Worst(n)
    decreases n
  {
    hide Worst;
    if m < n {
      WorstStep(n - 1);
      WorstMono(m, n - 1);
    }
  }

  /** Nothing overflows 32 bits within NMAX bytes, at any byte. */
  lemma {:induction false} NoOverflow(s: Sums, data: seq<byte>)
    requires s.s1 <= 65535 && s.s2 <= 65535 && |data| <= NMAX
    ensures Add(s, data).s1 < WORD && Add(s, data).s2 < WORD
  {
    AddBound(s, data, 0);
    WorstMono(|data|, NMAX);
    assert Worst(NMAX) < 2 * WORD;
    hide Add, Worst;
  }

  /** NMAX is what its comment says: the largest n with 255 n (n + 1) / 2 + (n + 1) (BASE - 1) below 2^32. */
  lemma {:induction false} NmaxIsLargest(n: nat)
    ensures 255 * n * (n + 1) + 2 * (n + 1) * (BASE - 1) <= 2 * (WORD - 1) <==> n <= NMAX
  {
    if n <= NMAX { QuadMono(n, NMAX); } else { QuadMono(NMAX + 1, n); }
  }

  lemma {:induction false} QuadMono(m: nat, n: nat)
    requires m <= n
    ensures 255 * m * (m + 1) + 2 * (m + 1) * (BASE - 1) <= 255 * n * (n + 1) + 2 * (n + 1) * (BASE - 1)
    decreases n
  {
    if m < n {
      QuadMono(m, n - 1);
      assert 255 * n * (n + 1) == 255 * (n - 1) * n + 510 * n;
    }
  }

  function Reduce(s: Sums): Sums { Sums(s.s1 % BASE, s.s2 % BASE) }

  lemma {:induction false} ModAdd(a: nat, b: nat)
    ensures (a % BASE + b) % BASE == (a + b) % BASE
  {
    var q := a / BASE;
    assert a == BASE * q + a % BASE;
    ModShift(a % BASE + b, q);
  }

  lemma {:induction false} ModShift(x: nat, q: nat)
    ensures (x + BASE * q) % BASE == x % BASE
    decreases q
  {
    if q > 0 {
      ModShift(x, q - 1);
      assert x + BASE * q == (x + BASE * (q - 1)) + BASE;
    }
  }

  lemma {:induction false} UpdateReduces(s: Sums, t: Sums, b: byte)
    requires Reduce(s) == Reduce(t)
    ensures Update(s, b) == Reduce(AdDo1(t, b))
  {
    ModAdd(s.s1, b);
    ModAdd(t.s1, b);
    ModAdd(s.s2, (s.s1 + b) % BASE);
    ModAdd(t.s2, (s.s1 + b) % BASE);
    ModAdd(t.s1 + b, t.s2);
  }

  lemma {:induction false} ReduceTwice(s: Sums)
    ensures Reduce(Reduce(s)) == Reduce(s)
  {
  }

  /** Reducing at the end is as good as reducing after each byte. */
  lemma {:induction false} AddReduces(s: Sums, t: Sums, data: seq<byte>)
    requires Reduce(s) == Reduce(t)
    ensures Reduce(Checksum(s, data)) == Reduce(Add(t, data))
    ensures data != [] ==> Checksum(s, data) == Reduce(Add(t, data))
    decreases |data|
  {
    if data != [] {
      UpdateReduces(s, t, data[0]);
      ReduceTwice(AdDo1(t, data[0]));
      ReduceTwice(Add(t, data));
      hide Update, AdDo1, Reduce;
      AddReduces(Update(s, data[0]), AdDo1(t, data[0]), data[1..]);
      if |data| == 1 { assert data[1..] == []; }
    }
  }

  /** adler32 */
  method Adler32(adler: nat, ptr: Buf<byte>) returns (r: nat)
    requires adler < WORD
    ensures r < WORD && r == if ptr.NoBuf? then 1 else Pack(Checksum(Unpack(adler), ptr.data))
  {
    if ptr.NoBuf? { return 1; }
    var buf := ptr.data;
    var s := Unpack(adler);
    ghost var s0 := s;
    var p, len := 0, |buf|;
    Nothing(s, buf);
    while len > 0
      invariant 0 <= p && 0 <= len && p + len == |buf| && s == Checksum(s0, buf[..p]) && s.s1 <= 65535 && s.s2 <= 65535
    {
      var k: nat := if len < NMAX then len else NMAX;
      len := len - k;
      ghost var p1, t := p, s;
      s, p := OneChunk(buf, p, k, s);
      assert buf[..p] == buf[..p1] + buf[p1..p];
      ChecksumAppend(s0, buf[..p1], buf[p1..p]);
      AddReduces(t, t, buf[p1..p]);
    }
    assert buf[..p] == buf;
    PackUnpack(s);
    r := s.s2 * 0x10000 + s.s1;
  }

  lemma {:induction false} Nothing(s: Sums, buf: seq<byte>)
    ensures Checksum(s, buf[..0]) == s
  {
  }

  /** At most NMAX bytes, sixteen at a time; every sum along the way fits 32 bits. */
  method OneChunk(buf: seq<byte>, p0: nat, k0: nat, s0: Sums) returns (s: Sums, p: nat)
    requires 0 < k0 <= NMAX && p0 + k0 <= |buf| && s0.s1 <= 65535 && s0.s2 <= 65535
    ensures p == p0 + k0 && s == Reduce(Add(s0, buf[p0..p])) && s.s1 < BASE && s.s2 < BASE
  {
    hide Add, AdDo1, AdDo16;
    var k := k0;
    s, p := s0, p0;
    Empty(s, buf, p);
    while k >= 16
      invariant 0 <= k && p0 <= p && p + k == p0 + k0 && s == Add(s0, buf[p0..p])
    {
      AddSixteen(s, buf, p);
      AddSlices(s0, buf, p0, p, p + 16);
      s := AdDo16(s, buf, p);
      NoOverflow(s0, buf[p0..p + 16]);
      assert s.s1 < WORD && s.s2 < WORD;
      p := p + 16;
      k := k - 16;
    }
    while k != 0
      invariant 0 <= k && p0 <= p && p + k == p0 + k0 && s == Add(s0, buf[p0..p])
    {
      AddOne(s, buf, p);
      AddSlices(s0, buf, p0, p, p + 1);
      s := AdDo1(s, buf[p]);
      NoOverflow(s0, buf[p0..p + 1]);
      assert s.s1 < WORD && s.s2 < WORD;
      p := p + 1;
      k := k - 1;
    }
    s := Sums(s.s1 % BASE, s.s2 % BASE);
  }

  lemma {:induction false} Empty(s: Sums, buf: seq<byte>, p: nat)
    requires p <= |buf|
    ensures Add(s, buf[p..p]) == s
  {
    assert buf[p..p] == [];
  }

  /** The checksum of two buffers one after the other is that of their concatenation. */
  lemma {:induction false} AdlerAppend(adler: nat, a: seq<byte>, b: seq<byte>)
    requires adler < WORD
    ensures var r := Pack(Checksum(Unpack(adler), a));
            r < WORD && Pack(Checksum(Unpack(r), b)) == Pack(Checksum(Unpack(adler), a + b))
  {
    ChecksumSmall(Unpack(adler), a);
    PackUnpack(Checksum(Unpack(adler), a));
    ChecksumAppend(Unpack(adler), a, b);
    hide Checksum, Pack, Unpack;
  }

  // ---------------------------------------------------------------- the checksum as two sums

  /** All bytes, and all bytes each as often as there are bytes from it on. */
  function Total(data: seq<byte>): nat
  {
    if data == [] then 0 else data[0] + Total(data[1..])
  }

  function Weighted(data: seq<byte>): nat
  {
    if data == [] then 0 else |data| * data[0] + Weighted(data[1..])
  }

  lemma {:induction false} AddSums(s: Sums, data: seq<byte>)
    ensures Add(s, data) == Sums(s.s1 + Total(data), s.s2 + |data| * s.s1 + Weighted(data))
    decreases |data|
  {
    if data != [] {
      AddSums(AdDo1(s, data[0]), data[1..]);
      Distribute(|data|, s.s1, data[0]);
    }
  }

  lemma {:induction false} Distribute(n: nat, a: nat, b: nat)
    requires n > 0
    ensures (a + b) + (n - 1) * (a + b) == n * a + n * b
  {
  }

  /** The low half goes on by all bytes; the high half by the old low half, once for every byte, and all bytes weighted; both modulo 65521. */
  lemma {:induction false} TwoSums(adler: nat, data: seq<byte>)
    requires adler < WORD && data != []
    ensures var r := Pack(Checksum(Unpack(adler), data));
            r % 65536 == (adler % 65536 + Total(data)) % 65521
            && r / 65536 == (adler / 65536 + |data| * (adler % 65536) + Weighted(data)) % 65521
  {
    hide *;
    UnpackIs(adler);
    AddReduces(Unpack(adler), Unpack(adler), data);
    AddSums(Unpack(adler), data);
    Halves(adler % 65536 + Total(data), adler / 65536 + |data| * (adler % 65536) + Weighted(data));
  }

  lemma {:induction false} UnpackIs(adler: nat)
    requires adler < WORD
    ensures Unpack(adler) == Sums(adler % 65536, adler / 65536)
  {
  }

  lemma {:induction false} Halves(a: nat, b: nat)
    ensures var r := Pack(Reduce(Sums(a, b))); r % 65536 == a % 65521 && r / 65536 == b % 65521
  {
    PackParts(a % 65521, b % 65521);
  }

  lemma {:induction false} PackParts(x: nat, y: nat)
    requires x < 65536
    ensures (y * 0x10000 + x) % 65536 == x && (y * 0x10000 + x) / 65536 == y
  {
  }
}
