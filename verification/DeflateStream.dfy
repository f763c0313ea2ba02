/** Block headers, stored blocks and whole streams of RFC 1951: decoder, encoder and round trip. */
module DeflateStream {
  import opened Bits
  import opened BitStream
  import opened Canonical
  import opened Deflate

  // ---------------------------------------------------------------- stored blocks

  /** Bits to the next byte boundary. */
  function Pad(pos: nat): nat
  {
    (8 - pos % 8) % 8
  }

  lemma {:induction false} PadIs(f: nat, n: nat)
    requires n <= 8 * f
    ensures Pad(8 * f - n) == n % 8
  {
    var k := n / 8;
    assert 8 * f - n == 8 * (f - k) - n % 8;
  }

  /** n bytes of the stream v from bit q on. */
  ghost function StreamBytes(v: nat, q: nat, n: nat): (r: seq<byte>)
    ensures |r| == n
    decreases n
  {
    if n == 0 then [] else
      Pow2Values();
      [Low(Shr(v, q), 8)] + StreamBytes(v, q + 8, n - 1)
  }

  lemma {:induction false} StreamBytesUnfold(v: nat, q: nat, n: nat)
    requires n > 0
    ensures StreamBytes(v, q, n) == [Low(Shr(v, q), 8)] + StreamBytes(v, q + 8, n - 1)
  {
  }

  lemma {:induction false} SliceBytes(data: seq<byte>, f: nat, n: nat)
    requires n > 0 ==> f + n <= |data|
    ensures StreamBytes(BytesVal(data), 8 * f, n) == if n > 0 then data[f..f + n] else []
    decreases n
  {
    hide Low, Shr, BytesVal, Pow2;
    if n > 0 {
      ByteAt(data, f);
      StreamBytesUnfold(BytesVal(data), 8 * f, n);
      hide StreamBytes;
      SliceBytes(data, f + 1, n - 1);
      assert data[f..f + n] == [data[f]] + data[f + 1..f + 1 + (n - 1)];
    }
  }

  /** Section 3.2.4, on a stream of size bytes; pos is just past the three header bits. */
  ghost function RunStored(v: nat, size: nat, pos: nat, out: seq<byte>, cap: Option<nat>): Res
  {
    var p := pos + Pad(pos);
    var len := Low(Shr(v, p), 16);
    var nlen := Low(Shr(v, p + 16), 16);
    if len + nlen != 0xffff || (p + 32) / 8 + len > size || Full(cap, |out| + len) then Corrupt
    else Good(p + 32 + 8 * len, out + StreamBytes(v, p + 32, len))
  }

  function BytesBits(bytes: seq<byte>): (bs: seq<bool>)
    ensures |bs| == 8 * |bytes|
  {
    if bytes == [] then [] else LsbBits(bytes[0], 8) + BytesBits(bytes[1..])
  }

  function StoredBits(pos: nat, bytes: seq<byte>): seq<bool>
  {
    LsbBits(0, Pad(pos)) + (LsbBits(|bytes|, 16) + (LsbBits(0xffff - (if |bytes| < 0x10000 then |bytes| else 0), 16) + BytesBits(bytes)))
  }

  lemma {:induction false} BytesBack(v: nat, q: nat, bytes: seq<byte>)
    requires Begins(Shr(v, q), BytesBits(bytes))
    ensures StreamBytes(v, q, |bytes|) == bytes
    decreases |bytes|
  {
    hide Begins, Shr, Low, LsbBits;
    if bytes != [] {
      BeginsAppend(Shr(v, q), LsbBits(bytes[0], 8), BytesBits(bytes[1..]));
      Pow2Values();
      BeginsLsb(Shr(v, q), bytes[0], 8);
      ShrShr(v, q, 8);
      BytesBack(v, q + 8, bytes[1..]);
    }
  }

  lemma {:induction false} StoredBack(v: nat, size: nat, pos: nat, out: seq<byte>, bytes: seq<byte>)
    requires |bytes| < 0x10000 && Begins(Shr(v, pos), StoredBits(pos, bytes))
    requires pos + |StoredBits(pos, bytes)| <= 8 * size
    ensures RunStored(v, size, pos, out, None) == Good(pos + |StoredBits(pos, bytes)|, out + bytes)
  {
    hide Begins, Shr, Low, LsbBits, BytesBits, StreamBytes, Pow2;
    var p := pos + Pad(pos);
    var b0, b1, b2, b3 := LsbBits(0, Pad(pos)), LsbBits(|bytes|, 16), LsbBits(0xffff - |bytes|, 16), BytesBits(bytes);
    var w := Shr(v, pos);
    BeginsAppend(w, b0, b1 + (b2 + b3));
    ShrShr(v, pos, |b0|);
    BeginsAppend(Shr(v, p), b1, b2 + b3);
    ShrShr(v, p, 16);
    BeginsAppend(Shr(v, p + 16), b2, b3);
    ShrShr(v, p + 16, 16);
    Pow2Values();
    BeginsLsb(Shr(v, p), |bytes|, 16);
    BeginsLsb(Shr(v, p + 16), 0xffff - |bytes|, 16);
    BytesBack(v, p + 32, bytes);
  }

  // ---------------------------------------------------------------- dynamic code lengths

  function Zag(i: nat): (k: nat)
    requires i < 19
    ensures k < 19
  {
    DEZIGZAG[i]
  }

  function UnZag(k: nat): nat
    requires k < 19
  {
    [3, 17, 15, 13, 11, 9, 7, 5, 4, 6, 8, 10, 12, 14, 16, 18, 0, 1, 2][k]
  }

  lemma {:induction false} ZagInverse(i: nat)
    requires i < 19
    ensures UnZag(Zag(i)) == i && UnZag(i) < 19 && Zag(UnZag(i)) == i
  {
  }

  /** The code length code's lengths, n of them sent as three bits each in the zigzag order. */
  ghost function ReadClLens(v: nat, pos: nat, n: nat): (r: seq<nat>)
    requires n <= 19
    ensures |r| == 19 && forall i :: 0 <= i < 19 ==> r[i] < 8
  {
    if n == 0 then seq(19, _ => 0)
    else
      Pow2Values();
      ReadClLens(v, pos, n - 1)[Zag(n - 1) := Low(Shr(v, pos + 3 * (n - 1)), 3)]
  }

  lemma {:induction false} ZagDistinct(i: nat, k: nat)
    requires i < 19 && k < 19 && Zag(i) == Zag(k)
    ensures i == k
  {
    ZagInverse(i);
    ZagInverse(k);
  }

  /** Each length sent is where the order says; the others are zero. */
  lemma {:induction false} ClAt(v: nat, pos: nat, n: nat, i: nat)
    requires n <= 19 && i < 19
    ensures ReadClLens(v, pos, n)[Zag(i)] == if i < n then Low(Shr(v, pos + 3 * i), 3) else 0
    decreases n
  {
    hide Low, Shr, Zag;
    if n > 0 {
      ClAt(v, pos, n - 1, i);
      if Zag(i) == Zag(n - 1) { ZagDistinct(i, n - 1); }
    }
  }

  /** The i-th of n groups of three bits; zero if there are fewer. */
  ghost function Group(v: nat, pos: nat, n: nat, i: nat): nat
  {
    if i < n then Low(Shr(v, pos + 3 * i), 3) else 0
  }

  /** Section 3.2.7: the first groups are for the symbols 16, 17, 18 and 0, the others for 8 and from there outwards, 7 and 9, 6 and 10. */
  ghost predicate Ordered(cl: seq<nat>, v: nat, pos: nat, n: nat)
  {
    |cl| == 19
    && (forall k :: 16 <= k < 19 ==> cl[k] == Group(v, pos, n, k - 16)) && cl[0] == Group(v, pos, n, 3)
    && (forall k :: 8 <= k < 16 ==> cl[k] == Group(v, pos, n, 2 * k - 12))
    && (forall k :: 1 <= k < 8 ==> cl[k] == Group(v, pos, n, 19 - 2 * k))
  }

  lemma {:induction false} OrderedOnce(cl: seq<nat>, cl2: seq<nat>, v: nat, pos: nat, n: nat)
    requires Ordered(cl, v, pos, n) && Ordered(cl2, v, pos, n)
    ensures cl == cl2
  {
    hide Group;
  }

  lemma {:induction false} UnZagIs(k: nat)
    requires k < 19
    ensures UnZag(k) == if k >= 16 then k - 16 else if k == 0 then 3 else if k >= 8 then 2 * k - 12 else 19 - 2 * k
  {
  }

  /** The lengths that are read are those. */
  lemma {:induction false} ClOrder(v: nat, pos: nat, n: nat)
    requires n <= 19
    ensures Ordered(ReadClLens(v, pos, n), v, pos, n)
  {
    hide Low, Shr, Zag, UnZag, ReadClLens;
    var cl := ReadClLens(v, pos, n);
    forall k | 0 <= k < 19 ensures cl[k] == Group(v, pos, n, UnZag(k)) && UnZag(k) == if k >= 16 then k - 16 else if k == 0 then 3 else if k >= 8 then 2 * k - 12 else 19 - 2 * k {
      ZagInverse(k);
      ClAt(v, pos, n, UnZag(k));
      UnZagIs(k);
    }
    hide Group;
  }

  /** The code lengths; or a symbol without a code or a missing previous length; or a run past the end of lencodes. */
  datatype LensRes = LensGood(pos: nat, lens: seq<nat>) | LensUndefined | LensOverrun

  /** The size of lencodes: 286 + 32 + 137. */
  const LENCODES: nat := 455

  function Times(x: nat, n: nat): (r: seq<nat>)
    ensures |r| == n && forall i :: 0 <= i < n ==> r[i] == x
  {
    seq(n, _ => x)
  }

  /** The run-length coded code lengths of section 3.2.7, read until there are at least total of them. */
  ghost function ReadLens(cl: seq<nat>, v: nat, pos: nat, acc: seq<nat>, total: nat): (r: LensRes)
    requires |cl| == 19 && ValidLens(acc)
    ensures r.LensGood? ==> ValidLens(r.lens)
    decreases total - |acc|
  {
    if |acc| >= total then LensGood(pos, acc)
    else match Decode(cl, Shr(v, pos))
      case None => LensUndefined
      case Some(c) =>
        var w := Shr(v, pos + cl[c]);
        if c < 16 then ReadLens(cl, v, pos + cl[c], acc + [c], total)
        else if c == 16 then
          if acc == [] then LensUndefined
          else if |acc| + Low(w, 2) + 3 > LENCODES then LensOverrun
          else ReadLens(cl, v, pos + cl[c] + 2, acc + Times(acc[|acc| - 1], Low(w, 2) + 3), total)
        else if c == 17 then
          if |acc| + Low(w, 3) + 3 > LENCODES then LensOverrun
          else ReadLens(cl, v, pos + cl[c] + 3, acc + Times(0, Low(w, 3) + 3), total)
        else if |acc| + Low(w, 7) + 11 > LENCODES then LensOverrun
        else ReadLens(cl, v, pos + cl[c] + 7, acc + Times(0, Low(w, 7) + 11), total)
  }

  lemma {:induction false} ReadLensUnfold(cl: seq<nat>, v: nat, pos: nat, acc: seq<nat>, total: nat)
    requires |cl| == 19 && ValidLens(acc) && |acc| < total
    ensures ReadLens(cl, v, pos, acc, total) ==
      match Decode(cl, Shr(v, pos))
      case None => LensUndefined
      case Some(c) =>
        var w := Shr(v, pos + cl[c]);
        if c < 16 then ReadLens(cl, v, pos + cl[c], acc + [c], total)
        else if c == 16 then
          if acc == [] then LensUndefined
          else if |acc| + Low(w, 2) + 3 > LENCODES then LensOverrun
          else ReadLens(cl, v, pos + cl[c] + 2, acc + Times(acc[|acc| - 1], Low(w, 2) + 3), total)
        else if c == 17 then
          if |acc| + Low(w, 3) + 3 > LENCODES then LensOverrun
          else ReadLens(cl, v, pos + cl[c] + 3, acc + Times(0, Low(w, 3) + 3), total)
        else if |acc| + Low(w, 7) + 11 > LENCODES then LensOverrun
        else ReadLens(cl, v, pos + cl[c] + 7, acc + Times(0, Low(w, 7) + 11), total)
  {
    hide Low, Shr, Decode, Times;
  }

  lemma {:induction false} ReadLensDone(cl: seq<nat>, v: nat, pos: nat, acc: seq<nat>, total: nat)
    requires |cl| == 19 && ValidLens(acc) && |acc| >= total
    ensures ReadLens(cl, v, pos, acc, total) == LensGood(pos, acc)
  {
  }

  datatype CodesRes = CodesGood(pos: nat, lit: seq<nat>, dist: seq<nat>) | CodesCorrupt | CodesUndefined | CodesOverrun

  /** Section 3.2.7: the two codes of a dynamic block. */
  ghost function ReadCodes(v: nat, pos: nat): (r: CodesRes)
    ensures r.CodesGood? ==> 257 <= |r.lit| <= 288 && 1 <= |r.dist| <= 32
  {
    Pow2Values();
    var hlit := Low(Shr(v, pos), 5) + 257;
    var hdist := Low(Shr(v, pos + 5), 5) + 1;
    var hclen := Low(Shr(v, pos + 10), 4) + 4;
    CodesBy(ReadClLens(v, pos + 14, hclen), v, pos + 14 + 3 * hclen, hlit, hdist)
  }

  /** With the code length code known. */
  ghost function CodesBy(cl: seq<nat>, v: nat, pos: nat, hlit: nat, hdist: nat): (r: CodesRes)
    requires |cl| == 19 && ValidLens(cl)
    ensures r.CodesGood? ==> |r.lit| == hlit && |r.dist| == hdist
  {
    if Kraft(cl) > SPACE then CodesCorrupt
    else match ReadLens(cl, v, pos, [], hlit + hdist)
      case LensUndefined => CodesUndefined
      case LensOverrun => CodesOverrun
      case LensGood(p, lens) =>
        if |lens| != hlit + hdist || Kraft(lens[..hlit]) > SPACE || Kraft(lens[hlit..]) > SPACE then CodesCorrupt
        else CodesGood(p, lens[..hlit], lens[hlit..])
  }

  /** The two codes are read with the code length code cl, which is the one that comes in that order. */
  ghost predicate ReadBy(cl: seq<nat>, v: nat, pos: nat)
  {
    var hlit, hdist, hclen := Low(Shr(v, pos), 5) + 257, Low(Shr(v, pos + 5), 5) + 1, Low(Shr(v, pos + 10), 4) + 4;
    Ordered(cl, v, pos + 14, hclen) && ValidLens(cl) && ReadCodes(v, pos) == CodesBy(cl, v, pos + 14 + 3 * hclen, hlit, hdist)
  }

  lemma {:induction false} CodesOrdered(v: nat, pos: nat, cl: seq<nat>)
    requires Ordered(cl, v, pos + 14, Low(Shr(v, pos + 10), 4) + 4)
    ensures ReadBy(cl, v, pos)
  {
    Pow2Values();
    var n := Low(Shr(v, pos + 10), 4) + 4;
    ClOrder(v, pos + 14, n);
    OrderedOnce(cl, ReadClLens(v, pos + 14, n), v, pos + 14, n);
    hide Low, Shr, ReadClLens, CodesBy, Ordered, Pow2;
  }

  /** Lengths run past the array only if there are more than 318 of them to read. */
  lemma {:induction false} OverrunNeeds(cl: seq<nat>, v: nat, pos: nat, acc: seq<nat>, total: nat)
    requires |cl| == 19 && ValidLens(acc) && ReadLens(cl, v, pos, acc, total).LensOverrun?
    ensures total > 318
    decreases total - |acc|
  {
    hide ReadLens, ValidLens;
    if |acc| >= total {
      ReadLensDone(cl, v, pos, acc, total);
    } else {
      var pos2, acc2 := OverrunNext(cl, v, pos, acc, total);
      if total <= 318 { OverrunNeeds(cl, v, pos2, acc2, total); }
    }
  }

  lemma {:induction false} OverrunNext(cl: seq<nat>, v: nat, pos: nat, acc: seq<nat>, total: nat) returns (pos2: nat, acc2: seq<nat>)
    requires |cl| == 19 && ValidLens(acc) && |acc| < total && ReadLens(cl, v, pos, acc, total).LensOverrun?
    ensures total > 318 || (|acc2| > |acc| && ValidLens(acc2) && ReadLens(cl, v, pos2, acc2, total).LensOverrun?)
  {
    hide Decode, Shr, Times, ValidLens, Low, ReadLens, Pow2, Code, Rev;
    ReadLensUnfold(cl, v, pos, acc, total);
    var c := Decode(cl, Shr(v, pos)).value;
    var w := Shr(v, pos + cl[c]);
    ExtraSmall(w);
    pos2, acc2 := pos, acc;
    if c < 16 {
      ValidOneMore(acc, c);
      pos2, acc2 := pos + cl[c], acc + [c];
    } else if c == 16 {
      ValidLast(acc);
      ValidRun(acc, acc[|acc| - 1], Low(w, 2) + 3);
      pos2, acc2 := pos + cl[c] + 2, acc + Times(acc[|acc| - 1], Low(w, 2) + 3);
    } else if c == 17 {
      ValidRun(acc, 0, Low(w, 3) + 3);
      pos2, acc2 := pos + cl[c] + 3, acc + Times(0, Low(w, 3) + 3);
    } else {
      ValidRun(acc, 0, Low(w, 7) + 11);
      pos2, acc2 := pos + cl[c] + 7, acc + Times(0, Low(w, 7) + 11);
    }
  }

  lemma {:induction false} ExtraSmall(w: nat)
    ensures Low(w, 2) < 4 && Low(w, 3) < 8 && Low(w, 7) < 128
  {
    Pow2Values();
    hide Low, Pow2;
  }

  lemma {:induction false} ValidOneMore(acc: seq<nat>, c: nat)
    requires ValidLens(acc) && c < 16
    ensures ValidLens(acc + [c])
  {
  }

  lemma {:induction false} ValidLast(acc: seq<nat>)
    requires ValidLens(acc) && acc != []
    ensures acc[|acc| - 1] <= MAXBITS
  {
  }

  lemma {:induction false} ValidRun(acc: seq<nat>, x: nat, n: nat)
    requires ValidLens(acc) && x <= MAXBITS
    ensures ValidLens(acc + Times(x, n))
  {
  }

  /** 288 + 32 lengths, or one less, of which 318 are zeros in three runs, then a run of 138 more. */
  function Overrun(total: nat): nat
    requires total == 319 || total == 320
  {
    if total == 320 then 286255635955188735 else 286255635955188703
  }

  /** The code length code in which only "many zeros" has a code, of one bit. */
  const ONLY18: seq<nat> := [0, 0, 0, 0, 0, 0, 0, 0, 0, 0, 0, 0, 0, 0, 0, 0, 0, 0, 1]

  lemma {:induction false} ManyZerosNext(v: nat, pos: nat, n: nat, x: nat, total: nat)
    requires n < total && Low(Shr(v, pos), 1) == 0 && Low(Shr(v, pos + 1), 7) == x
    requires ValidLens(Times(0, n)) && ValidLens(Times(0, n) + Times(0, x + 11))
    ensures ReadLens(ONLY18, v, pos, Times(0, n), total) ==
            if n + x + 11 > LENCODES then LensOverrun else ReadLens(ONLY18, v, pos + 8, Times(0, n) + Times(0, x + 11), total)
  {
    hide Low, Shr, Times, Decode, ReadLens, ValidLens;
    DecodeMany(Shr(v, pos));
    ShrShr(v, pos, 1);
    ReadLensUnfold(ONLY18, v, pos, Times(0, n), total);
  }

  lemma {:induction false} ManyZerosOn(v: nat, pos: nat, n: nat, x: nat, total: nat)
    requires n < total && Low(Shr(v, pos), 1) == 0 && Low(Shr(v, pos + 1), 7) == x
    ensures |ONLY18| == 19 && ValidLens(Times(0, n)) && ValidLens(Times(0, n + x + 11))
    ensures ReadLens(ONLY18, v, pos, Times(0, n), total) ==
            if n + x + 11 > LENCODES then LensOverrun else ReadLens(ONLY18, v, pos + 8, Times(0, n + x + 11), total)
  {
    hide *;
    NoTimes();
    TimesOn(n, x + 11);
    TimesOn(n + x + 11, 0);
    ManyZerosNext(v, pos, n, x, total);
  }

  lemma {:induction false} DecodeMany(b: nat)
    requires Low(b, 1) == 0
    ensures Decode(ONLY18, b) == Some(18)
  {
    assert ValidLens(ONLY18);
    assert Rev(b, 1) == 2 * Rev(b, 0) + Shr(b, 0) % 2;
    assert Low(b, 1) == b % 2 + 2 * Low(b / 2, 0);
    assert NextCode(ONLY18, 1) == 0;
    OneCount();
    DecodeIs(ONLY18, 18, b);
  }

  lemma {:induction false} OneCount()
    ensures Rank(ONLY18, 18) == 0
  {
    assert ONLY18[..18] == Times(0, 18);
    ZeroRank(18);
  }

  lemma {:induction false} ZeroRank(n: nat)
    ensures Count(Times(0, n), 1) == 0
  {
    if n > 0 {
      assert Times(0, n)[..n - 1] == Times(0, n - 1);
      ZeroRank(n - 1);
    }
  }

  lemma {:induction false} TimesOn(a: nat, b: nat)
    ensures Times(0, a) + Times(0, b) == Times(0, a + b) && ValidLens(Times(0, a))
  {
  }

  /** For either number of lengths, an input whose code lengths run past the array. */
  lemma {:induction false} OverrunHappens(total: nat)
    requires total == 319 || total == 320
    ensures ReadCodes(Overrun(total), 0) == CodesOverrun
  {
    hide Low, Shr, ReadLens, Kraft, Pow2, ReadClLens, Overrun, ONLY18, ValidLens, SPACE;
    NoneValid();
    OverrunBits(total);
    OverrunRuns(Overrun(total), total);
  }

  lemma {:induction false} OverrunRuns(v: nat, total: nat)
    requires total > 318
    requires Low(Shr(v, 26), 1) == 0 && Low(Shr(v, 27), 7) == 127
    requires Low(Shr(v, 34), 1) == 0 && Low(Shr(v, 35), 7) == 127
    requires Low(Shr(v, 42), 1) == 0 && Low(Shr(v, 43), 7) == 31
    requires Low(Shr(v, 50), 1) == 0 && Low(Shr(v, 51), 7) == 127
    ensures |ONLY18| == 19 && ValidLens([]) && ReadLens(ONLY18, v, 26, [], total) == LensOverrun
  {
    hide *;
    NoneValid();
    NoTimes();
    ManyZerosOn(v, 26, 0, 127, total);
    ManyZerosOn(v, 34, 138, 127, total);
    ManyZerosOn(v, 42, 276, 31, total);
    ManyZerosOn(v, 50, 318, 127, total);
  }

  lemma {:induction false} NoTimes()
    ensures Times(0, 0) == [] && |ONLY18| == 19 && LENCODES == 455
  {
  }

  lemma {:induction false} OverrunHead(v: nat, total: nat)
    requires (total == 319 || total == 320) && v == Overrun(total)
    ensures Low(Shr(v, 0), 5) == 31 && Low(Shr(v, 5), 5) == total - 289 && Low(Shr(v, 10), 4) == 0
    ensures Low(Shr(v, 14), 3) == 0 && Low(Shr(v, 17), 3) == 0 && Low(Shr(v, 20), 3) == 1 && Low(Shr(v, 23), 3) == 0
    ensures Shr(v, 26) == 4265541374
  {
    assert Shr(v, 0) == v;
    Pow2Values();
    hide Low, Shr, Pow2;
    if total == 320 {
      BitsAt(v, 0, 5, 286255635955188735, 8945488623599647, 31);
      BitsAt(v, 5, 5, 8945488623599647, 279546519487488, 31);
    } else {
      BitsAt(v, 0, 5, 286255635955188703, 8945488623599646, 31);
      BitsAt(v, 5, 5, 8945488623599646, 279546519487488, 30);
    }
    BitsAt(v, 10, 4, 279546519487488, 17471657467968, 0);
    BitsAt(v, 14, 3, 17471657467968, 2183957183496, 0);
    BitsAt(v, 17, 3, 2183957183496, 272994647937, 0);
    BitsAt(v, 20, 3, 272994647937, 34124330992, 1);
    BitsAt(v, 23, 3, 34124330992, 4265541374, 0);
  }

  lemma {:induction false} OverrunBits(total: nat)
    requires total == 319 || total == 320
    ensures var v := Overrun(total);
            Low(Shr(v, 0), 5) == 31 && Low(Shr(v, 5), 5) == total - 289 && Low(Shr(v, 10), 4) == 0
            && ReadClLens(v, 14, 4) == ONLY18 && ValidLens(ONLY18) && Kraft(ONLY18) <= SPACE
            && Low(Shr(v, 26), 1) == 0 && Low(Shr(v, 27), 7) == 127 && Low(Shr(v, 34), 1) == 0 && Low(Shr(v, 35), 7) == 127
            && Low(Shr(v, 42), 1) == 0 && Low(Shr(v, 43), 7) == 31 && Low(Shr(v, 50), 1) == 0 && Low(Shr(v, 51), 7) == 127
  {
    Pow2Values();
    hide Low, Shr, Pow2, ReadClLens, Kraft, ONLY18, Overrun;
    var v := Overrun(total);
    OverrunHead(v, total);
    BitsAt(v, 26, 1, 4265541374, 2132770687, 0);
    BitsAt(v, 27, 7, 2132770687, 16662270, 127);
    BitsAt(v, 34, 1, 16662270, 8331135, 0);
    BitsAt(v, 35, 7, 8331135, 65086, 127);
    BitsAt(v, 42, 1, 65086, 32543, 0);
    BitsAt(v, 43, 7, 32543, 254, 31);
    BitsAt(v, 50, 1, 254, 127, 0);
    BitsAt(v, 51, 7, 127, 0, 127);
    OverrunLens(v);
    OverrunKraft();
  }

  lemma {:induction false} OverrunLens(v: nat)
    requires Low(Shr(v, 14), 3) == 0 && Low(Shr(v, 17), 3) == 0 && Low(Shr(v, 20), 3) == 1 && Low(Shr(v, 23), 3) == 0
    ensures ReadClLens(v, 14, 4) == ONLY18
  {
    hide Low, Shr;
    assert Zag(0) == 16 && Zag(1) == 17 && Zag(2) == 18 && Zag(3) == 0;
    var r0 := ReadClLens(v, 14, 0);
    assert ReadClLens(v, 14, 1) == r0[16 := 0];
    assert ReadClLens(v, 14, 2) == r0[16 := 0][17 := 0];
    assert ReadClLens(v, 14, 3) == r0[16 := 0][17 := 0][18 := 1];
  }

  lemma {:induction false} KraftZeros(n: nat)
    ensures ValidLens(Times(0, n)) && Kraft(Times(0, n)) == 0
  {
    KraftPad([], Times(0, n));
    assert [] + Times(0, n) == Times(0, n);
  }

  lemma {:induction false} OverrunKraft()
    ensures ValidLens(ONLY18) && Kraft(ONLY18) <= SPACE
  {
    assert ONLY18 == Times(0, 18) + [1];
    assert ONLY18[..18] == Times(0, 18);
    KraftZeros(18);
    Pow2Values();
    hide Times;
  }

  /** One run-length item: a length, a repeat of the last one, or zeros. */
  datatype Op = Len(n: nat) | Again(x: nat) | Zeros(x: nat) | ManyZeros(x: nat)

  function OpSym(op: Op): nat
  {
    match op case Len(n) => n case Again(_) => 16 case Zeros(_) => 17 case ManyZeros(_) => 18
  }

  function OpExtra(op: Op): nat
  {
    match op case Len(_) => 0 case Again(_) => 2 case Zeros(_) => 3 case ManyZeros(_) => 7
  }

  ghost predicate OpOk(cl: seq<nat>, acc: seq<nat>, op: Op)
    requires |cl| == 19
  {
    OpSym(op) < 19 && cl[OpSym(op)] > 0
    && match op
       case Len(n) => n < 16
       case Again(x) => x < 4 && acc != []
       case Zeros(x) => x < 8
       case ManyZeros(x) => x < 128
  }

  function OpRun(acc: seq<nat>, op: Op): (r: seq<nat>)
    requires op.Again? ==> acc != []
    ensures |r| > |acc|
  {
    match op
    case Len(n) => acc + [n]
    case Again(x) => acc + Times(acc[|acc| - 1], x + 3)
    case Zeros(x) => acc + Times(0, x + 3)
    case ManyZeros(x) => acc + Times(0, x + 11)
  }

  function OpBits(cl: seq<nat>, op: Op): seq<bool>
    requires |cl| == 19 && OpSym(op) < 19
  {
    CodeBits(cl, OpSym(op)) + (if op.Len? then [] else LsbBits(op.x, OpExtra(op)))
  }

  /** The items spell out lens after acc. */
  ghost predicate OpsOk(cl: seq<nat>, acc: seq<nat>, ops: seq<Op>, lens: seq<nat>)
    requires |cl| == 19
    decreases |ops|
  {
    if ops == [] then acc == lens
    else OpOk(cl, acc, ops[0]) && OpsOk(cl, OpRun(acc, ops[0]), ops[1..], lens)
  }

  ghost function OpsBits(cl: seq<nat>, acc: seq<nat>, ops: seq<Op>, lens: seq<nat>): seq<bool>
    requires |cl| == 19 && OpsOk(cl, acc, ops, lens)
    decreases |ops|
  {
    if ops == [] then [] else OpBits(cl, ops[0]) + OpsBits(cl, OpRun(acc, ops[0]), ops[1..], lens)
  }

  lemma {:induction false} OpsGrow(cl: seq<nat>, acc: seq<nat>, ops: seq<Op>, lens: seq<nat>)
    requires |cl| == 19 && OpsOk(cl, acc, ops, lens)
    ensures |acc| + |ops| <= |lens|
    decreases |ops|
  {
    if ops != [] { OpsGrow(cl, OpRun(acc, ops[0]), ops[1..], lens); }
  }

  /** The lengths after the first i items. */
  function Spelled(ops: seq<Op>, i: nat): seq<nat>
    requires i <= |ops|
  {
    if i == 0 then []
    else
      var acc := Spelled(ops, i - 1);
      if ops[i - 1].Again? && acc == [] then [] else OpRun(acc, ops[i - 1])
  }

  /** The bits of the items from i on. */
  function OpsCost(cl: seq<nat>, ops: seq<Op>, i: nat): nat
    requires |cl| == 19 && i <= |ops| && forall j :: 0 <= j < |ops| ==> OpSym(ops[j]) < 19
    decreases |ops| - i
  {
    if i == |ops| then 0 else cl[OpSym(ops[i])] + OpExtra(ops[i]) + OpsCost(cl, ops, i + 1)
  }

  ghost predicate EachOk(cl: seq<nat>, ops: seq<Op>)
    requires |cl| == 19
  {
    forall j :: 0 <= j < |ops| ==> OpOk(cl, Spelled(ops, j), ops[j])
  }

  lemma {:induction false} SymsIn(cl: seq<nat>, ops: seq<Op>)
    requires |cl| == 19 && EachOk(cl, ops)
    ensures forall j :: 0 <= j < |ops| ==> OpSym(ops[j]) < 19
  {
    forall j | 0 <= j < |ops| ensures OpSym(ops[j]) < 19 { assert OpOk(cl, Spelled(ops, j), ops[j]); }
  }

  lemma {:induction false} SpelledNext(ops: seq<Op>, i: nat)
    requires i < |ops| && (ops[i].Again? ==> Spelled(ops, i) != [])
    ensures Spelled(ops, i + 1) == OpRun(Spelled(ops, i), ops[i])
  {
    hide OpRun;
  }

  lemma {:induction false} OpsCons(cl: seq<nat>, acc: seq<nat>, op: Op, rest: seq<Op>, lens: seq<nat>)
    requires |cl| == 19 && OpOk(cl, acc, op) && OpsOk(cl, OpRun(acc, op), rest, lens)
    ensures OpsOk(cl, acc, [op] + rest, lens)
    ensures OpsBits(cl, acc, [op] + rest, lens) == OpBits(cl, op) + OpsBits(cl, OpRun(acc, op), rest, lens)
  {
    hide OpRun, OpOk, OpBits;
    assert ([op] + rest)[0] == op && ([op] + rest)[1..] == rest;
  }

  lemma {:induction false} OpOkParts(cl: seq<nat>, acc: seq<nat>, op: Op)
    requires |cl| == 19 && OpOk(cl, acc, op)
    ensures OpSym(op) < 19 && (op.Again? ==> acc != [])
  {
  }

  /** Items each of which can be encoded after those before. */
  lemma {:induction false} SpelledOk(cl: seq<nat>, ops: seq<Op>, i: nat)
    requires |cl| == 19 && EachOk(cl, ops) && i <= |ops|
    ensures forall j :: 0 <= j < |ops| ==> OpSym(ops[j]) < 19
    ensures OpsOk(cl, Spelled(ops, i), ops[i..], Spelled(ops, |ops|))
    ensures |OpsBits(cl, Spelled(ops, i), ops[i..], Spelled(ops, |ops|))| == OpsCost(cl, ops, i)
    decreases |ops| - i
  {
    hide *;
    SymsIn(cl, ops);
    OpsCostIs(cl, ops, i);
    if i < |ops| {
      SpelledOk(cl, ops, i + 1);
      SpelledStep(cl, ops, i);
    } else {
      assert ops[i..] == [];
      OpsEnd(cl, Spelled(ops, i));
    }
  }

  lemma {:induction false} OpsEnd(cl: seq<nat>, lens: seq<nat>)
    requires |cl| == 19
    ensures OpsOk(cl, lens, [], lens) && OpsBits(cl, lens, [], lens) == []
  {
  }

  lemma {:induction false} OpsCostIs(cl: seq<nat>, ops: seq<Op>, i: nat)
    requires |cl| == 19 && i <= |ops| && forall j :: 0 <= j < |ops| ==> OpSym(ops[j]) < 19
    ensures OpsCost(cl, ops, i) == if i == |ops| then 0 else cl[OpSym(ops[i])] + OpExtra(ops[i]) + OpsCost(cl, ops, i + 1)
  {
  }

  lemma {:induction false} SpelledStep(cl: seq<nat>, ops: seq<Op>, i: nat)
    requires |cl| == 19 && EachOk(cl, ops) && i < |ops|
    requires OpsOk(cl, Spelled(ops, i + 1), ops[i + 1..], Spelled(ops, |ops|))
    ensures OpOk(cl, Spelled(ops, i), ops[i]) && OpSym(ops[i]) < 19 && OpsOk(cl, Spelled(ops, i), ops[i..], Spelled(ops, |ops|))
    ensures OpsBits(cl, Spelled(ops, i), ops[i..], Spelled(ops, |ops|)) ==
            OpBits(cl, ops[i]) + OpsBits(cl, Spelled(ops, i + 1), ops[i + 1..], Spelled(ops, |ops|))
    ensures |OpBits(cl, ops[i])| == cl[OpSym(ops[i])] + OpExtra(ops[i])
  {
    hide OpRun, OpOk, OpBits, Spelled, OpsOk, OpsBits, OpSym, OpExtra;
    var acc := Spelled(ops, i);
    assert OpOk(cl, acc, ops[i]);
    OpOkParts(cl, acc, ops[i]);
    SpelledNext(ops, i);
    OpsCons(cl, acc, ops[i], ops[i + 1..], Spelled(ops, |ops|));
    OpBitsSize(cl, ops[i]);
    assert [ops[i]] + ops[i + 1..] == ops[i..];
  }

  lemma {:induction false} OpBack(cl: seq<nat>, acc: seq<nat>, op: Op, v: nat)
    requires |cl| == 19 && ValidLens(cl) && Kraft(cl) <= SPACE && OpOk(cl, acc, op) && Begins(v, OpBits(cl, op))
    ensures Decode(cl, v) == Some(OpSym(op))
    ensures !op.Len? ==> Low(Shr(v, cl[OpSym(op)]), OpExtra(op)) == op.x
  {
    hide Begins, CodeBits, Kraft, Decode, Shr, Low, LsbBits, ValidLens, Pow2;
    var c := CodeBits(cl, OpSym(op));
    var x := if op.Len? then [] else LsbBits(op.x, OpExtra(op));
    BeginsAppend(v, c, x);
    ReadsBack(cl, OpSym(op), v);
    Pow2Values();
    if !op.Len? { BeginsLsb(Shr(v, |c|), op.x, OpExtra(op)); }
  }

  lemma {:induction false} OpsBack(cl: seq<nat>, acc: seq<nat>, ops: seq<Op>, lens: seq<nat>, v: nat, pos: nat)
    requires |cl| == 19 && ValidLens(cl) && Kraft(cl) <= SPACE && ValidLens(acc) && OpsOk(cl, acc, ops, lens)
    requires Begins(Shr(v, pos), OpsBits(cl, acc, ops, lens)) && |lens| <= LENCODES
    ensures ReadLens(cl, v, pos, acc, |lens|) == LensGood(pos + |OpsBits(cl, acc, ops, lens)|, lens)
    decreases |ops|
  {
    hide Begins, CodeBits, Kraft, Decode, Shr, Low, LsbBits, ValidLens, Times, OpBits, OpRun;
    if ops != [] {
      var op := ops[0];
      var next := OpRun(acc, op);
      OpsGrow(cl, acc, ops, lens);
      OpsGrow(cl, next, ops[1..], lens);
      BeginsAppend(Shr(v, pos), OpBits(cl, op), OpsBits(cl, next, ops[1..], lens));
      ShrShr(v, pos, |OpBits(cl, op)|);
      OpBack(cl, acc, op, Shr(v, pos));
      OpBitsSize(cl, op);
      ShrShr(v, pos, cl[OpSym(op)]);
      OpRunValid(cl, acc, op);
      ReadLensStep(cl, v, pos, acc, op, |lens|);
      hide ReadLens;
      OpsBack(cl, next, ops[1..], lens, v, pos + |OpBits(cl, op)|);
    } else {
      hide ReadLens;
      ReadLensDone(cl, v, pos, acc, |lens|);
    }
  }

  lemma {:induction false} ReadLensStep(cl: seq<nat>, v: nat, pos: nat, acc: seq<nat>, op: Op, total: nat)
    requires |cl| == 19 && ValidLens(acc) && OpOk(cl, acc, op) && |acc| < total && ValidLens(OpRun(acc, op)) && |OpRun(acc, op)| <= LENCODES
    requires Decode(cl, Shr(v, pos)) == Some(OpSym(op))
    requires !op.Len? ==> Low(Shr(v, pos + cl[OpSym(op)]), OpExtra(op)) == op.x
    ensures ReadLens(cl, v, pos, acc, total) == ReadLens(cl, v, pos + cl[OpSym(op)] + OpExtra(op), OpRun(acc, op), total)
  {
    hide Decode, Shr, Low, Times, ValidLens;
  }

  lemma {:induction false} OpBitsSize(cl: seq<nat>, op: Op)
    requires |cl| == 19 && OpSym(op) < 19
    ensures |OpBits(cl, op)| == cl[OpSym(op)] + OpExtra(op)
  {
  }

  lemma {:induction false} OpRunValid(cl: seq<nat>, acc: seq<nat>, op: Op)
    requires |cl| == 19 && ValidLens(acc) && OpOk(cl, acc, op)
    ensures ValidLens(OpRun(acc, op))
  {
  }

  // ---------------------------------------------------------------- dynamic block headers

  /** The code length code cl, of which the first hclen in zigzag order are sent; the numbers of
      literal/length and distance codes; and the items that spell their lengths. */
  datatype Header = Header(cl: seq<nat>, hclen: nat, lit: seq<nat>, dist: seq<nat>, ops: seq<Op>)

  ghost predicate HeaderOk(h: Header)
  {
    |h.cl| == 19 && 4 <= h.hclen <= 19 && (forall i :: 0 <= i < 19 ==> h.cl[i] < 8)
    && (forall i :: h.hclen <= i < 19 ==> h.cl[Zag(i)] == 0)
    && 257 <= |h.lit| <= 288 && 1 <= |h.dist| <= 32 && ValidLens(h.lit) && ValidLens(h.dist)
    && ClValid(h.cl) && Kraft(h.cl) <= SPACE && Kraft(h.lit) <= SPACE && Kraft(h.dist) <= SPACE
    && OpsOk(h.cl, [], h.ops, h.lit + h.dist)
  }

  ghost predicate ClValid(cl: seq<nat>)
    ensures ClValid(cl) ==> ValidLens(cl)
  {
    ValidLens(cl)
  }

  ghost function ClBits(cl: seq<nat>, n: nat): (bs: seq<bool>)
    requires |cl| == 19 && n <= 19
    ensures |bs| == 3 * n
  {
    if n == 0 then [] else ClBits(cl, n - 1) + LsbBits(cl[Zag(n - 1)], 3)
  }

  ghost function HeaderBits(h: Header): seq<bool>
    requires HeaderOk(h)
  {
    LsbBits(|h.lit| - 257, 5) + (LsbBits(|h.dist| - 1, 5) + (LsbBits(h.hclen - 4, 4)
    + (ClBits(h.cl, h.hclen) + OpsBits(h.cl, [], h.ops, h.lit + h.dist))))
  }

  lemma {:induction false} ClBack(v: nat, pos: nat, cl: seq<nat>, n: nat)
    requires |cl| == 19 && n <= 19 && (forall i :: 0 <= i < 19 ==> cl[i] < 8) && Begins(Shr(v, pos), ClBits(cl, n))
    ensures forall i :: 0 <= i < 19 ==> ReadClLens(v, pos, n)[Zag(i)] == if i < n then cl[Zag(i)] else 0
  {
    hide Begins, Shr, Low, LsbBits, Zag;
    if n > 0 {
      BeginsAppend(Shr(v, pos), ClBits(cl, n - 1), LsbBits(cl[Zag(n - 1)], 3));
      ShrShr(v, pos, 3 * (n - 1));
      Pow2Values();
      BeginsLsb(Shr(v, pos + 3 * (n - 1)), cl[Zag(n - 1)], 3);
      ClBack(v, pos, cl, n - 1);
      forall i | 0 <= i < 19 && Zag(i) == Zag(n - 1) ensures i == n - 1 {
        ZagInverse(i);
        ZagInverse(n - 1);
      }
    }
  }

  lemma {:induction false} ClAllBack(v: nat, pos: nat, cl: seq<nat>, n: nat)
    requires |cl| == 19 && n <= 19 && (forall i :: 0 <= i < 19 ==> cl[i] < 8) && Begins(Shr(v, pos), ClBits(cl, n))
    requires forall i :: n <= i < 19 ==> cl[Zag(i)] == 0
    ensures ReadClLens(v, pos, n) == cl
  {
    hide Begins, Shr, Low, LsbBits, Zag, UnZag, ReadClLens, ClBits;
    ClBack(v, pos, cl, n);
    var r := ReadClLens(v, pos, n);
    forall k | 0 <= k < 19 ensures r[k] == cl[k] {
      ZagInverse(k);
      assert r[Zag(UnZag(k))] == if UnZag(k) < n then cl[Zag(UnZag(k))] else 0;
    }
  }

  lemma {:induction false} HeaderBack(v: nat, pos: nat, h: Header)
    requires HeaderOk(h) && Begins(Shr(v, pos), HeaderBits(h))
    ensures ReadCodes(v, pos) == CodesGood(pos + |HeaderBits(h)|, h.lit, h.dist)
  {
    hide Begins, Shr, Low, LsbBits, ClBits, OpsBits, Kraft, Pow2, ReadClLens, ReadLens, OpsOk, ValidLens, Zag;
    var b0, b1, b2, b3, b4 := LsbBits(|h.lit| - 257, 5), LsbBits(|h.dist| - 1, 5), LsbBits(h.hclen - 4, 4),
                              ClBits(h.cl, h.hclen), OpsBits(h.cl, [], h.ops, h.lit + h.dist);
    Pow2Values();
    BeginsAppend(Shr(v, pos), b0, b1 + (b2 + (b3 + b4)));
    ShrShr(v, pos, 5);
    BeginsAppend(Shr(v, pos + 5), b1, b2 + (b3 + b4));
    ShrShr(v, pos + 5, 5);
    BeginsAppend(Shr(v, pos + 10), b2, b3 + b4);
    ShrShr(v, pos + 10, 4);
    BeginsAppend(Shr(v, pos + 14), b3, b4);
    ShrShr(v, pos + 14, 3 * h.hclen);
    BeginsLsb(Shr(v, pos), |h.lit| - 257, 5);
    BeginsLsb(Shr(v, pos + 5), |h.dist| - 1, 5);
    BeginsLsb(Shr(v, pos + 10), h.hclen - 4, 4);
    ClAllBack(v, pos + 14, h.cl, h.hclen);
    NoneValid();
    OpsBack(h.cl, [], h.ops, h.lit + h.dist, v, pos + 14 + 3 * h.hclen);
    assert (h.lit + h.dist)[..|h.lit|] == h.lit && (h.lit + h.dist)[|h.lit|..] == h.dist;
  }

  lemma {:induction false} NoneValid()
    ensures ValidLens([])
  {
  }

  // ---------------------------------------------------------------- blocks and streams

  /** The three header bits have been read; the block's body is at pos. */
  ghost function RunBlock(fuel: nat, kind: nat, v: nat, size: nat, pos: nat, out: seq<byte>, cap: Option<nat>): Res
  {
    if kind == 0 then RunStored(v, size, pos, out, cap)
    else if kind == 1 then RunToks(fuel, FixedLengths(), FixedDistances(), v, pos, out, cap)
    else if kind == 2 then
      match ReadCodes(v, pos)
      case CodesCorrupt => Corrupt
      case CodesUndefined => Undefined
      case CodesOverrun => Undefined
      case CodesGood(p, lit, dist) => RunToks(fuel, lit, dist, v, p, out, cap)
    else Corrupt
  }

  /** Blocks up to the final one, or to the first that leaves more than 65536 bytes if partial.
      At most fuel blocks, each of at most fuel tokens. */
  ghost function RunBlocks(n: nat, fuel: nat, partial: bool, v: nat, size: nat, pos: nat, out: seq<byte>, cap: Option<nat>): Res
    decreases n
  {
    if n == 0 then OutOfFuel
    else
      match RunBlock(fuel, Low(Shr(v, pos + 1), 2), v, size, pos + 3, out, cap)
      case Good(p, o) =>
        if Low(Shr(v, pos), 1) == 1 || (partial && |o| > 65536) then Good(p, o)
        else RunBlocks(n - 1, fuel, partial, v, size, p, o, cap)
      case Corrupt => Corrupt
      case Undefined => Undefined
      case OutOfFuel => OutOfFuel
  }

  datatype Block = Stored(bytes: seq<byte>) | Fixed(toks: seq<Tok>) | Dynamic(h: Header, toks: seq<Tok>)

  ghost predicate BlockOk(n: nat, b: Block)
  {
    match b
    case Stored(bytes) => |bytes| < 0x10000
    case Fixed(toks) => ToksOk(FixedLengths(), FixedDistances(), n, toks)
    case Dynamic(h, toks) => HeaderOk(h) && h.lit[256] > 0 && ToksOk(h.lit, h.dist, n, toks)
  }

  ghost function ExpandBlock(out: seq<byte>, b: Block): seq<byte>
    requires BlockOk(|out|, b)
  {
    match b
    case Stored(bytes) => out + bytes
    case Fixed(toks) => Expand(FixedLengths(), FixedDistances(), out, toks)
    case Dynamic(h, toks) => Expand(h.lit, h.dist, out, toks)
  }

  function Kind(b: Block): nat
  {
    if b.Stored? then 0 else if b.Fixed? then 1 else 2
  }

  /** The body of a block whose body starts at bit pos of the stream. */
  ghost function BodyBits(pos: nat, n: nat, b: Block): seq<bool>
    requires BlockOk(n, b)
  {
    match b
    case Stored(bytes) => StoredBits(pos, bytes)
    case Fixed(toks) => ToksBits(FixedLengths(), FixedDistances(), n, toks)
    case Dynamic(h, toks) => HeaderBits(h) + ToksBits(h.lit, h.dist, n, toks)
  }

  function TokCount(b: Block): nat
  {
    if b.Stored? then 0 else |b.toks|
  }

  ghost predicate BlocksOk(out: seq<byte>, bs: seq<Block>)
    decreases |bs|
  {
    bs == [] || (BlockOk(|out|, bs[0]) && BlocksOk(ExpandBlock(out, bs[0]), bs[1..]))
  }

  ghost function ExpandBlocks(out: seq<byte>, bs: seq<Block>): seq<byte>
    requires BlocksOk(out, bs)
    decreases |bs|
  {
    if bs == [] then out else ExpandBlocks(ExpandBlock(out, bs[0]), bs[1..])
  }

  /** The blocks, the last one marked final, starting at bit pos of the stream. */
  ghost function StreamBits(pos: nat, out: seq<byte>, bs: seq<Block>): seq<bool>
    requires BlocksOk(out, bs)
    decreases |bs|
  {
    if bs == [] then []
    else
      var head := LsbBits(if |bs| == 1 then 1 else 0, 1) + (LsbBits(Kind(bs[0]), 2) + BodyBits(pos + 3, |out|, bs[0]));
      head + StreamBits(pos + |head|, ExpandBlock(out, bs[0]), bs[1..])
  }

  // ---------------------------------------------------------------- round trip

  lemma {:induction false} FixedOk()
    ensures |FixedLengths()| == 288 && |FixedDistances()| == 32
    ensures ValidLens(FixedLengths()) && ValidLens(FixedDistances())
    ensures FixedLengths()[256] > 0
  {
  }

  lemma {:induction false} KraftTimes(a: seq<nat>, x: nat, n: nat)
    requires ValidLens(a) && 0 < x <= 15
    ensures ValidLens(a + Times(x, n)) && Kraft(a + Times(x, n)) == Kraft(a) + n * Pow2(16 - x)
  {
    if n == 0 {
      assert a + Times(x, n) == a;
    } else {
      KraftTimes(a, x, n - 1);
      var s := a + Times(x, n);
      assert s == (a + Times(x, n - 1)) + [x];
      hide Pow2, Times;
      KraftOne(a + Times(x, n - 1), x);
      Multiple(n, Pow2(16 - x));
    }
  }

  lemma {:induction false} KraftOne(s: seq<nat>, x: nat)
    requires ValidLens(s) && 0 < x <= 15
    ensures ValidLens(s + [x]) && Kraft(s + [x]) == Kraft(s) + Pow2(16 - x)
  {
    assert (s + [x])[..|s|] == s;
  }

  lemma {:induction false} Multiple(n: nat, m: nat)
    requires n > 0
    ensures n * m == (n - 1) * m + m
  {
  }

  /** The fixed codes use up the code space exactly. */
  lemma {:induction false} FixedKraft()
    ensures ValidLens(FixedLengths()) && Kraft(FixedLengths()) == SPACE
    ensures ValidLens(FixedDistances()) && Kraft(FixedDistances()) == SPACE
  {
    var a := Times(8, 144);
    var b := a + Times(9, 112);
    var c := b + Times(7, 24);
    assert FixedLengths() == c + Times(8, 8);
    assert FixedDistances() == [] + Times(5, 32);
    assert a == [] + a;
    hide FixedLengths, FixedDistances, Times, Kraft;
    KraftNone();
    KraftTimes([], 8, 144);
    KraftTimes(a, 9, 112);
    KraftTimes(b, 7, 24);
    KraftTimes(c, 8, 8);
    KraftTimes([], 5, 32);
    Pow2Values();
    Pow2Add(10, 1);
  }

  lemma {:induction false} KraftNone()
    ensures ValidLens([]) && Kraft([]) == 0
  {
  }

  lemma {:induction false} BodyBack(fuel: nat, v: nat, size: nat, pos: nat, out: seq<byte>, b: Block)
    requires BlockOk(|out|, b) && Begins(Shr(v, pos), BodyBits(pos, |out|, b)) && fuel > TokCount(b)
    requires pos + |BodyBits(pos, |out|, b)| <= 8 * size
    ensures RunBlock(fuel, Kind(b), v, size, pos, out, None) == Good(pos + |BodyBits(pos, |out|, b)|, ExpandBlock(out, b))
  {
    hide Begins, Shr, Low, LsbBits, HeaderBits, ToksBits, Kraft, Pow2, StoredBits, RunStored, RunToks, ReadCodes, FixedLengths, FixedDistances, ToksOk, Expand;
    FixedOk();
    match b
    case Stored(bytes) => StoredBack(v, size, pos, out, bytes);
    case Fixed(toks) =>
      FixedKraft();
      ToksBack(fuel, FixedLengths(), FixedDistances(), toks, v, pos, out);
    case Dynamic(h, toks) =>
      BeginsAppend(Shr(v, pos), HeaderBits(h), ToksBits(h.lit, h.dist, |out|, toks));
      HeaderBack(v, pos, h);
      ShrShr(v, pos, |HeaderBits(h)|);
      ToksBack(fuel, h.lit, h.dist, toks, v, pos + |HeaderBits(h)|, out);
  }

  lemma {:induction false} StreamBack(n: nat, fuel: nat, v: nat, size: nat, pos: nat, out: seq<byte>, bs: seq<Block>)
    requires bs != [] && BlocksOk(out, bs) && Begins(Shr(v, pos), StreamBits(pos, out, bs))
    requires n >= |bs| && (forall b :: b in bs ==> fuel > TokCount(b))
    requires pos + |StreamBits(pos, out, bs)| <= 8 * size
    ensures RunBlocks(n, fuel, false, v, size, pos, out, None) == Good(pos + |StreamBits(pos, out, bs)|, ExpandBlocks(out, bs))
    decreases |bs|
  {
    hide *;
    assert bs[0] in bs;
    FirstBack(n, fuel, false, v, size, pos, out, bs);
    var p, o := pos + 3 + |BodyBits(pos + 3, |out|, bs[0])|, ExpandBlock(out, bs[0]);
    if |bs| > 1 {
      StreamBack(n - 1, fuel, v, size, p, o, bs[1..]);
    } else {
      EndOfStream(p, o, bs[1..]);
    }
  }

  /** The first k blocks. */
  lemma {:induction false} BlocksHead(out: seq<byte>, bs: seq<Block>, k: nat)
    requires BlocksOk(out, bs) && bs != [] && 0 < k <= |bs| && BlocksOk(ExpandBlock(out, bs[0]), bs[1..][..k - 1])
    ensures BlocksOk(out, bs[..k]) && ExpandBlocks(out, bs[..k]) == ExpandBlocks(ExpandBlock(out, bs[0]), bs[1..][..k - 1])
  {
    hide BlockOk, ExpandBlock;
    assert bs[..k][0] == bs[0] && bs[..k][1..] == bs[1..][..k - 1];
  }

  /** No fewer than k of the blocks expand to more than 65536 bytes. */
  ghost predicate NoFewer(out: seq<byte>, bs: seq<Block>, k: nat)
  {
    forall j: nat :: 0 < j < k && j <= |bs| && BlocksOk(out, bs[..j]) ==> |ExpandBlocks(out, bs[..j])| <= 65536
  }

  lemma {:induction false} ShortMore(out: seq<byte>, bs: seq<Block>, k: nat)
    requires BlocksOk(out, bs) && bs != [] && |ExpandBlock(out, bs[0])| <= 65536 && NoFewer(ExpandBlock(out, bs[0]), bs[1..], k)
    ensures NoFewer(out, bs, k + 1)
  {
    hide BlockOk, ExpandBlock;
    var o := ExpandBlock(out, bs[0]);
    forall j: nat | 0 < j < k + 1 && j <= |bs| && BlocksOk(out, bs[..j]) ensures |ExpandBlocks(out, bs[..j])| <= 65536 {
      assert bs[..j][0] == bs[0] && bs[..j][1..] == bs[1..][..j - 1];
      if j == 1 { assert bs[..1][1..] == []; }
    }
  }

  /** When only a part is wanted, decoding stops after the first blocks that expand to more than 65536 bytes, or after all. */
  lemma {:induction false} PartialBack(n: nat, fuel: nat, v: nat, size: nat, pos: nat, out: seq<byte>, bs: seq<Block>) returns (k: nat)
    requires bs != [] && BlocksOk(out, bs) && Begins(Shr(v, pos), StreamBits(pos, out, bs))
    requires n >= |bs| && (forall b :: b in bs ==> fuel > TokCount(b))
    requires pos + |StreamBits(pos, out, bs)| <= 8 * size
    ensures 0 < k <= |bs| && BlocksOk(out, bs[..k]) && RunBlocks(n, fuel, true, v, size, pos, out, None).Good?
    ensures RunBlocks(n, fuel, true, v, size, pos, out, None).out == ExpandBlocks(out, bs[..k])
    ensures (k < |bs| ==> |ExpandBlocks(out, bs[..k])| > 65536) && NoFewer(out, bs, k)
    decreases |bs|
  {
    hide *;
    assert bs[0] in bs;
    FirstBack(n, fuel, true, v, size, pos, out, bs);
    var p, o := pos + 3 + |BodyBits(pos + 3, |out|, bs[0])|, ExpandBlock(out, bs[0]);
    if |bs| == 1 || |o| > 65536 {
      k := 1;
      assert bs[1..][..0] == [];
      BlocksNone(o, []);
      BlocksHead(out, bs, 1);
      ShortNone(out, bs);
    } else {
      k := PartialBack(n - 1, fuel, v, size, p, o, bs[1..]);
      BlocksHead(out, bs, k + 1);
      ShortMore(out, bs, k);
      k := k + 1;
    }
  }

  lemma {:induction false} BlocksNone(out: seq<byte>, bs: seq<Block>)
    requires bs == []
    ensures BlocksOk(out, bs) && ExpandBlocks(out, bs) == out
  {
  }

  lemma {:induction false} ShortNone(out: seq<byte>, bs: seq<Block>)
    ensures NoFewer(out, bs, 1)
  {
  }

  /** The first block: its end, and where the others are. */
  lemma {:induction false} FirstBack(n: nat, fuel: nat, partial: bool, v: nat, size: nat, pos: nat, out: seq<byte>, bs: seq<Block>)
    requires bs != [] && BlocksOk(out, bs) && Begins(Shr(v, pos), StreamBits(pos, out, bs))
    requires n > 0 && fuel > TokCount(bs[0]) && pos + |StreamBits(pos, out, bs)| <= 8 * size
    ensures BlockOk(|out|, bs[0]) && BlocksOk(ExpandBlock(out, bs[0]), bs[1..])
    ensures ExpandBlocks(out, bs) == ExpandBlocks(ExpandBlock(out, bs[0]), bs[1..])
    ensures var o, p := ExpandBlock(out, bs[0]), pos + 3 + |BodyBits(pos + 3, |out|, bs[0])|;
            RunBlocks(n, fuel, partial, v, size, pos, out, None) ==
              (if |bs| == 1 || (partial && |o| > 65536) then Good(p, o) else RunBlocks(n - 1, fuel, partial, v, size, p, o, None))
            && Begins(Shr(v, p), StreamBits(p, o, bs[1..])) && p + |StreamBits(p, o, bs[1..])| == pos + |StreamBits(pos, out, bs)|
  {
    hide Begins, Shr, Low, LsbBits, Pow2, RunBlock, BodyBits, BlockOk, ExpandBlock;
    var b := bs[0];
    var last := if |bs| == 1 then 1 else 0;
    var b0, b1, b2 := LsbBits(last, 1), LsbBits(Kind(b), 2), BodyBits(pos + 3, |out|, b);
    var head := b0 + (b1 + b2);
    var tail := StreamBits(pos + |head|, ExpandBlock(out, b), bs[1..]);
    BeginsAppend(Shr(v, pos), head, tail);
    BeginsAppend(Shr(v, pos), b0, b1 + b2);
    ShrShr(v, pos, 1);
    BeginsAppend(Shr(v, pos + 1), b1, b2);
    ShrShr(v, pos + 1, 2);
    ShrShr(v, pos, |head|);
    Pow2Values();
    BeginsLsb(Shr(v, pos), last, 1);
    BeginsLsb(Shr(v, pos + 1), Kind(b), 2);
    BodyBack(fuel, v, size, pos + 3, out, b);
  }

  lemma {:induction false} EndOfStream(pos: nat, out: seq<byte>, bs: seq<Block>)
    requires bs == []
    ensures BlocksOk(out, bs) && StreamBits(pos, out, bs) == [] && ExpandBlocks(out, bs) == out
  {
  }
}
