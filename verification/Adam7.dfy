/** De-interlacing in create_png_image of DuiLib/stb_image.c: section 2.6 of RFC 2083. */
module Adam7 {
  import opened Bits
  import opened PngFilter
  import opened PngRaw

  const XORIG: seq<nat> := [0, 4, 0, 2, 0, 1, 0]
  const YORIG: seq<nat> := [0, 0, 4, 0, 2, 0, 1]
  const XSPC: seq<nat> := [8, 8, 4, 4, 2, 2, 1]
  const YSPC: seq<nat> := [8, 8, 8, 4, 4, 2, 2]

  /** Origin and spacing along one axis. */
  datatype Axis = Axis(orig: nat, spc: nat)

  function AxisX(p: nat): Axis requires p < 7 { Axis(XORIG[p], XSPC[p]) }
  function AxisY(p: nat): Axis requires p < 7 { Axis(YORIG[p], YSPC[p]) }

  predicate AxisOk(a: Axis)
  {
    a.orig < a.spc && (a.spc == 1 || a.spc == 2 || a.spc == 4 || a.spc == 8)
  }

  /** The places of an axis below n. */
  function Count(a: Axis, n: nat): nat
    requires AxisOk(a)
  {
    (n - a.orig + a.spc - 1) / a.spc
  }

  function Place(a: Axis, i: nat): nat { i * a.spc + a.orig }

  lemma {:induction false} PassAxes(p: nat)
    requires p < 7
    ensures AxisOk(AxisX(p)) && AxisOk(AxisY(p))
  {
  }

  /** The places below n are those of the first Count indices, and each has one index. */
  lemma {:induction false} PlaceIn(a: Axis, n: nat, i: nat)
    requires AxisOk(a)
    ensures i < Count(a, n) <==> Place(a, i) < n
    ensures Place(a, i) % a.spc == a.orig
  {
    if a.spc == 8 { PlaceRest(i, 8, a.orig); }
    else if a.spc == 4 { PlaceRest(i, 4, a.orig); }
    else if a.spc == 2 { PlaceRest(i, 2, a.orig); }
  }

  lemma {:induction false} PlaceRest(i: nat, m: nat, r: nat)
    requires r < m && (m == 8 || m == 4 || m == 2)
    ensures (i * m + r) % m == r
  {
  }

  lemma {:induction false} PlaceFrom(a: Axis, v: nat)
    requires AxisOk(a) && v % a.spc == a.orig
    ensures Place(a, v / a.spc) == v
  {
  }

  lemma {:induction false} PlaceOnce(a: Axis, i: nat, k: nat)
    requires AxisOk(a) && Place(a, i) == Place(a, k)
    ensures i == k
  {
  }

  /** The pass that pixel (x, y) belongs to. */
  function PassOf(x: nat, y: nat): (p: nat)
    ensures p < 7
  {
    if y % 2 == 1 then 6
    else if x % 2 == 1 then 5
    else if y % 4 == 2 then 4
    else if x % 4 == 2 then 3
    else if y % 8 == 4 then 2
    else if x % 8 == 4 then 1
    else 0
  }

  predicate OnAxes(p: nat, x: nat, y: nat)
    requires p < 7
  {
    AxisOk(AxisX(p)) && AxisOk(AxisY(p)) && x % XSPC[p] == XORIG[p] && y % YSPC[p] == YORIG[p]
  }

  lemma {:induction false} OnePass(p: nat, x: nat, y: nat)
    requires p < 7
    ensures OnAxes(p, x, y) <==> p == PassOf(x, y)
  {
    Residues(x);
    Residues(y);
  }

  lemma {:induction false} Remainder(n: nat, m: nat, q: nat, r: nat)
    requires (m == 4 || m == 2) && r < m && n == m * q + r
    ensures n % m == r
  {
  }

  lemma {:induction false} Digits(q: nat, r: nat)
    requires r < 8
    ensures (8 * q + r) % 4 == if r < 4 then r else r - 4
    ensures (8 * q + r) % 2 == if r == 0 || r == 2 || r == 4 || r == 6 then 0 else 1
  {
    Remainder(8 * q + r, 4, if r < 4 then 2 * q else 2 * q + 1, if r < 4 then r else r - 4);
    var k := if r < 2 then 0 else if r < 4 then 1 else if r < 6 then 2 else 3;
    Remainder(8 * q + r, 2, 4 * q + k, r - 2 * k);
  }

  lemma {:induction false} Residues(v: nat)
    ensures v % 8 == 0 ==> v % 4 == 0
    ensures v % 8 == 4 ==> v % 4 == 0
    ensures v % 4 == 0 ==> v % 8 == 0 || v % 8 == 4
    ensures v % 4 == 0 || v % 4 == 2 ==> v % 2 == 0
    ensures v % 2 == 0 ==> v % 4 == 0 || v % 4 == 2
  {
    Digits(v / 8, v % 8);
  }

  /** Pixel (i, j) of pass p of a w by h image. */
  ghost predicate Holds(p: nat, i: nat, j: nat, w: nat, h: nat, x: nat, y: nat)
  {
    p < 7 && AxisOk(AxisX(p)) && AxisOk(AxisY(p)) && i < Count(AxisX(p), w) && j < Count(AxisY(p), h)
    && x == Place(AxisX(p), i) && y == Place(AxisY(p), j)
  }

  /** Every pixel of the image is one pixel of one pass, and every pixel of a pass is one of the image. */
  lemma {:induction false} EveryPixelOnce(w: nat, h: nat, x: nat, y: nat)
    ensures x < w && y < h ==> var p := PassOf(x, y); Holds(p, x / XSPC[p], y / YSPC[p], w, h, x, y)
    ensures forall p: nat, i: nat, j: nat :: Holds(p, i, j, w, h, x, y) ==> x < w && y < h && p == PassOf(x, y) && i == x / XSPC[p] && j == y / YSPC[p]
  {
    var p := PassOf(x, y);
    PassAxes(p);
    OnePass(p, x, y);
    PlaceFrom(AxisX(p), x);
    PlaceFrom(AxisY(p), y);
    PlaceIn(AxisX(p), w, x / XSPC[p]);
    PlaceIn(AxisY(p), h, y / YSPC[p]);
    hide PassOf, Count, Place;
    forall q: nat, i: nat, j: nat | Holds(q, i, j, w, h, x, y)
      ensures x < w && y < h && q == p && i == x / XSPC[q] && j == y / YSPC[q]
    {
      PlaceIn(AxisX(q), w, i);
      PlaceIn(AxisY(q), h, j);
      OnePass(q, x, y);
      PlaceOnce(AxisX(q), i, x / XSPC[q]);
      PlaceOnce(AxisY(q), j, y / YSPC[q]);
    }
  }

  function PassX(p: nat, w: nat): nat requires p < 7 { PassAxes(p); Count(AxisX(p), w) }
  function PassY(p: nat, h: nat): nat requires p < 7 { PassAxes(p); Count(AxisY(p), h) }

  lemma {:induction false} Quotient(n: nat, m: nat, q: nat)
    requires m == 8 || m == 4 || m == 2
    requires m * q <= n < m * q + m
    ensures n / m == q
  {
  }

  lemma {:induction false} Halves(n: nat)
    ensures (n + 7) / 8 + (n + 3) / 8 == (n + 3) / 4 && (n + 3) / 4 + (n + 1) / 4 == (n + 1) / 2 && (n + 1) / 2 + n / 2 == n
  {
    Eighths(n, n / 8, n % 8);
  }

  lemma {:induction false} Eighths(n: nat, q: nat, r: nat)
    requires r < 8 && n == 8 * q + r
    ensures (n + 7) / 8 == (if r == 0 then q else q + 1) && (n + 3) / 8 == (if r <= 4 then q else q + 1)
    ensures (n + 3) / 4 == 2 * q + (if r == 0 then 0 else if r <= 4 then 1 else 2)
    ensures (n + 1) / 4 == 2 * q + (if r <= 2 then 0 else if r <= 6 then 1 else 2)
    ensures (n + 1) / 2 == 4 * q + (if r == 0 then 0 else if r <= 2 then 1 else if r <= 4 then 2 else if r <= 6 then 3 else 4)
    ensures n / 2 == 4 * q + (if r <= 1 then 0 else if r <= 3 then 1 else if r <= 5 then 2 else 3)
  {
    Quotient(n + 7, 8, if r == 0 then q else q + 1);
    Quotient(n + 3, 8, if r <= 4 then q else q + 1);
    Quotient(n + 3, 4, 2 * q + if r == 0 then 0 else if r <= 4 then 1 else 2);
    Quotient(n + 1, 4, 2 * q + if r <= 2 then 0 else if r <= 6 then 1 else 2);
    Quotient(n + 1, 2, 4 * q + if r == 0 then 0 else if r <= 2 then 1 else if r <= 4 then 2 else if r <= 6 then 3 else 4);
    Quotient(n, 2, 4 * q + if r <= 1 then 0 else if r <= 3 then 1 else if r <= 5 then 2 else 3);
  }

  lemma {:induction false} PassSizes(w: nat, h: nat)
    ensures PassX(0, w) == (w + 7) / 8 && PassX(1, w) == (w + 3) / 8 && PassX(2, w) == (w + 3) / 4 && PassX(3, w) == (w + 1) / 4
    ensures PassX(4, w) == (w + 1) / 2 && PassX(5, w) == w / 2 && PassX(6, w) == w
    ensures PassY(0, h) == (h + 7) / 8 && PassY(1, h) == (h + 7) / 8 && PassY(2, h) == (h + 3) / 8 && PassY(3, h) == (h + 3) / 4
    ensures PassY(4, h) == (h + 1) / 4 && PassY(5, h) == (h + 1) / 2 && PassY(6, h) == h / 2
  {
  }

  /** Rectangles put together: each pass doubles the pixels of the ones before it, in one direction or the other. */
  lemma {:induction false} Doubling(a1: nat, b1: nat, a2: nat, b2: nat, a3: nat, b3: nat, w: nat, c1: nat, d1: nat, c2: nat, d2: nat, c3: nat, d3: nat, h: nat)
    requires a1 + b1 == a2 && a2 + b2 == a3 && a3 + b3 == w && c1 + d1 == c2 && c2 + d2 == c3 && c3 + d3 == h
    ensures a1 * c1 + b1 * c1 + a2 * d1 + b2 * c2 + a3 * d2 + b3 * c3 + w * d3 == w * h
  {
    assert a1 * c1 + b1 * c1 == a2 * c1;
    assert a2 * c1 + a2 * d1 == a2 * c2;
    assert a2 * c2 + b2 * c2 == a3 * c2;
    assert a3 * c2 + a3 * d2 == a3 * c3;
    assert a3 * c3 + b3 * c3 == w * c3;
    assert w * c3 + w * d3 == w * h;
  }

  /** The passes have as many pixels as the image. */
  lemma {:induction false} PassesSum(w: nat, h: nat)
    ensures PassX(0, w) * PassY(0, h) + PassX(1, w) * PassY(1, h) + PassX(2, w) * PassY(2, h) + PassX(3, w) * PassY(3, h)
            + PassX(4, w) * PassY(4, h) + PassX(5, w) * PassY(5, h) + PassX(6, w) * PassY(6, h) == w * h
  {
    PassSizes(w, h);
    Halves(w);
    Halves(h);
    hide PassX, PassY;
    Doubling((w + 7) / 8, (w + 3) / 8, (w + 3) / 4, (w + 1) / 4, (w + 1) / 2, w / 2, w,
             (h + 7) / 8, (h + 3) / 8, (h + 3) / 4, (h + 1) / 4, (h + 1) / 2, h / 2, h);
  }

  // ---------------------------------------------------------------- the raw data of the passes

  /** By how much the source moves on in the raw data after a pass. */
  function Step(m: nat, w: nat, h: nat, p: nat): nat
    requires p < 7
  {
    if PassX(p, w) == 0 || PassY(p, h) == 0 then 0 else (PassX(p, w) * m + 1) * PassY(p, h)
  }

  /** Where pass p starts, if pixels take m bytes. */
  function StartOf(m: nat, w: nat, h: nat, p: nat): nat
    requires p <= 7
  {
    if p == 0 then 0 else StartOf(m, w, h, p - 1) + Step(m, w, h, p - 1)
  }

  lemma {:induction false} StepMore(m: nat, k: nat, w: nat, h: nat, p: nat)
    requires p < 7 && m < k
    ensures Step(m, w, h, p) <= Step(k, w, h, p)
    ensures PassX(p, w) > 0 && PassY(p, h) > 0 ==> 0 < Step(m, w, h, p) < Step(k, w, h, p)
  {
    var x, y := PassX(p, w), PassY(p, h);
    hide PassX, PassY;
    if x > 0 && y > 0 {
      assert x * k == x * m + x * (k - m) && x * (k - m) > 0;
      assert (x * k + 1) * y == (x * m + 1) * y + x * (k - m) * y && x * (k - m) * y > 0;
      assert (x * m + 1) * y > 0;
    }
  }

  lemma {:induction false} StartMore(m: nat, k: nat, w: nat, h: nat, p: nat)
    requires p <= 7 && m < k && w > 0 && h > 0
    ensures StartOf(m, w, h, p) <= StartOf(k, w, h, p) && (p > 0 ==> StartOf(m, w, h, p) < StartOf(k, w, h, p))
  {
    hide Step;
    if p > 0 {
      StartMore(m, k, w, h, p - 1);
      StepMore(m, k, w, h, p - 1);
      if p == 1 { PassSizes(w, h); }
    }
  }

  /** The passes are read from where they are exactly if the output has no sample more than the data, or the image is a single
      pixel: the source moves on by the size of the output rows. */
  lemma {:induction false} StartsRight(n: nat, out_n: nat, w: nat, h: nat)
    requires n <= out_n <= n + 1 && w > 0 && h > 0
    ensures (forall p: nat :: p < 7 && PassX(p, w) > 0 && PassY(p, h) > 0 ==> StartOf(out_n, w, h, p) == StartOf(n, w, h, p))
            <==> out_n == n || (w == 1 && h == 1)
  {
    hide StartOf, Step;
    PassSizes(w, h);
    hide PassX, PassY;
    if out_n == n {
    } else if w == 1 && h == 1 {
      forall p: nat | p < 7 && PassX(p, w) > 0 && PassY(p, h) > 0 ensures StartOf(out_n, w, h, p) == StartOf(n, w, h, p) {
        assert p == 0;
        StartZero(n, w, h);
        StartZero(out_n, w, h);
      }
    } else if w > 1 {
      StartMore(n, out_n, w, h, 5);
      assert PassX(5, w) > 0 && PassY(5, h) > 0;
    } else {
      StartMore(n, out_n, w, h, 6);
      assert PassX(6, w) > 0 && PassY(6, h) > 0;
    }
  }

  lemma {:induction false} StartZero(m: nat, w: nat, h: nat)
    ensures StartOf(m, w, h, 0) == 0
  {
  }

  /** The rows of the passes; or an error; or reading past the end of the data, after their length has wrapped around. */
  datatype Passes = Image(passes: seq<seq<seq<Pixel>>>) | Corrupt | Undefined

  function Cons(rows: seq<seq<Pixel>>, r: Passes): Passes
  {
    match r case Image(ps) => Image([rows] + ps) case _ => r
  }

  /** One pass, from start on. */
  function OnePassRows(raw: seq<byte>, start: nat, n: nat, x: nat, y: nat, w: nat, h: nat): Rows
    requires start <= |raw|
  {
    var need := Span(Span(n, x) + 1, y);
    if (if w == x && h == y then |raw| - start != need else |raw| - start < need) then BadFilter
    else Unfilter(raw[start..], 0, n, x, y, Blank(n, x))
  }

  function PassesFrom(raw: seq<byte>, n: nat, out_n: nat, w: nat, h: nat, p: nat, start: nat): (r: Passes)
    requires p <= 7
    ensures r.Image? ==> |r.passes| == 7 - p
    decreases 7 - p
  {
    if p == 7 then Image([])
    else
      var x, y := PassX(p, w), PassY(p, h);
      if x == 0 || y == 0 then Cons([], PassesFrom(raw, n, out_n, w, h, p + 1, start))
      else if start > |raw| then Undefined
      else
        match OnePassRows(raw, start, n, x, y, w, h)
        case BadFilter => Corrupt
        case Rows(rs) => Cons(rs, PassesFrom(raw, n, out_n, w, h, p + 1, start + Step(out_n, w, h, p)))
  }

  // ---------------------------------------------------------------- copying a pass into the image

  function StoredFrom(rows: seq<seq<Pixel>>, out_n: nat): seq<byte>
  {
    if rows == [] then [] else Flat(Spread(rows[0], out_n)) + StoredFrom(rows[1..], out_n)
  }

  lemma {:induction false} FromAppend(rows: seq<seq<Pixel>>, row: seq<Pixel>, out_n: nat)
    ensures StoredFrom(rows + [row], out_n) == StoredFrom(rows, out_n) + Flat(Spread(row, out_n))
  {
    if rows == [] {
      assert [] + [row] == [row] && [row][1..] == [];
    } else {
      assert (rows + [row])[1..] == rows[1..] + [row];
      FromAppend(rows[1..], row, out_n);
    }
  }

  lemma {:induction false} StoredIsFrom(rows: seq<seq<Pixel>>, out_n: nat)
    ensures Stored(rows, out_n) == StoredFrom(rows, out_n)
  {
    if rows != [] {
      var n := |rows| - 1;
      StoredIsFrom(rows[..n], out_n);
      FromAppend(rows[..n], rows[n], out_n);
      assert rows == rows[..n] + [rows[n]];
    }
  }

  lemma {:induction false} PlaceIff(a: Axis, v: nat, i: nat)
    requires AxisOk(a)
    ensures v == Place(a, i) <==> v % a.spc == a.orig && v / a.spc == i
  {
    PlaceIn(a, 0, i);
    PlaceDiv(a, i);
    if v % a.spc == a.orig && v / a.spc == i { PlaceFrom(a, v); }
  }

  lemma {:induction false} PlaceDiv(a: Axis, i: nat)
    requires AxisOk(a)
    ensures Place(a, i) / a.spc == i
  {
  }

  /** The pixel at v along an axis has an index below k. */
  predicate Below(a: Axis, v: nat, k: nat)
    requires a.spc > 0
  {
    v % a.spc == a.orig && v / a.spc < k
  }

  lemma {:induction false} BelowNext(a: Axis, v: nat, k: nat)
    requires AxisOk(a)
    ensures Below(a, v, k + 1) <==> Below(a, v, k) || v == Place(a, k)
    ensures v == Place(a, k) ==> v / a.spc == k && !Below(a, v, k)
  {
    PlaceIff(a, v, k);
  }

  /** What a row of a pass has for the pixel at u. */
  function Pick(row: seq<Pixel>, a: Axis, u: nat, out_n: nat): Pixel
  {
    if a.spc > 0 && u / a.spc < |row| then OutPixel(row[u / a.spc], out_n) else []
  }

  lemma {:induction false} PlaceNext(a: Axis, n: nat, k: nat, row: seq<Pixel>, out_n: nat)
    requires AxisOk(a) && k < Count(a, n) == |row|
    ensures Place(a, k) < n && Pick(row, a, Place(a, k), out_n) == OutPixel(row[k], out_n)
    ensures forall u: nat :: Below(a, u, k + 1) <==> Below(a, u, k) || u == Place(a, k)
    ensures !Below(a, Place(a, k), k)
  {
    PlaceIn(a, n, k);
    hide Below, OutPixel;
    forall u: nat ensures Below(a, u, k + 1) <==> Below(a, u, k) || u == Place(a, k)
                  ensures u == Place(a, k) ==> u / a.spc == k && !Below(a, u, k)
    {
      BelowNext(a, u, k);
    }
  }

  lemma {:induction false} BelowNone(a: Axis)
    requires AxisOk(a)
    ensures a.spc > 0 && forall u: nat :: !Below(a, u, 0)
  {
  }

  /** One row of a pass, as it goes into row y of the image. */
  method CopyRow(final: array2<Pixel>, out: seq<byte>, at0: nat, ax: Axis, x: nat, y: nat, out_n: nat, ghost row: seq<Pixel>, ghost n: nat, ghost rest: seq<byte>)
    returns (at: nat)
    requires AxisOk(ax) && x == Count(ax, final.Length0) == |row| && y < final.Length1 && Even(n, row) && n <= out_n <= n + 1
    requires at0 <= |out| && out[at0..] == Flat(Spread(row, out_n)) + rest
    modifies final
    ensures at <= |out| && out[at..] == rest
    ensures forall u, v :: 0 <= u < final.Length0 && 0 <= v < final.Length1 ==>
              final[u, v] == if v == y && Below(ax, u, x) then Pick(row, ax, u, out_n) else old(final[u, v])
  {
    BelowNone(ax);
    hide *;
    var i := 0;
    at := at0;
    NoneDone(row);
    while i < x
      invariant 0 <= i <= x && at <= |out| && out[at..] == Flat(Spread(row[i..], out_n)) + rest
      invariant forall u, v :: 0 <= u < final.Length0 && 0 <= v < final.Length1 ==>
                  final[u, v] == if v == y && Below(ax, u, i) then Pick(row, ax, u, out_n) else old(final[u, v])
    {
      NextShown(out, at, row, i, n, out_n, rest);
      PlaceNext(ax, final.Length0, i, row, out_n);
      final[Place(ax, i), y] := out[at..at + out_n];
      at := at + out_n;
      i := i + 1;
    }
    AllDone(row, out_n);
  }

  lemma {:induction false} NoneDone(row: seq<Pixel>)
    ensures row[0..] == row
  {
  }

  lemma {:induction false} AllDone(row: seq<Pixel>, out_n: nat)
    ensures Flat(Spread(row[|row|..], out_n)) == []
  {
  }

  lemma {:induction false} NextShown(out: seq<byte>, at: nat, row: seq<Pixel>, i: nat, n: nat, out_n: nat, rest: seq<byte>)
    requires at <= |out| && i < |row| && Even(n, row) && n <= out_n <= n + 1 && out[at..] == Flat(Spread(row[i..], out_n)) + rest
    ensures at + out_n <= |out| && out[at..at + out_n] == OutPixel(row[i], out_n)
    ensures out[at + out_n..] == Flat(Spread(row[i + 1..], out_n)) + rest
  {
    SpreadHead(row[i..], out_n);
    assert row[i..][0] == row[i] && row[i..][1..] == row[i + 1..];
    var head, tail := OutPixel(row[i], out_n), Flat(Spread(row[i + 1..], out_n));
    hide Flat, Spread, OutPixel;
    SizeOf(row[i], n, out_n);
    assert out[at..] == head + (tail + rest);
    assert out[at..at + out_n] == out[at..][..out_n] && out[at + out_n..] == out[at..][out_n..];
  }

  lemma {:induction false} SizeOf(p: Pixel, n: nat, out_n: nat)
    requires |p| == n && n <= out_n <= n + 1
    ensures |OutPixel(p, out_n)| == out_n
  {
  }

  function Pick2(rows: seq<seq<Pixel>>, ax: Axis, ay: Axis, u: nat, v: nat, out_n: nat): Pixel
  {
    if ay.spc > 0 && v / ay.spc < |rows| then Pick(rows[v / ay.spc], ax, u, out_n) else []
  }

  ghost predicate Sized(rows: seq<seq<Pixel>>, n: nat, x: nat, y: nat)
  {
    |rows| == y && forall j :: 0 <= j < y ==> |rows[j]| == x && Even(n, rows[j])
  }

  lemma {:induction false} RowPlace(ay: Axis, h: nat, j: nat, rows: seq<seq<Pixel>>, ax: Axis, out_n: nat, n: nat, x: nat)
    requires AxisOk(ay) && j < Count(ay, h) && Sized(rows, n, x, Count(ay, h))
    ensures |rows[j]| == x && Even(n, rows[j]) && Place(ay, j) < h
    ensures forall u: nat :: Pick2(rows, ax, ay, u, Place(ay, j), out_n) == Pick(rows[j], ax, u, out_n)
    ensures forall v: nat :: Below(ay, v, j + 1) <==> Below(ay, v, j) || v == Place(ay, j)
    ensures !Below(ay, Place(ay, j), j)
  {
    PlaceIn(ay, h, j);
    hide Below, Pick;
    forall v: nat ensures Below(ay, v, j + 1) <==> Below(ay, v, j) || v == Place(ay, j)
                  ensures v == Place(ay, j) ==> v / ay.spc == j && !Below(ay, v, j)
    {
      BelowNext(ay, v, j);
    }
  }

  lemma {:induction false} FromStep(rows: seq<seq<Pixel>>, j: nat, out_n: nat)
    requires j < |rows|
    ensures StoredFrom(rows[j..], out_n) == Flat(Spread(rows[j], out_n)) + StoredFrom(rows[j + 1..], out_n)
  {
    assert rows[j..][1..] == rows[j + 1..];
  }

  lemma {:induction false} FromStart(rows: seq<seq<Pixel>>, out: seq<byte>, out_n: nat)
    requires out == Stored(rows, out_n)
    ensures out[0..] == StoredFrom(rows[0..], out_n)
  {
    StoredIsFrom(rows, out_n);
    assert rows[0..] == rows && out[0..] == out;
  }

  /** A pass, as it goes into the image. */
  method CopyPass(final: array2<Pixel>, out: seq<byte>, ax: Axis, ay: Axis, x: nat, y: nat, out_n: nat, ghost rows: seq<seq<Pixel>>, ghost n: nat)
    requires AxisOk(ax) && AxisOk(ay) && x == Count(ax, final.Length0) && y == Count(ay, final.Length1)
    requires Sized(rows, n, x, y) && n <= out_n <= n + 1 && out == Stored(rows, out_n)
    modifies final
    ensures forall u, v :: 0 <= u < final.Length0 && 0 <= v < final.Length1 ==>
              final[u, v] == if Below(ay, v, y) && Below(ax, u, x) then Pick2(rows, ax, ay, u, v, out_n) else old(final[u, v])
  {
    BelowNone(ay);
    hide *;
    var j, at := 0, 0;
    FromStart(rows, out, out_n);
    SizedCount(rows, n, x, y);
    while j < y
      invariant 0 <= j <= y == |rows| && 0 <= at <= |out| && out[at..] == StoredFrom(rows[j..], out_n)
      invariant forall u, v :: 0 <= u < final.Length0 && 0 <= v < final.Length1 ==>
                  final[u, v] == if Below(ay, v, j) && Below(ax, u, x) then Pick2(rows, ax, ay, u, v, out_n) else old(final[u, v])
    {
      FromStep(rows, j, out_n);
      RowPlace(ay, final.Length1, j, rows, ax, out_n, n, x);
      at := CopyRow(final, out, at, ax, x, Place(ay, j), out_n, rows[j], n, StoredFrom(rows[j + 1..], out_n));
      j := j + 1;
    }
  }

  lemma {:induction false} SizedCount(rows: seq<seq<Pixel>>, n: nat, x: nat, y: nat)
    requires Sized(rows, n, x, y)
    ensures |rows| == y
  {
  }

  // ---------------------------------------------------------------- all passes

  /** Pixel (u, v) of an image given by its passes. */
  function PixelAt(ps: seq<seq<seq<Pixel>>>, u: nat, v: nat, out_n: nat): Pixel
  {
    var p := PassOf(u, v);
    if p < |ps| then Pick2(ps[p], AxisX(p), AxisY(p), u, v, out_n) else []
  }

  /** The pixels of the image that lie on the axes of a pass are those that the pass has. */
  lemma {:induction false} PassIs(p: nat, w: nat, h: nat, u: nat, v: nat)
    requires p < 7 && u < w && v < h
    ensures AxisOk(AxisX(p)) && AxisOk(AxisY(p))
    ensures Below(AxisY(p), v, PassY(p, h)) && Below(AxisX(p), u, PassX(p, w)) <==> PassOf(u, v) == p
  {
    PassAxes(p);
    OnePass(p, u, v);
    if PassOf(u, v) == p {
      PlaceFrom(AxisX(p), u);
      PlaceFrom(AxisY(p), v);
      PlaceIn(AxisX(p), w, u / XSPC[p]);
      PlaceIn(AxisY(p), h, v / YSPC[p]);
    }
    hide PassOf, Place;
  }

  function GluePasses(done: seq<seq<seq<Pixel>>>, r: Passes): Passes
  {
    match r case Image(ps) => Image(done + ps) case _ => r
  }

  /** The pixels of the first p passes are in place. */
  ghost predicate InPlace(final: array2<Pixel>, ps: seq<seq<seq<Pixel>>>, p: nat, out_n: nat)
    reads final
  {
    |ps| == p && forall u, v :: 0 <= u < final.Length0 && 0 <= v < final.Length1 && PassOf(u, v) < p ==> final[u, v] == PixelAt(ps, u, v, out_n)
  }

  lemma {:induction false} PixelAtMore(ps: seq<seq<seq<Pixel>>>, rows: seq<seq<Pixel>>, u: nat, v: nat, out_n: nat)
    ensures PassOf(u, v) < |ps| ==> PixelAt(ps + [rows], u, v, out_n) == PixelAt(ps, u, v, out_n)
    ensures |ps| < 7 && PassOf(u, v) == |ps| ==> PixelAt(ps + [rows], u, v, out_n) == Pick2(rows, AxisX(|ps|), AxisY(|ps|), u, v, out_n)
  {
    hide PassOf, Pick2;
  }

  /** One pass that has pixels. */
  method PlacePass(final: array2<Pixel>, out: seq<byte>, p: nat, out_n: nat, ghost ps: seq<seq<seq<Pixel>>>, ghost rows: seq<seq<Pixel>>, ghost n: nat)
    requires p < 7 && InPlace(final, ps, p, out_n) && Sized(rows, n, PassX(p, final.Length0), PassY(p, final.Length1))
    requires n <= out_n <= n + 1 && out == Stored(rows, out_n)
    modifies final
    ensures InPlace(final, ps + [rows], p + 1, out_n)
  {
    PassAxes(p);
    forall u: nat, v: nat | u < final.Length0 && v < final.Length1
      ensures Below(AxisY(p), v, PassY(p, final.Length1)) && Below(AxisX(p), u, PassX(p, final.Length0)) <==> PassOf(u, v) == p
      ensures PassOf(u, v) < |ps| ==> PixelAt(ps + [rows], u, v, out_n) == PixelAt(ps, u, v, out_n)
      ensures PassOf(u, v) == |ps| ==> PixelAt(ps + [rows], u, v, out_n) == Pick2(rows, AxisX(p), AxisY(p), u, v, out_n)
    {
      PassIs(p, final.Length0, final.Length1, u, v);
      PixelAtMore(ps, rows, u, v, out_n);
    }
    hide Below, PassOf, PixelAt, Pick2, Stored, Sized, Count, AxisX, AxisY;
    CopyPass(final, out, AxisX(p), AxisY(p), PassX(p, final.Length0), PassY(p, final.Length1), out_n, rows, n);
  }

  /** A pass without pixels. */
  lemma {:induction false} SkipPass(final: array2<Pixel>, p: nat, out_n: nat, ps: seq<seq<seq<Pixel>>>)
    requires p < 7 && InPlace(final, ps, p, out_n) && (PassX(p, final.Length0) == 0 || PassY(p, final.Length1) == 0)
    ensures InPlace(final, ps + [[]], p + 1, out_n)
  {
    forall u: nat, v: nat | u < final.Length0 && v < final.Length1
      ensures PassOf(u, v) != p
      ensures PassOf(u, v) < |ps| ==> PixelAt(ps + [[]], u, v, out_n) == PixelAt(ps, u, v, out_n)
    {
      PassIs(p, final.Length0, final.Length1, u, v);
      PixelAtMore(ps, [], u, v, out_n);
    }
    hide PassOf, PixelAt, PassX, PassY;
  }

  datatype Status = Fine | Bad | Undef

  /** create_png_image for an interlaced image. */
  method Deinterlace(raw: seq<byte>, img_n: nat, out_n: nat, w: nat, h: nat) returns (st: Status, final: array2<Pixel>)
    requires 1 <= img_n <= out_n <= img_n + 1
    ensures fresh(final) && final.Length0 == w && final.Length1 == h
    ensures match PassesFrom(raw, img_n, out_n, w, h, 0, 0)
            case Image(ps) =>
              st == Fine && forall u, v :: 0 <= u < w && 0 <= v < h ==> final[u, v] == PixelAt(ps, u, v, out_n)
            case Corrupt => st == Bad
            case Undefined => st == Undef
  {
    hide PassOf, PixelAt, Stored, Unfilter, Count, Step, Blank, PassX, PassY, InPlace;
    final := new Pixel[w, h]((_, _) => []);
    var p, start: nat := 0, 0;
    ghost var ps: seq<seq<seq<Pixel>>> := [];
    FirstPass(final, out_n, PassesFrom(raw, img_n, out_n, w, h, 0, 0));
    while p < 7
      invariant 0 <= p <= 7 && fresh(final) && final.Length0 == w && final.Length1 == h && InPlace(final, ps, p, out_n)
      invariant PassesFrom(raw, img_n, out_n, w, h, 0, 0) == GluePasses(ps, PassesFrom(raw, img_n, out_n, w, h, p, start))
    {
      var x, y := PassX(p, w), PassY(p, h);
      PassStep(raw, img_n, out_n, w, h, p, start, ps);
      if x > 0 && y > 0 {
        if start > |raw| { return Undef, final; }
        var ok, out := CreateRaw(raw[start..], img_n, out_n, x, y, w, h);
        if !ok { return Bad, final; }
        ghost var rows := OnePassRows(raw, start, img_n, x, y, w, h).rows;
        RowsSized(raw, start, img_n, x, y, w, h);
        PlacePass(final, out[..], p, out_n, ps, rows, img_n);
        ps := ps + [rows];
        StepIs(out_n, w, h, p);
        start := start + (x * out_n + 1) * y;
      } else {
        SkipPass(final, p, out_n, ps);
        ps := ps + [[]];
      }
      p := p + 1;
    }
    LastPass(final, out_n, ps, PassesFrom(raw, img_n, out_n, w, h, 7, start));
    st := Fine;
  }

  lemma {:induction false} FirstPass(final: array2<Pixel>, out_n: nat, r: Passes)
    ensures InPlace(final, [], 0, out_n) && GluePasses([], r) == r
  {
    if r.Image? { assert [] + r.passes == r.passes; }
  }

  lemma {:induction false} LastPass(final: array2<Pixel>, out_n: nat, ps: seq<seq<seq<Pixel>>>, r: Passes)
    requires InPlace(final, ps, 7, out_n) && r == Image([])
    ensures GluePasses(ps, r) == Image(ps)
    ensures forall u, v :: 0 <= u < final.Length0 && 0 <= v < final.Length1 ==> final[u, v] == PixelAt(ps, u, v, out_n)
  {
    assert ps + [] == ps;
    hide PixelAt;
  }

  lemma {:induction false} StepIs(m: nat, w: nat, h: nat, p: nat)
    requires p < 7 && PassX(p, w) > 0 && PassY(p, h) > 0
    ensures Step(m, w, h, p) == (PassX(p, w) * m + 1) * PassY(p, h) >= 0
  {
    hide PassX, PassY;
  }

  lemma {:induction false} RowsSized(raw: seq<byte>, start: nat, n: nat, x: nat, y: nat, w: nat, h: nat)
    requires start <= |raw|
    ensures var r := OnePassRows(raw, start, n, x, y, w, h); r.Rows? ==> Sized(r.rows, n, x, y)
  {
    hide Blank;
  }

  /** What one pass does to the whole. */
  lemma {:induction false} PassStep(raw: seq<byte>, n: nat, out_n: nat, w: nat, h: nat, p: nat, start: nat, ps: seq<seq<seq<Pixel>>>)
    requires p < 7
    ensures var x, y := PassX(p, w), PassY(p, h); var r := GluePasses(ps, PassesFrom(raw, n, out_n, w, h, p, start));
            if x == 0 || y == 0 then r == GluePasses(ps + [[]], PassesFrom(raw, n, out_n, w, h, p + 1, start))
            else if start > |raw| then r == Undefined
            else match OnePassRows(raw, start, n, x, y, w, h)
              case BadFilter => r == Corrupt
              case Rows(rs) => r == GluePasses(ps + [rs], PassesFrom(raw, n, out_n, w, h, p + 1, start + Step(out_n, w, h, p)))
  {
    var x, y := PassX(p, w), PassY(p, h);
    hide PassX, PassY, OnePassRows, Step;
    if x == 0 || y == 0 {
      GlueCons(ps, [], PassesFrom(raw, n, out_n, w, h, p + 1, start));
    } else if start <= |raw| {
      match OnePassRows(raw, start, n, x, y, w, h)
      case BadFilter =>
      case Rows(rs) => GlueCons(ps, rs, PassesFrom(raw, n, out_n, w, h, p + 1, start + Step(out_n, w, h, p)));
    }
  }

  lemma {:induction false} GlueCons(ps: seq<seq<seq<Pixel>>>, rows: seq<seq<Pixel>>, r: Passes)
    ensures GluePasses(ps, Cons(rows, r)) == GluePasses(ps + [rows], r)
  {
    if r.Image? { assert ps + ([rows] + r.passes) == ps + [rows] + r.passes; }
  }

  // ---------------------------------------------------------------- round trip

  /** An image of h rows of w pixels of n samples. */
  ghost predicate IsImage(img: seq<seq<Pixel>>, n: nat, w: nat, h: nat)
  {
    Sized(img, n, w, h)
  }

  /** The pixels of pass p, row by row. */
  function Reduced(img: seq<seq<Pixel>>, n: nat, w: nat, h: nat, p: nat): (r: seq<seq<Pixel>>)
    requires p < 7 && IsImage(img, n, w, h)
    ensures Sized(r, n, if PassY(p, h) == 0 then 0 else PassX(p, w), if PassX(p, w) == 0 then 0 else PassY(p, h))
  {
    PassAxes(p);
    InImage(p, w, h);
    if PassX(p, w) == 0 then [] else
    seq(PassY(p, h), j requires 0 <= j < PassY(p, h) =>
      seq(PassX(p, w), i requires 0 <= i < PassX(p, w) => img[Place(AxisY(p), j)][Place(AxisX(p), i)]))
  }

  lemma {:induction false} InImage(p: nat, w: nat, h: nat)
    requires p < 7
    ensures forall i: nat :: i < PassX(p, w) ==> Place(AxisX(p), i) < w
    ensures forall j: nat :: j < PassY(p, h) ==> Place(AxisY(p), j) < h
  {
    PassAxes(p);
    forall i: nat | i < PassX(p, w) ensures Place(AxisX(p), i) < w { PlaceIn(AxisX(p), w, i); }
    forall j: nat | j < PassY(p, h) ensures Place(AxisY(p), j) < h { PlaceIn(AxisY(p), h, j); }
  }

  /** A filter type for each row of each pass. */
  ghost predicate FiltersOk(fs: seq<seq<nat>>, w: nat, h: nat)
  {
    |fs| == 7 && forall p :: 0 <= p < 7 ==> (PassX(p, w) > 0 ==> |fs[p]| == PassY(p, h)) && forall j :: 0 <= j < |fs[p]| ==> fs[p][j] <= 4
  }

  /** The filtered passes from p on. */
  ghost function EncodeFrom(fs: seq<seq<nat>>, img: seq<seq<Pixel>>, n: nat, w: nat, h: nat, p: nat): seq<byte>
    requires p <= 7 && IsImage(img, n, w, h) && FiltersOk(fs, w, h)
    decreases 7 - p
  {
    if p == 7 then []
    else if PassX(p, w) == 0 || PassY(p, h) == 0 then EncodeFrom(fs, img, n, w, h, p + 1)
    else
      hide PassX, PassY, Reduced;
      Encode(fs[p], n, PassX(p, w), Reduced(img, n, w, h, p), Blank(n, PassX(p, w))) + EncodeFrom(fs, img, n, w, h, p + 1)
  }

  function ReducedFrom(img: seq<seq<Pixel>>, n: nat, w: nat, h: nat, p: nat): (r: seq<seq<seq<Pixel>>>)
    requires p <= 7 && IsImage(img, n, w, h)
    ensures |r| == 7 - p
    decreases 7 - p
  {
    if p == 7 then [] else [Reduced(img, n, w, h, p)] + ReducedFrom(img, n, w, h, p + 1)
  }

  /** A pass as large as the image is the only one. */
  lemma {:induction false} WholePass(w: nat, h: nat, p: nat)
    requires p < 7 && PassX(p, w) == w && PassY(p, h) == h && w > 0 && h > 0
    ensures forall q :: p < q < 7 ==> PassX(q, w) == 0 || PassY(q, h) == 0
  {
    PassSizes(w, h);
    hide PassX, PassY;
    assert w == 1 && h == 1 && p == 0;
  }

  lemma {:induction false} EncodeEmpty(fs: seq<seq<nat>>, img: seq<seq<Pixel>>, n: nat, w: nat, h: nat, p: nat)
    requires p <= 7 && IsImage(img, n, w, h) && FiltersOk(fs, w, h)
    requires forall q :: p <= q < 7 ==> PassX(q, w) == 0 || PassY(q, h) == 0
    ensures EncodeFrom(fs, img, n, w, h, p) == []
    decreases 7 - p
  {
    hide PassX, PassY;
    if p < 7 { EncodeEmpty(fs, img, n, w, h, p + 1); }
  }

  /** One encoded pass is read back. */
  lemma {:induction false} PassBack(fs: seq<nat>, n: nat, x: nat, y: nat, rows: seq<seq<Pixel>>, raw: seq<byte>, start: nat, tail: seq<byte>, w: nat, h: nat)
    requires |fs| == |rows| && (forall j :: 0 <= j < |fs| ==> fs[j] <= 4) && Sized(rows, n, x, y) && start <= |raw|
    requires raw[start..] == Encode(fs, n, x, rows, Blank(n, x)) + tail && (w == x && h == y ==> tail == [])
    ensures OnePassRows(raw, start, n, x, y, w, h) == Rows(rows)
    ensures |Encode(fs, n, x, rows, Blank(n, x))| == Span(Span(n, x) + 1, y)
  {
    hide Span, Unfilter, Blank;
    assert raw[start..][0..] == raw[start..];
    UnfilterEncode(fs, n, x, rows, Blank(n, x), raw[start..], 0);
  }

  /** The raw data of an interlaced image, when the output has no sample more. */
  lemma {:induction false} PassesBack(fs: seq<seq<nat>>, img: seq<seq<Pixel>>, n: nat, w: nat, h: nat, p: nat, raw: seq<byte>, start: nat)
    requires p <= 7 && IsImage(img, n, w, h) && FiltersOk(fs, w, h) && start <= |raw| && raw[start..] == EncodeFrom(fs, img, n, w, h, p)
    ensures PassesFrom(raw, n, n, w, h, p, start) == Image(ReducedFrom(img, n, w, h, p))
    decreases 7 - p
  {
    hide PassX, PassY, Encode, Reduced, OnePassRows, Span, Step, PassesFrom;
    if p == 7 {
      NoPasses(raw, n, w, h, start);
    } else {
      var x, y := PassX(p, w), PassY(p, h);
      PassesUnfold(raw, n, w, h, p, start);
      if x == 0 || y == 0 {
        PassesBack(fs, img, n, w, h, p + 1, raw, start);
        NoRows(img, n, w, h, p);
      } else {
        var e := Encode(fs[p], n, x, Reduced(img, n, w, h, p), Blank(n, x));
        var tail := EncodeFrom(fs, img, n, w, h, p + 1);
        if w == x && h == y {
          WholePass(w, h, p);
          EncodeEmpty(fs, img, n, w, h, p + 1);
        }
        PassBack(fs[p], n, x, y, Reduced(img, n, w, h, p), raw, start, tail, w, h);
        StepIs(n, w, h, p);
        SpanIs(n, x);
        SpanIs(x * n + 1, y);
        TailOf(raw, start, e, tail);
        PassesBack(fs, img, n, w, h, p + 1, raw, start + |e|);
      }
    }
  }

  lemma {:induction false} TailOf(raw: seq<byte>, start: nat, e: seq<byte>, tail: seq<byte>)
    requires start <= |raw| && raw[start..] == e + tail
    ensures start + |e| <= |raw| && raw[start + |e|..] == tail
  {
    assert raw[start + |e|..] == raw[start..][|e|..];
  }

  lemma {:induction false} NoPasses(raw: seq<byte>, n: nat, w: nat, h: nat, start: nat)
    ensures PassesFrom(raw, n, n, w, h, 7, start) == Image([])
  {
  }

  lemma {:induction false} NoRows(img: seq<seq<Pixel>>, n: nat, w: nat, h: nat, p: nat)
    requires p < 7 && IsImage(img, n, w, h) && (PassX(p, w) == 0 || PassY(p, h) == 0)
    ensures Reduced(img, n, w, h, p) == []
  {
    hide PassX, PassY;
  }

  lemma {:induction false} PassesUnfold(raw: seq<byte>, n: nat, w: nat, h: nat, p: nat, start: nat)
    requires p < 7 && start <= |raw|
    ensures PassesFrom(raw, n, n, w, h, p, start) ==
            if PassX(p, w) == 0 || PassY(p, h) == 0 then Cons([], PassesFrom(raw, n, n, w, h, p + 1, start))
            else match OnePassRows(raw, start, n, PassX(p, w), PassY(p, h), w, h)
              case BadFilter => Corrupt
              case Rows(rs) => Cons(rs, PassesFrom(raw, n, n, w, h, p + 1, start + Step(n, w, h, p)))
  {
    hide PassX, PassY, OnePassRows, Step;
  }

  lemma {:induction false} ReducedAt(img: seq<seq<Pixel>>, n: nat, w: nat, h: nat, p: nat, q: nat)
    requires p <= q < 7 && IsImage(img, n, w, h)
    ensures ReducedFrom(img, n, w, h, p)[q - p] == Reduced(img, n, w, h, q)
    decreases 7 - p
  {
    hide Reduced;
    if p < q { ReducedAt(img, n, w, h, p + 1, q); }
  }

  /** The encoded passes fill the data exactly. */
  lemma {:induction false} EncodeSize(fs: seq<seq<nat>>, img: seq<seq<Pixel>>, n: nat, w: nat, h: nat, p: nat)
    requires p <= 7 && IsImage(img, n, w, h) && FiltersOk(fs, w, h)
    ensures StartOf(n, w, h, p) + |EncodeFrom(fs, img, n, w, h, p)| == StartOf(n, w, h, 7)
    decreases 7 - p
  {
    hide PassX, PassY, Encode, Reduced, Span, Step;
    if p < 7 {
      var x, y := PassX(p, w), PassY(p, h);
      StepCases(n, w, h, p);
      EncodeSize(fs, img, n, w, h, p + 1);
      if x > 0 && y > 0 { PassLength(fs[p], n, x, y, Reduced(img, n, w, h, p)); }
    }
  }

  lemma {:induction false} PassLength(fs: seq<nat>, n: nat, x: nat, y: nat, rows: seq<seq<Pixel>>)
    requires |fs| == |rows| && (forall j :: 0 <= j < |fs| ==> fs[j] <= 4) && Sized(rows, n, x, y)
    ensures |Encode(fs, n, x, rows, Blank(n, x))| == (x * n + 1) * y
  {
    hide Encode, Span, Unfilter, Blank;
    var e := Encode(fs, n, x, rows, Blank(n, x));
    SpanIs(n, x);
    SpanIs(x * n + 1, y);
    assert e[0..] == e + [];
    UnfilterEncode(fs, n, x, rows, Blank(n, x), e, 0);
  }

  lemma {:induction false} StepCases(m: nat, w: nat, h: nat, p: nat)
    requires p < 7
    ensures Step(m, w, h, p) == if PassX(p, w) == 0 || PassY(p, h) == 0 then 0 else (PassX(p, w) * m + 1) * PassY(p, h)
    ensures StartOf(m, w, h, p + 1) == StartOf(m, w, h, p) + Step(m, w, h, p)
  {
    hide PassX, PassY;
  }

  /** Every pass that is read needs its data to be there. */
  lemma {:induction false} ImageNeeds(raw: seq<byte>, n: nat, out_n: nat, w: nat, h: nat, p: nat, q: nat)
    requires p <= q < 7 && PassX(q, w) > 0 && PassY(q, h) > 0
    requires PassesFrom(raw, n, out_n, w, h, p, StartOf(out_n, w, h, p)).Image?
    ensures StartOf(out_n, w, h, q) + Step(n, w, h, q) <= |raw|
    decreases 7 - p
  {
    hide PassX, PassY, Span, Step, StartOf, Unfilter, Blank;
    var x, y := PassX(p, w), PassY(p, h);
    StepCases(out_n, w, h, p);
    StepCases(n, w, h, p);
    if p < q {
      ImageNeeds(raw, n, out_n, w, h, p + 1, q);
    } else {
      SpanIs(n, x);
      SpanIs(x * n + 1, y);
    }
  }

  /** With an alpha sample added, a pass after the first starts too far along, and the last one runs out of data. */
  lemma {:induction false} AlphaRunsOut(fs: seq<seq<nat>>, img: seq<seq<Pixel>>, n: nat, w: nat, h: nat)
    requires IsImage(img, n, w, h) && FiltersOk(fs, w, h) && (w > 1 || h > 1) && w > 0 && h > 0
    ensures !PassesFrom(EncodeFrom(fs, img, n, w, h, 0), n, n + 1, w, h, 0, 0).Image?
  {
    PassSizes(w, h);
    hide PassX, PassY, StartOf, Step, PassesFrom, EncodeFrom;
    var raw := EncodeFrom(fs, img, n, w, h, 0);
    var q := if h > 1 then 6 else 5;
    StartZero(n, w, h);
    StartZero(n + 1, w, h);
    EncodeSize(fs, img, n, w, h, 0);
    StepCases(n, w, h, 5);
    StepCases(n, w, h, 6);
    StartMore(n, n + 1, w, h, q);
    if PassesFrom(raw, n, n + 1, w, h, 0, 0).Image? {
      ImageNeeds(raw, n, n + 1, w, h, 0, q);
      assert false;
    }
  }

  /** Passes without pixels, whatever the size of a pixel. */
  lemma {:induction false} EmptyPasses(raw: seq<byte>, n: nat, a: nat, b: nat, w: nat, h: nat, p: nat, s: nat, t: nat)
    requires p <= 7 && forall q :: p <= q < 7 ==> PassX(q, w) == 0 || PassY(q, h) == 0
    ensures PassesFrom(raw, n, a, w, h, p, s) == PassesFrom(raw, n, b, w, h, p, t)
    decreases 7 - p
  {
    hide PassX, PassY, OnePassRows, Step;
    if p < 7 { EmptyPasses(raw, n, a, b, w, h, p + 1, s, t); }
  }

  /** A single pixel is read alike with and without alpha. */
  lemma {:induction false} OnePixelPass(raw: seq<byte>, n: nat, a: nat, b: nat)
    ensures PassesFrom(raw, n, a, 1, 1, 0, 0) == PassesFrom(raw, n, b, 1, 1, 0, 0)
  {
    PassSizes(1, 1);
    hide PassX, PassY, OnePassRows, Step;
    EmptyPasses(raw, n, a, b, 1, 1, 1, Step(a, 1, 1, 0), Step(b, 1, 1, 0));
  }

  /** Interlacing, filtering and decoding give the image back, each pixel with alpha 255 if that is added, exactly when no alpha
      is added or the image is a single pixel. */
  lemma {:induction false} InterlacedRoundTrip(fs: seq<seq<nat>>, img: seq<seq<Pixel>>, n: nat, out_n: nat, w: nat, h: nat)
    requires IsImage(img, n, w, h) && FiltersOk(fs, w, h) && n <= out_n <= n + 1 && w > 0 && h > 0
    ensures var r := PassesFrom(EncodeFrom(fs, img, n, w, h, 0), n, out_n, w, h, 0, 0);
            (r.Image? && forall u: nat, v: nat :: u < w && v < h ==> PixelAt(r.passes, u, v, out_n) == OutPixel(img[v][u], out_n))
            <==> out_n == n || (w == 1 && h == 1)
  {
    hide PassesFrom, EncodeFrom, PixelAt, OutPixel;
    if out_n == n {
      PlainRoundTrip(fs, img, n, n, w, h);
    } else if w == 1 && h == 1 {
      PlainRoundTrip(fs, img, n, out_n, w, h);
      OnePixelPass(EncodeFrom(fs, img, n, w, h, 0), n, n, out_n);
    } else {
      AlphaRunsOut(fs, img, n, w, h);
    }
  }

  /** A filter type for the first pass and the sixth. */
  function TwoFilters(): seq<seq<nat>>
  {
    seq(7, p => if p == 0 || p == 5 then [0] else [])
  }

  /** An image of two pixels, gray, with alpha to be added: it is refused, or read past its end. */
  lemma {:induction false} TwoPixelsFail()
    ensures var img := [[[7], [9]]];
            IsImage(img, 1, 2, 1) && FiltersOk(TwoFilters(), 2, 1)
            && !PassesFrom(EncodeFrom(TwoFilters(), img, 1, 2, 1, 0), 1, 2, 2, 1, 0, 0).Image?
  {
    var img: seq<seq<Pixel>> := [[[7], [9]]];
    assert IsImage(img, 1, 2, 1);
    hide PassesFrom, EncodeFrom, IsImage;
    TwoFiltersOk();
    hide FiltersOk;
    AlphaRunsOut(TwoFilters(), img, 1, 2, 1);
  }

  lemma {:induction false} TwoFiltersOk()
    ensures FiltersOk(TwoFilters(), 2, 1)
  {
    hide PassX, PassY;
    forall p | 0 <= p < 7 ensures PassX(p, 2) > 0 ==> |TwoFilters()[p]| == PassY(p, 1) {
      TwoSizes(p, 2, 1);
    }
  }

  lemma {:induction false} TwoSizes(p: nat, w: nat, h: nat)
    requires p < 7 && w == 2 && h == 1
    ensures if p == 0 || p == 5 then PassX(p, w) == 1 && PassY(p, h) == 1 else PassX(p, w) == 0 || PassY(p, h) == 0
  {
    PassSizes(w, h);
    hide PassX, PassY;
    match p {
      case 0 =>
      case 1 =>
      case 2 =>
      case 3 =>
      case 4 =>
      case 5 =>
      case 6 =>
    }
  }

  /** The passes of encoded data, read with steps for pixels of n samples; shown as pixels of out_n samples. */
  lemma {:induction false} PlainRoundTrip(fs: seq<seq<nat>>, img: seq<seq<Pixel>>, n: nat, out_n: nat, w: nat, h: nat)
    requires IsImage(img, n, w, h) && FiltersOk(fs, w, h)
    ensures var r := PassesFrom(EncodeFrom(fs, img, n, w, h, 0), n, n, w, h, 0, 0);
            r.Image? && |img| == h && (forall v :: 0 <= v < h ==> |img[v]| == w)
            && forall u: nat, v: nat :: u < w && v < h ==> PixelAt(r.passes, u, v, out_n) == OutPixel(img[v][u], out_n)
  {
    ImageSize(img, n, w, h);
    hide EncodeFrom, PassesFrom, OutPixel, PixelAt, ReducedFrom, IsImage, FiltersOk;
    EncodedPasses(fs, img, n, w, h);
    forall u: nat, v: nat | u < w && v < h
      ensures PixelAt(ReducedFrom(img, n, w, h, 0), u, v, out_n) == OutPixel(img[v][u], out_n)
    {
      ReducedShows(img, n, w, h, u, v, out_n);
    }
  }

  lemma {:induction false} EncodedPasses(fs: seq<seq<nat>>, img: seq<seq<Pixel>>, n: nat, w: nat, h: nat)
    requires IsImage(img, n, w, h) && FiltersOk(fs, w, h)
    ensures PassesFrom(EncodeFrom(fs, img, n, w, h, 0), n, n, w, h, 0, 0) == Image(ReducedFrom(img, n, w, h, 0))
  {
    hide EncodeFrom, PassesFrom, ReducedFrom, IsImage, FiltersOk;
    var raw := EncodeFrom(fs, img, n, w, h, 0);
    assert raw[0..] == raw;
    PassesBack(fs, img, n, w, h, 0, raw, 0);
  }

  lemma {:induction false} ReducedShows(img: seq<seq<Pixel>>, n: nat, w: nat, h: nat, u: nat, v: nat, out_n: nat)
    requires IsImage(img, n, w, h) && u < w && v < h
    ensures |img| == h && |img[v]| == w && PixelAt(ReducedFrom(img, n, w, h, 0), u, v, out_n) == OutPixel(img[v][u], out_n)
  {
    ImageSize(img, n, w, h);
    hide OutPixel, PixelAt, ReducedFrom, Pick2, PassOf, IsImage, Reduced;
    ReducedAt(img, n, w, h, 0, PassOf(u, v));
    ReducedPixel(img, n, w, h, u, v, out_n);
    PixelAtIs(ReducedFrom(img, n, w, h, 0), u, v, out_n);
  }

  lemma {:induction false} ImageSize(img: seq<seq<Pixel>>, n: nat, w: nat, h: nat)
    requires IsImage(img, n, w, h)
    ensures |img| == h && forall v :: 0 <= v < h ==> |img[v]| == w
  {
  }

  lemma {:induction false} PixelAtIs(ps: seq<seq<seq<Pixel>>>, u: nat, v: nat, out_n: nat)
    requires |ps| == 7
    ensures var p := PassOf(u, v); PixelAt(ps, u, v, out_n) == Pick2(ps[p], AxisX(p), AxisY(p), u, v, out_n)
  {
    hide Pick2, PassOf;
  }

  lemma {:induction false} ReducedPixel(img: seq<seq<Pixel>>, n: nat, w: nat, h: nat, u: nat, v: nat, out_n: nat)
    requires IsImage(img, n, w, h) && u < w && v < h
    ensures var p := PassOf(u, v); Pick2(Reduced(img, n, w, h, p), AxisX(p), AxisY(p), u, v, out_n) == OutPixel(img[v][u], out_n)
  {
    var p := PassOf(u, v);
    EveryPixelOnce(w, h, u, v);
    PassAxes(p);
    hide *;
    var i, j := u / AxisX(p).spc, v / AxisY(p).spc;
    HoldsIs(p, w, h, u, v);
    ReducedIs(img, n, w, h, p, i, j);
    PickIs(Reduced(img, n, w, h, p), AxisX(p), AxisY(p), u, v, out_n, img[v][u]);
  }

  lemma {:induction false} HoldsIs(p: nat, w: nat, h: nat, u: nat, v: nat)
    requires p < 7 && AxisOk(AxisX(p)) && AxisOk(AxisY(p)) && Holds(p, u / XSPC[p], v / YSPC[p], w, h, u, v)
    ensures AxisX(p).spc > 0 && AxisY(p).spc > 0
    ensures var i, j := u / AxisX(p).spc, v / AxisY(p).spc;
            i < PassX(p, w) && j < PassY(p, h) && u == Place(AxisX(p), i) && v == Place(AxisY(p), j)
  {
    hide Place, Count;
  }

  lemma {:induction false} ReducedIs(img: seq<seq<Pixel>>, n: nat, w: nat, h: nat, p: nat, i: nat, j: nat)
    requires p < 7 && IsImage(img, n, w, h) && i < PassX(p, w) && j < PassY(p, h)
    ensures var r := Reduced(img, n, w, h, p); var u, v := Place(AxisX(p), i), Place(AxisY(p), j);
            j < |r| && i < |r[j]| && v < |img| && u < |img[v]| && r[j][i] == img[v][u] && |img[v][u]| == n
  {
    InImage(p, w, h);
    hide PassX, PassY, Place, AxisX, AxisY;
  }

  lemma {:induction false} PickIs(rows: seq<seq<Pixel>>, ax: Axis, ay: Axis, u: nat, v: nat, out_n: nat, p: Pixel)
    requires ax.spc > 0 && ay.spc > 0 && v / ay.spc < |rows| && u / ax.spc < |rows[v / ay.spc]|
    requires rows[v / ay.spc][u / ax.spc] == p
    ensures Pick2(rows, ax, ay, u, v, out_n) == OutPixel(p, out_n)
  {
  }
}
