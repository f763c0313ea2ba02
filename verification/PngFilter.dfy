/** PNG filters: section 6 of RFC 2083 on rows of pixels, and the reconstruction in DuiLib/stb_image.c. */
module PngFilter {
  import opened Bits

  type Pixel = seq<byte>

  // ---------------------------------------------------------------- section 6 of RFC 2083

  function Abs(x: int): nat { if x < 0 then -x else x }

  /** The predictor is whichever of left, above and upper left is nearest to a + b - c, in that order on ties. */
  function Paeth(a: int, b: int, c: int): (r: int)
    ensures r == a || r == b || r == c
    ensures var d := Abs(a + b - c - r); d <= Abs(b - c) && d <= Abs(a - c) && d <= Abs(a + b - 2 * c)
    ensures var d := Abs(a + b - c - r); (d == Abs(b - c) ==> r == a) && (d == Abs(a - c) && r != a ==> r == b)
  {
    var p := a + b - c;
    var pa, pb, pc := Abs(p - a), Abs(p - b), Abs(p - c);
    if pa <= pb && pa <= pc then a else if pb <= pc then b else c
  }

  /** What filter f predicts from the samples to the left, above, and above left. */
  function Predict(f: nat, a: byte, b: byte, c: byte): (r: nat)
    requires f <= 4
    ensures r < 256
  {
    if f == 0 then 0 else if f == 1 then a else if f == 2 then b else if f == 3 then (a + b) / 2 else Paeth(a, b, c)
  }

  function Zero(n: nat): Pixel { seq(n, _ => 0) }

  /** Pixels of n samples each. */
  ghost predicate Even(n: nat, row: seq<Pixel>)
  {
    forall i :: 0 <= i < |row| ==> |row[i]| == n
  }

  function FilterPixel(f: nat, n: nat, left: Pixel, up: Pixel, upleft: Pixel, p: Pixel): (r: Pixel)
    requires f <= 4 && |left| == n && |up| == n && |upleft| == n && |p| == n
    ensures |r| == n
  {
    seq(n, k requires 0 <= k < n => (p[k] - Predict(f, left[k], up[k], upleft[k])) % 256)
  }

  function ReconPixel(f: nat, n: nat, left: Pixel, up: Pixel, upleft: Pixel, p: Pixel): (r: Pixel)
    requires f <= 4 && |left| == n && |up| == n && |upleft| == n && |p| == n
    ensures |r| == n
  {
    seq(n, k requires 0 <= k < n => (p[k] + Predict(f, left[k], up[k], upleft[k])) % 256)
  }

  /** Filtering the pixels row, above which are the pixels above; left and upleft come before them. */
  function Filter(f: nat, n: nat, left: Pixel, upleft: Pixel, above: seq<Pixel>, row: seq<Pixel>): (r: seq<Pixel>)
    requires f <= 4 && |left| == n && |upleft| == n && Even(n, above) && Even(n, row) && |above| == |row|
    ensures |r| == |row| && Even(n, r)
    decreases |row|
  {
    if row == [] then [] else
    [FilterPixel(f, n, left, above[0], upleft, row[0])] + Filter(f, n, row[0], above[0], above[1..], row[1..])
  }

  function Recon(f: nat, n: nat, left: Pixel, upleft: Pixel, above: seq<Pixel>, row: seq<Pixel>): (r: seq<Pixel>)
    requires f <= 4 && |left| == n && |upleft| == n && Even(n, above) && Even(n, row) && |above| == |row|
    ensures |r| == |row| && Even(n, r)
    decreases |row|
  {
    if row == [] then [] else
    var p := ReconPixel(f, n, left, above[0], upleft, row[0]);
    [p] + Recon(f, n, p, above[0], above[1..], row[1..])
  }

  lemma {:induction false} PixelInverse(f: nat, n: nat, left: Pixel, up: Pixel, upleft: Pixel, p: Pixel)
    requires f <= 4 && |left| == n && |up| == n && |upleft| == n && |p| == n
    ensures ReconPixel(f, n, left, up, upleft, FilterPixel(f, n, left, up, upleft, p)) == p
  {
    hide Predict;
    var q := FilterPixel(f, n, left, up, upleft, p);
    forall k | 0 <= k < n ensures (q[k] + Predict(f, left[k], up[k], upleft[k])) % 256 == p[k] {
      ModBack(p[k], Predict(f, left[k], up[k], upleft[k]));
    }
  }

  lemma {:induction false} ModBack(a: byte, b: nat)
    requires b < 256
    ensures ((a - b) % 256 + b) % 256 == a
  {
  }

  /** Reconstruction undoes filtering, whatever filter the row has. */
  lemma {:induction false} RowInverse(f: nat, n: nat, left: Pixel, upleft: Pixel, above: seq<Pixel>, row: seq<Pixel>)
    requires f <= 4 && |left| == n && |upleft| == n && Even(n, above) && Even(n, row) && |above| == |row|
    ensures Recon(f, n, left, upleft, above, Filter(f, n, left, upleft, above, row)) == row
    decreases |row|
  {
    if row != [] {
      PixelInverse(f, n, left, above[0], upleft, row[0]);
      RowInverse(f, n, row[0], above[0], above[1..], row[1..]);
      hide ReconPixel, FilterPixel;
    }
  }

  // ---------------------------------------------------------------- the image data

  /** k times m. */
  function Span(m: nat, k: nat): nat
  {
    if k == 0 then 0 else m + Span(m, k - 1)
  }

  lemma {:induction false} SpanIs(m: nat, k: nat)
    ensures Span(m, k) == m * k
  {
    if k > 0 {
      SpanIs(m, k - 1);
      assert m * k == m + m * (k - 1);
    }
  }

  /** Bytes of pixels in a row. */
  function Flat(row: seq<Pixel>): seq<byte>
  {
    if row == [] then [] else row[0] + Flat(row[1..])
  }

  /** x pixels of n bytes from p on. */
  function TakePixels(raw: seq<byte>, p: nat, n: nat, x: nat): (r: seq<Pixel>)
    requires p + Span(n, x) <= |raw|
    ensures |r| == x && Even(n, r)
    decreases x
  {
    if x == 0 then [] else
    [raw[p..p + n]] + TakePixels(raw, p + n, n, x - 1)
  }

  lemma {:induction false} TakeFlat(raw: seq<byte>, p: nat, n: nat, row: seq<Pixel>)
    requires Even(n, row) && p <= |raw| && Flat(row) <= raw[p..]
    ensures p + Span(n, |row|) <= |raw| && TakePixels(raw, p, n, |row|) == row && |Flat(row)| == Span(n, |row|)
    decreases |row|
  {
    if row != [] {
      assert raw[p..][..|Flat(row)|] == Flat(row);
      assert raw[p + n..] == raw[p..][n..];
      assert Flat(row[1..]) == Flat(row)[n..];
      TakeFlat(raw, p + n, n, row[1..]);
      assert raw[p..p + n] == Flat(row)[..n] == row[0];
    }
  }

  /** The rows of an image, each reconstructed from the one above. */
  datatype Rows = Rows(rows: seq<seq<Pixel>>) | BadFilter

  function Unfilter(raw: seq<byte>, p: nat, n: nat, x: nat, y: nat, above: seq<Pixel>): (r: Rows)
    requires p + Span(Span(n, x) + 1, y) <= |raw| && |above| == x && Even(n, above)
    ensures r.Rows? ==> |r.rows| == y && forall j :: 0 <= j < y ==> |r.rows[j]| == x && Even(n, r.rows[j])
    decreases y
  {
    if y == 0 then Rows([])
    else
      if raw[p] > 4 then BadFilter
      else
        var row := Recon(raw[p], n, Zero(n), Zero(n), above, TakePixels(raw, p + 1, n, x));
        match Unfilter(raw, p + 1 + Span(n, x), n, x, y - 1, row)
        case BadFilter => BadFilter
        case Rows(rs) => Rows([row] + rs)
  }

  /** Filtered rows, each after its filter type. */
  ghost function Encode(fs: seq<nat>, n: nat, x: nat, rows: seq<seq<Pixel>>, above: seq<Pixel>): seq<byte>
    requires |fs| == |rows| && (forall j :: 0 <= j < |fs| ==> fs[j] <= 4) && |above| == x && Even(n, above)
    requires forall j :: 0 <= j < |rows| ==> |rows[j]| == x && Even(n, rows[j])
    decreases |rows|
  {
    if rows == [] then []
    else [fs[0]] + Flat(Filter(fs[0], n, Zero(n), Zero(n), above, rows[0])) + Encode(fs[1..], n, x, rows[1..], rows[0])
  }

  /** Whatever filter each row has, unfiltering gives the rows back. */
  lemma {:induction false} UnfilterEncode(fs: seq<nat>, n: nat, x: nat, rows: seq<seq<Pixel>>, above: seq<Pixel>, raw: seq<byte>, p: nat)
    requires |fs| == |rows| && (forall j :: 0 <= j < |fs| ==> fs[j] <= 4) && |above| == x && Even(n, above)
    requires forall j :: 0 <= j < |rows| ==> |rows[j]| == x && Even(n, rows[j])
    requires p <= |raw| && Encode(fs, n, x, rows, above) <= raw[p..]
    ensures p + Span(Span(n, x) + 1, |rows|) <= |raw| && Unfilter(raw, p, n, x, |rows|, above) == Rows(rows)
    ensures |Encode(fs, n, x, rows, above)| == Span(Span(n, x) + 1, |rows|)
    decreases |rows|
  {
    hide Filter, Recon, Flat, TakePixels;
    if rows != [] {
      var f := fs[0];
      var filt := Filter(f, n, Zero(n), Zero(n), above, rows[0]);
      var e := Encode(fs, n, x, rows, above);
      var tail := Encode(fs[1..], n, x, rows[1..], rows[0]);
      assert e == [f] + Flat(filt) + tail;
      Prefixes(raw, p, f, Flat(filt), tail);
      TakeFlat(raw, p + 1, n, filt);
      UnfilterEncode(fs[1..], n, x, rows[1..], rows[0], raw, p + 1 + Span(n, x));
      RowInverse(f, n, Zero(n), Zero(n), above, rows[0]);
    }
  }

  lemma {:induction false} Prefixes(raw: seq<byte>, p: nat, f: byte, a: seq<byte>, b: seq<byte>)
    requires p <= |raw| && [f] + a + b <= raw[p..]
    ensures p < |raw| && raw[p] == f && a <= raw[p + 1..] && p + 1 + |a| <= |raw| && b <= raw[p + 1 + |a|..]
  {
    var s := raw[p..];
    assert s[0] == ([f] + a + b)[0];
    assert s[1..1 + |a|] == ([f] + a + b)[1..1 + |a|] == a;
    assert s[1 + |a|..1 + |a| + |b|] == ([f] + a + b)[1 + |a|..] == b;
    assert raw[p + 1..] == s[1..] && raw[p + 1 + |a|..] == s[1 + |a|..];
  }
}
