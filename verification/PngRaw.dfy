/** create_png_image_raw of DuiLib/stb_image.c: unfiltering in place, in a buffer that may have an alpha sample more per pixel. */
module PngRaw {
  import opened Bits
  import opened PngFilter

  /** The filters of the source: those of the standard, and two for the first row. */
  datatype Kind = F_none | F_sub | F_up | F_avg | F_paeth | F_avg_first | F_paeth_first

  function KindOf(f: nat): Kind
    requires f <= 4
  {
    if f == 0 then F_none else if f == 1 then F_sub else if f == 2 then F_up else if f == 3 then F_avg else F_paeth
  }

  /** first_row_filter */
  function FirstRowKind(f: nat): Kind
    requires f <= 4
  {
    if f == 0 then F_none else if f == 1 then F_sub else if f == 2 then F_none else if f == 3 then F_avg_first else F_paeth_first
  }

  predicate UsesPrior(k: Kind) { k.F_up? || k.F_avg? || k.F_paeth? }

  /** The switch for the first pixel of a row; p is the sample above. */
  function FirstSample(k: Kind, r: byte, p: byte): byte
  {
    match k
    case F_none => r
    case F_sub => r
    case F_up => (r + p) % 256
    case F_avg => (r + p / 2) % 256
    case F_paeth => (r + Paeth(0, p, 0)) % 256
    case F_avg_first => r
    case F_paeth_first => r
  }

  /** The switch for the other pixels; l is the sample to the left and pl the one above that. */
  function NextSample(k: Kind, r: byte, l: byte, p: byte, pl: byte): byte
  {
    match k
    case F_none => r
    case F_sub => (r + l) % 256
    case F_up => (r + p) % 256
    case F_avg => (r + (p + l) / 2) % 256
    case F_paeth => (r + Paeth(l, p, pl)) % 256
    case F_avg_first => (r + l / 2) % 256
    case F_paeth_first => (r + Paeth(l, 0, 0)) % 256
  }

  /** The special filters do what the standard says with zeros outside the image. */
  lemma {:induction false} SamplesAgree(f: nat, r: byte, l: byte, p: byte, pl: byte)
    requires f <= 4
    ensures FirstSample(KindOf(f), r, p) == (r + Predict(f, 0, p, 0)) % 256
    ensures FirstSample(FirstRowKind(f), r, p) == (r + Predict(f, 0, 0, 0)) % 256
    ensures NextSample(KindOf(f), r, l, p, pl) == (r + Predict(f, l, p, pl)) % 256
    ensures NextSample(FirstRowKind(f), r, l, p, pl) == (r + Predict(f, l, 0, 0)) % 256
  {
  }

  // ---------------------------------------------------------------- the output

  /** A pixel as it is stored: with alpha 255 if the output has a sample more. */
  function OutPixel(p: Pixel, out_n: nat): Pixel
  {
    if |p| < out_n then p + [255] else p
  }

  function Spread(row: seq<Pixel>, out_n: nat): (r: seq<Pixel>)
    ensures |r| == |row|
  {
    seq(|row|, i requires 0 <= i < |row| => OutPixel(row[i], out_n))
  }

  function Stored(rows: seq<seq<Pixel>>, out_n: nat): seq<byte>
  {
    if rows == [] then [] else Stored(rows[..|rows| - 1], out_n) + Flat(Spread(rows[|rows| - 1], out_n))
  }

  lemma {:induction false} FlatAppend(a: seq<Pixel>, b: seq<Pixel>)
    ensures Flat(a + b) == Flat(a) + Flat(b)
  {
    if a == [] {
      assert a + b == b;
    } else {
      assert (a + b)[1..] == a[1..] + b && (a + b)[0] == a[0];
      FlatAppend(a[1..], b);
    }
  }

  /** Where the kind of the row comes from: the filter type, and whether it is the first row. */
  ghost predicate IsKind(k: Kind, f: nat, top: bool)
  {
    f <= 4 && k == if top then FirstRowKind(f) else KindOf(f)
  }

  /** The buffer holds pixel p at offset at. */
  ghost predicate Shows(out: seq<byte>, at: int, p: Pixel)
  {
    0 <= at && at + |p| <= |out| && forall i :: 0 <= i < |p| ==> out[at + i] == p[i]
  }

  /** What the buffer holds above the pixel at cur, which is m bytes wide. */
  ghost predicate Above(out: seq<byte>, cur: nat, prior: int, m: nat, top: bool, first: bool, up: Pixel, upleft: Pixel)
  {
    if top then up == Zero(|up|) && upleft == Zero(|up|)
    else Shows(out, prior, up) && prior + m <= cur && if first then upleft == Zero(|up|) else Shows(out, prior - m, upleft)
  }

  /** What it holds to the left. */
  ghost predicate LeftOf(out: seq<byte>, cur: nat, m: nat, first: bool, left: Pixel)
  {
    if first then left == Zero(|left|) else m <= cur && Shows(out, cur - m, left)
  }

  /** One sample, as the filter of the row and the place in the row would have it. */
  method OneSample(out: array<byte>, r: byte, at: nat, prior: int, m: nat, k: Kind, first: bool,
                   ghost f: nat, ghost top: bool, ghost l: byte, ghost u: byte, ghost ul: byte) returns (v: byte)
    requires at < out.Length && IsKind(k, f, top)
    requires if top then u == 0 && ul == 0
             else 0 <= prior < out.Length && out[prior] == u && if first then ul == 0 else 0 <= prior - m < out.Length && out[prior - m] == ul
    requires if first then l == 0 else m <= at && out[at - m] == l
    ensures v == (r + Predict(f, l, u, ul)) % 256
  {
    SamplesAgree(f, r, l, u, ul);
    KindUses(f);
    hide FirstSample, NextSample, Predict, KindOf, FirstRowKind;
    if first {
      v := FirstSample(k, r, if UsesPrior(k) then out[prior] else 0);
      FirstIgnores(k, r, u);
    } else {
      v := NextSample(k, r, out[at - m], if UsesPrior(k) then out[prior] else 0, if k.F_paeth? then out[prior - m] else 0);
      NextIgnores(k, r, l, u, ul);
    }
  }

  lemma {:induction false} KindUses(f: nat)
    ensures f <= 4 ==> !UsesPrior(FirstRowKind(f)) && !FirstRowKind(f).F_paeth?
  {
  }

  lemma {:induction false} FirstIgnores(k: Kind, r: byte, p: byte)
    ensures !UsesPrior(k) ==> FirstSample(k, r, p) == FirstSample(k, r, 0)
  {
  }

  lemma {:induction false} NextIgnores(k: Kind, r: byte, l: byte, p: byte, pl: byte)
    ensures !UsesPrior(k) ==> NextSample(k, r, l, p, pl) == NextSample(k, r, l, 0, 0)
    ensures !k.F_paeth? ==> NextSample(k, r, l, p, pl) == NextSample(k, r, l, p, 0)
  {
  }

  /** The samples of one pixel, and its alpha. */
  method OnePixel(out: array<byte>, raw: seq<byte>, cur: nat, prior: int, rp: nat, k: Kind, first: bool, n: nat, out_n: nat,
                  ghost f: nat, ghost top: bool, ghost left: Pixel, ghost up: Pixel, ghost upleft: Pixel)
    requires n <= out_n <= n + 1 && 0 < out_n && cur + out_n <= out.Length && rp + n <= |raw| && IsKind(k, f, top)
    requires |left| == n && |up| == n && |upleft| == n
    requires Above(out[..], cur, prior, out_n, top, first, up, upleft) && LeftOf(out[..], cur, out_n, first, left)
    modifies out
    ensures forall j :: 0 <= j < out.Length && (j < cur || cur + out_n <= j) ==> out[j] == old(out[j])
    ensures out[cur..cur + out_n] == OutPixel(ReconPixel(f, n, left, up, upleft, raw[rp..rp + n]), out_n)
  {
    hide Predict, FirstRowKind, KindOf, Above, LeftOf, ReconPixel;
    ghost var p := ReconPixel(f, n, left, up, upleft, raw[rp..rp + n]);
    ghost var was := out[..];
    var i := 0;
    while i < n
      invariant 0 <= i <= n
      invariant forall j :: 0 <= j < out.Length && (j < cur || cur + i <= j) ==> out[j] == was[j]
      invariant forall j :: 0 <= j < i ==> out[cur + j] == p[j]
    {
      Around(was, cur, prior, out_n, top, first, left, up, upleft, i);
      var v := OneSample(out, raw[rp + i], cur + i, prior + i, out_n, k, first, f, top, left[i], up[i], upleft[i]);
      ReconAt(f, n, left, up, upleft, raw[rp..rp + n], i);
      out[cur + i] := v;
      i := i + 1;
    }
    if n != out_n { out[cur + n] := 255; }
  }

  lemma {:induction false} ReconAt(f: nat, n: nat, left: Pixel, up: Pixel, upleft: Pixel, p: Pixel, i: nat)
    requires f <= 4 && |left| == n && |up| == n && |upleft| == n && |p| == n && i < n
    ensures ReconPixel(f, n, left, up, upleft, p)[i] == (p[i] + Predict(f, left[i], up[i], upleft[i])) % 256
  {
  }

  /** The samples around sample i of a pixel. */
  lemma {:induction false} Around(out: seq<byte>, cur: nat, prior: int, m: nat, top: bool, first: bool, left: Pixel, up: Pixel, upleft: Pixel, i: nat)
    requires i < |left| == |up| == |upleft| <= m && cur + m <= |out|
    requires Above(out, cur, prior, m, top, first, up, upleft) && LeftOf(out, cur, m, first, left)
    ensures if top then up[i] == 0 && upleft[i] == 0
            else 0 <= prior + i < cur && out[prior + i] == up[i]
                 && if first then upleft[i] == 0 else 0 <= prior + i - m < cur && out[prior + i - m] == upleft[i]
    ensures if first then left[i] == 0 else m <= cur && out[cur + i - m] == left[i]
  {
  }

  // ---------------------------------------------------------------- one row

  /** A row of x pixels at row0 of the output and at rp of the input; prev is the row above, zeros if there is none. */
  datatype Job = Job(row0: nat, rp: nat, n: nat, out_n: nat, x: nat, stride: nat, f: nat, top: bool, prev: seq<Pixel>, filts: seq<Pixel>)

  ghost predicate JobOk(o: seq<byte>, raw: seq<byte>, j: Job)
  {
    1 <= j.n <= j.out_n <= j.n + 1 && j.f <= 4 && |j.prev| == j.x && Even(j.n, j.prev)
    && j.stride == Span(j.out_n, j.x) && j.row0 + j.stride <= |o| && j.rp + Span(j.n, j.x) <= |raw| && j.filts == TakePixels(raw, j.rp, j.n, j.x)
    && (j.top ==> j.prev == seq(j.x, _ => Zero(j.n)))
    && (!j.top ==> j.stride <= j.row0 && o[j.row0 - j.stride..j.row0] == Flat(Spread(j.prev, j.out_n)))
  }

  ghost function Whole(j: Job): seq<Pixel>
    requires j.f <= 4 && Even(j.n, j.prev) && Even(j.n, j.filts) && |j.prev| == |j.filts|
  {
    Recon(j.f, j.n, Zero(j.n), Zero(j.n), j.prev, j.filts)
  }

  /** i pixels of the row are done: offsets, input, results, output, what it leaves alone, and what is left and above. */
  ghost predicate Places(j: Job, i: nat, cur: nat, rp: nat, done: seq<Pixel>, left: Pixel, upleft: Pixel)
  {
    i <= j.x && |done| == i && |left| == j.n && |upleft| == j.n && j.row0 <= cur
    && cur + Span(j.out_n, j.x - i) == j.row0 + j.stride && rp + Span(j.n, j.x - i) == j.rp + Span(j.n, j.x)
  }

  ghost predicate Input(raw: seq<byte>, j: Job, i: nat, rp: nat)
  {
    i <= j.x == |j.filts| && rp + Span(j.n, j.x - i) <= |raw| && TakePixels(raw, rp, j.n, j.x - i) == j.filts[i..]
  }

  ghost predicate Results(j: Job, i: nat, done: seq<Pixel>, left: Pixel, upleft: Pixel)
  {
    j.f <= 4 && Even(j.n, j.prev) && Even(j.n, j.filts) && |j.prev| == |j.filts| && i <= |j.prev| && |left| == j.n && |upleft| == j.n
    && Whole(j) == done + Recon(j.f, j.n, left, upleft, j.prev[i..], j.filts[i..])
  }

  ghost predicate Output(o: seq<byte>, j: Job, cur: nat, done: seq<Pixel>)
  {
    j.row0 <= cur <= |o| && o[j.row0..cur] == Flat(Spread(done, j.out_n))
  }

  ghost predicate Kept(o: seq<byte>, was: seq<byte>, row0: nat, cur: nat)
  {
    |o| == |was| && forall q :: 0 <= q < |o| && (q < row0 || cur <= q) ==> o[q] == was[q]
  }

  ghost predicate Higher(o: seq<byte>, j: Job, i: nat, cur: nat, upleft: Pixel)
  {
    if j.top then upleft == Zero(j.n)
    else 0 <= cur - j.stride <= j.row0 <= |o| && i <= |j.prev| && o[cur - j.stride..j.row0] == Flat(Spread(j.prev[i..], j.out_n))
         && if i == 0 then upleft == Zero(j.n) else Shows(o, cur - j.stride - j.out_n, upleft)
  }

  ghost predicate Part(o: seq<byte>, was: seq<byte>, raw: seq<byte>, j: Job, i: nat, cur: nat, rp: nat, done: seq<Pixel>, left: Pixel, upleft: Pixel)
  {
    JobOk(was, raw, j) && Places(j, i, cur, rp, done, left, upleft) && Input(raw, j, i, rp) && Results(j, i, done, left, upleft)
    && Output(o, j, cur, done) && Kept(o, was, j.row0, cur) && Higher(o, j, i, cur, upleft) && LeftOf(o, cur, j.out_n, i == 0, left)
  }

  lemma {:induction false} PartStart(o: seq<byte>, raw: seq<byte>, j: Job)
    requires JobOk(o, raw, j)
    ensures Part(o, o, raw, j, 0, j.row0, j.rp, [], Zero(j.n), Zero(j.n))
  {
    hide Recon, TakePixels;
    assert j.filts[0..] == j.filts && j.prev[0..] == j.prev && [] + Whole(j) == Whole(j);
    assert Spread([], j.out_n) == [] && Flat([]) == [];
  }

  lemma {:induction false} SpreadHead(row: seq<Pixel>, out_n: nat)
    requires row != []
    ensures Flat(Spread(row, out_n)) == OutPixel(row[0], out_n) + Flat(Spread(row[1..], out_n))
  {
    assert Spread(row, out_n)[1..] == Spread(row[1..], out_n);
  }

  lemma {:induction false} SpanStep(m: nat, k: nat)
    requires k > 0
    ensures Span(m, k) == m + Span(m, k - 1)
  {
  }

  // One lemma for each part: what it says of the next pixel, and what is left when that is done.

  lemma {:induction false} PlacesStep(j: Job, i: nat, cur: nat, rp: nat, done: seq<Pixel>, left: Pixel, upleft: Pixel, p: Pixel, up: Pixel)
    requires Places(j, i, cur, rp, done, left, upleft) && i < j.x && |p| == j.n && |up| == j.n
    ensures cur + j.out_n <= j.row0 + j.stride && rp + j.n <= j.rp + Span(j.n, j.x)
    ensures Places(j, i + 1, cur + j.out_n, rp + j.n, done + [p], p, up)
  {
    SpanStep(j.out_n, j.x - i);
    SpanStep(j.n, j.x - i);
  }

  lemma {:induction false} InputStep(raw: seq<byte>, j: Job, i: nat, rp: nat)
    requires Input(raw, j, i, rp) && i < j.x
    ensures rp + j.n <= |raw| && j.filts[i] == raw[rp..rp + j.n] && Input(raw, j, i + 1, rp + j.n)
  {
    SpanStep(j.n, j.x - i);
    assert j.filts[i..][0] == j.filts[i] && j.filts[i..][1..] == j.filts[i + 1..];
  }

  lemma {:induction false} ResultsStep(j: Job, i: nat, done: seq<Pixel>, left: Pixel, upleft: Pixel)
    requires Results(j, i, done, left, upleft) && i < |j.prev|
    ensures |j.prev[i]| == j.n && |j.filts[i]| == j.n
    ensures var p := ReconPixel(j.f, j.n, left, j.prev[i], upleft, j.filts[i]); Results(j, i + 1, done + [p], p, j.prev[i])
  {
    hide ReconPixel, Whole;
    var p := ReconPixel(j.f, j.n, left, j.prev[i], upleft, j.filts[i]);
    assert j.prev[i..][1..] == j.prev[i + 1..] && j.filts[i..][1..] == j.filts[i + 1..];
    RestAppend(done, p, Recon(j.f, j.n, p, j.prev[i], j.prev[i + 1..], j.filts[i + 1..]));
  }

  lemma {:induction false} RestAppend(a: seq<Pixel>, p: Pixel, b: seq<Pixel>)
    ensures a + ([p] + b) == a + [p] + b
  {
  }

  lemma {:induction false} OutputStep(o: seq<byte>, o2: seq<byte>, j: Job, cur: nat, done: seq<Pixel>, p: Pixel)
    requires Output(o, j, cur, done) && cur + j.out_n <= |o| && Kept(o2, o, cur, cur + j.out_n)
    requires o2[cur..cur + j.out_n] == OutPixel(p, j.out_n)
    ensures Output(o2, j, cur + j.out_n, done + [p])
  {
    var m := j.out_n;
    assert Spread(done + [p], m) == Spread(done, m) + [OutPixel(p, m)];
    FlatAppend(Spread(done, m), [OutPixel(p, m)]);
    assert Flat([OutPixel(p, m)]) == OutPixel(p, m);
    hide Flat, Spread, OutPixel;
    assert o2[j.row0..cur + m] == o[j.row0..cur] + o2[cur..cur + m];
  }

  lemma {:induction false} KeptStep(o: seq<byte>, o2: seq<byte>, was: seq<byte>, row0: nat, cur: nat, m: nat)
    requires Kept(o, was, row0, cur) && Kept(o2, o, cur, cur + m) && row0 <= cur
    ensures Kept(o2, was, row0, cur + m)
  {
  }

  /** The row above: the pixel above, and the row from there on. */
  lemma {:induction false} HigherStep(o: seq<byte>, o2: seq<byte>, j: Job, i: nat, cur: nat, upleft: Pixel)
    requires Higher(o, j, i, cur, upleft) && i < |j.prev| && |j.prev[i]| == j.n <= j.out_n <= j.n + 1 && j.row0 <= cur && |upleft| == j.n
    requires Kept(o2, o, cur, cur + j.out_n) && (j.top ==> j.prev[i] == Zero(j.n))
    ensures Above(o, cur, cur - j.stride, j.out_n, j.top, i == 0, j.prev[i], upleft)
    ensures Higher(o2, j, i + 1, cur + j.out_n, j.prev[i])
  {
    hide Flat, Spread;
    if !j.top {
      var at, m := cur - j.stride, j.out_n;
      SpreadHead(j.prev[i..], m);
      assert j.prev[i..][1..] == j.prev[i + 1..];
      var head, tail := OutPixel(j.prev[i], m), Flat(Spread(j.prev[i + 1..], m));
      assert o[at..j.row0] == head + tail;
      HeadShown(o, at, j.row0, j.prev[i], m, tail);
      HeadShown(o2, at, j.row0, j.prev[i], m, tail) by { assert o2[at..j.row0] == o[at..j.row0]; }
      hide OutPixel, Shows;
      assert o2[at + m..j.row0] == o2[at..j.row0][m..];
    }
  }

  lemma {:induction false} HeadShown(o: seq<byte>, at: nat, end: nat, p: Pixel, m: nat, tail: seq<byte>)
    requires at <= end <= |o| && |p| <= m <= |p| + 1 && o[at..end] == OutPixel(p, m) + tail
    ensures Shows(o, at, p) && at + m <= end && o[at..end][m..] == tail
  {
    forall k | 0 <= k < |p| ensures o[at + k] == p[k] { assert o[at..end][k] == (OutPixel(p, m) + tail)[k]; }
  }

  lemma {:induction false} JustStored(o: seq<byte>, cur: nat, m: nat, p: Pixel)
    requires cur + m <= |o| && o[cur..cur + m] == OutPixel(p, m) && |p| <= m
    ensures Shows(o, cur, p)
  {
    forall k | 0 <= k < |p| ensures o[cur + k] == p[k] { assert o[cur..cur + m][k] == p[k]; }
  }

  lemma {:induction false} JobFacts(o: seq<byte>, raw: seq<byte>, j: Job, i: nat)
    requires JobOk(o, raw, j) && i < j.x
    ensures 1 <= j.n <= j.out_n <= j.n + 1 && j.f <= 4 && |j.prev| == j.x && j.row0 + j.stride <= |o| && |j.prev[i]| == j.n
    ensures j.top ==> j.prev[i] == Zero(j.n)
  {
  }

  /** Pixel i of the row. */
  method RowPixel(out: array<byte>, raw: seq<byte>, cur: nat, rp: nat, k: Kind, i: nat, n: nat, out_n: nat, stride: nat,
                  ghost was: seq<byte>, ghost j: Job, ghost done: seq<Pixel>, ghost left: Pixel, ghost upleft: Pixel)
    returns (ghost p: Pixel)
    requires Part(out[..], was, raw, j, i, cur, rp, done, left, upleft) && i < j.x && IsKind(k, j.f, j.top)
    requires n == j.n && out_n == j.out_n && stride == j.stride
    modifies out
    ensures i < |j.prev| && Part(out[..], was, raw, j, i + 1, cur + out_n, rp + n, done + [p], p, j.prev[i])
  {
    hide *;
    ghost var o := out[..];
    PartParts(o, was, raw, j, i, cur, rp, done, left, upleft);
    JobFacts(was, raw, j, i);
    InputStep(raw, j, i, rp);
    ResultsStep(j, i, done, left, upleft);
    p := ReconPixel(j.f, n, left, j.prev[i], upleft, j.filts[i]);
    PlacesStep(j, i, cur, rp, done, left, upleft, p, j.prev[i]);
    KeptSame(o, cur, cur + out_n);
    HigherStep(o, o, j, i, cur, upleft);
    OnePixel(out, raw, cur, cur - stride, rp, k, i == 0, n, out_n, j.f, j.top, left, j.prev[i], upleft);
    ghost var o2 := out[..];
    KeptIs(o2, o, cur, cur + out_n);
    OutputStep(o, o2, j, cur, done, p);
    KeptStep(o, o2, was, j.row0, cur, out_n);
    HigherStep(o, o2, j, i, cur, upleft);
    JustStored(o2, cur, out_n, p);
    PartMade(o2, was, raw, j, i + 1, cur + out_n, rp + n, done + [p], p, j.prev[i]);
  }

  lemma {:induction false} KeptSame(o: seq<byte>, a: nat, b: nat)
    ensures Kept(o, o, a, b)
  {
  }

  lemma {:induction false} KeptIs(o: seq<byte>, was: seq<byte>, a: nat, b: nat)
    requires |o| == |was| && forall q :: 0 <= q < |o| && (q < a || b <= q) ==> o[q] == was[q]
    ensures Kept(o, was, a, b)
  {
  }

  lemma {:induction false} PartParts(o: seq<byte>, was: seq<byte>, raw: seq<byte>, j: Job, i: nat, cur: nat, rp: nat, done: seq<Pixel>, left: Pixel, upleft: Pixel)
    requires Part(o, was, raw, j, i, cur, rp, done, left, upleft)
    ensures JobOk(was, raw, j) && Places(j, i, cur, rp, done, left, upleft) && Input(raw, j, i, rp) && Results(j, i, done, left, upleft)
    ensures Output(o, j, cur, done) && Kept(o, was, j.row0, cur) && Higher(o, j, i, cur, upleft) && LeftOf(o, cur, j.out_n, i == 0, left)
    ensures |o| == |was| && |left| == |upleft| == j.n && j.row0 <= cur && i <= j.x
  {
  }

  lemma {:induction false} PartMade(o: seq<byte>, was: seq<byte>, raw: seq<byte>, j: Job, i: nat, cur: nat, rp: nat, done: seq<Pixel>, left: Pixel, upleft: Pixel)
    requires JobOk(was, raw, j) && Places(j, i, cur, rp, done, left, upleft) && Input(raw, j, i, rp) && Results(j, i, done, left, upleft)
    requires Output(o, j, cur, done) && Kept(o, was, j.row0, cur) && Higher(o, j, i, cur, upleft)
    requires i > 0 && j.out_n <= cur && Shows(o, cur - j.out_n, left)
    ensures Part(o, was, raw, j, i, cur, rp, done, left, upleft)
  {
    hide JobOk, Places, Input, Results, Output, Kept, Higher, Shows;
  }

  lemma {:induction false} JobKind(o: seq<byte>, raw: seq<byte>, j: Job)
    requires JobOk(o, raw, j)
    ensures j.f <= 4 && forall k :: k == (if j.top then FirstRowKind(j.f) else KindOf(j.f)) ==> IsKind(k, j.f, j.top)
  {
  }

  /** One row: the first pixel by itself, then the others. */
  method OneRow(out: array<byte>, raw: seq<byte>, row0: nat, rp0: nat, n: nat, out_n: nat, x: nat, stride: nat, f: nat, top: bool, ghost j: Job)
    requires JobOk(out[..], raw, j) && j == Job(row0, rp0, n, out_n, x, stride, f, top, j.prev, j.filts)
    modifies out
    ensures row0 + stride <= out.Length && out[row0..row0 + stride] == Flat(Spread(Whole(j), out_n))
    ensures Kept(out[..], old(out[..]), row0, row0 + stride)
  {
    hide *;
    JobKind(out[..], raw, j);
    var k := if top then FirstRowKind(f) else KindOf(f);
    var cur: nat, rp: nat, i: nat := row0, rp0, 0;
    ghost var was := out[..];
    ghost var done: seq<Pixel>, left, upleft := [], Zero(n), Zero(n);
    PartStart(out[..], raw, j);
    while i < x
      invariant i <= x && Part(out[..], was, raw, j, i, cur, rp, done, left, upleft)
    {
      ghost var p := RowPixel(out, raw, cur, rp, k, i, n, out_n, stride, was, j, done, left, upleft);
      done, left, upleft := done + [p], p, j.prev[i];
      i, cur, rp := i + 1, cur + out_n, rp + n;
    }
    PartEnd(out[..], was, raw, j, cur, rp, done, left, upleft);
  }

  lemma {:induction false} PartEnd(o: seq<byte>, was: seq<byte>, raw: seq<byte>, j: Job, cur: nat, rp: nat, done: seq<Pixel>, left: Pixel, upleft: Pixel)
    requires Part(o, was, raw, j, j.x, cur, rp, done, left, upleft)
    ensures j.row0 + j.stride <= |o| && Even(j.n, j.prev) && Even(j.n, j.filts) && |j.prev| == |j.filts| && j.f <= 4
    ensures o[j.row0..j.row0 + j.stride] == Flat(Spread(Whole(j), j.out_n)) && Kept(o, was, j.row0, j.row0 + j.stride)
  {
    hide TakePixels, Flat, Spread, Whole, Even, Higher;
    assert done + [] == done;
  }

  // ---------------------------------------------------------------- all rows

  /** Rows already there, then the rest. */
  function Glue(done: seq<seq<Pixel>>, r: Rows): Rows
  {
    match r case BadFilter => BadFilter case Rows(rs) => Rows(done + rs)
  }

  function Blank(n: nat, x: nat): (r: seq<Pixel>)
    ensures |r| == x && Even(n, r)
  {
    seq(x, _ => Zero(n))
  }

  /** j rows of an image of y rows are done. */
  ghost predicate RowsDone(o: seq<byte>, raw: seq<byte>, n: nat, out_n: nat, x: nat, y: nat, j: nat, row0: nat, rp: nat,
                           done: seq<seq<Pixel>>, prev: seq<Pixel>)
  {
    1 <= n <= out_n <= n + 1 && j <= y && |prev| == x && Even(n, prev)
    && Span(Span(n, x) + 1, y) <= |raw| && rp + Span(Span(n, x) + 1, y - j) <= |raw|
    && row0 + Span(Span(out_n, x), y - j) == |o|
    && Unfilter(raw, 0, n, x, y, Blank(n, x)) == Glue(done, Unfilter(raw, rp, n, x, y - j, prev))
    && row0 <= |o| && o[..row0] == Stored(done, out_n)
    && if j == 0 then prev == Blank(n, x)
       else Span(out_n, x) <= row0 && o[row0 - Span(out_n, x)..row0] == Flat(Spread(prev, out_n))
  }

  lemma {:induction false} RowsStart(o: seq<byte>, raw: seq<byte>, n: nat, out_n: nat, x: nat, y: nat)
    requires 1 <= n <= out_n <= n + 1 && Span(Span(n, x) + 1, y) <= |raw| && |o| == Span(Span(out_n, x), y)
    ensures RowsDone(o, raw, n, out_n, x, y, 0, 0, 0, [], Blank(n, x))
  {
    hide Unfilter, Span;
    match Unfilter(raw, 0, n, x, y, Blank(n, x))
    case BadFilter =>
    case Rows(rs) => assert [] + rs == rs;
  }

  /** What one row needs, and what is known of the whole when its filter type is bad. */
  lemma {:induction false} RowsNext(o: seq<byte>, raw: seq<byte>, n: nat, out_n: nat, x: nat, y: nat, j: nat, row0: nat, rp: nat,
                                    done: seq<seq<Pixel>>, prev: seq<Pixel>)
    requires RowsDone(o, raw, n, out_n, x, y, j, row0, rp, done, prev) && j < y
    ensures rp < |raw| && rp + 1 + Span(n, x) <= |raw| && row0 + Span(out_n, x) <= |o|
    ensures raw[rp] > 4 ==> Unfilter(raw, 0, n, x, y, Blank(n, x)) == BadFilter
    ensures raw[rp] <= 4 ==>
              JobOk(o, raw, Job(row0, rp + 1, n, out_n, x, Span(out_n, x), raw[rp], j == 0, prev, TakePixels(raw, rp + 1, n, x)))
  {
    SpanStep(Span(n, x) + 1, y - j);
    SpanStep(Span(out_n, x), y - j);
    hide Span, Recon, TakePixels, Flat, Spread, Stored;
  }

  lemma {:induction false} RowsStep(o: seq<byte>, o2: seq<byte>, raw: seq<byte>, n: nat, out_n: nat, x: nat, y: nat, j: nat, row0: nat, rp: nat,
                                    done: seq<seq<Pixel>>, prev: seq<Pixel>)
    requires RowsDone(o, raw, n, out_n, x, y, j, row0, rp, done, prev) && j < y && rp < |raw| && raw[rp] <= 4
    requires rp + 1 + Span(n, x) <= |raw| && row0 + Span(out_n, x) <= |o| && Kept(o2, o, row0, row0 + Span(out_n, x))
    requires var w := Recon(raw[rp], n, Zero(n), Zero(n), prev, TakePixels(raw, rp + 1, n, x));
             o2[row0..row0 + Span(out_n, x)] == Flat(Spread(w, out_n))
    ensures var w := Recon(raw[rp], n, Zero(n), Zero(n), prev, TakePixels(raw, rp + 1, n, x));
            RowsDone(o2, raw, n, out_n, x, y, j + 1, row0 + Span(out_n, x), rp + 1 + Span(n, x), done + [w], w)
  {
    hide Span, Recon, TakePixels, Flat, Spread, Unfilter, Blank, Glue, Even, Stored, Kept;
    var w := Recon(raw[rp], n, Zero(n), Zero(n), prev, TakePixels(raw, rp + 1, n, x));
    SpanStep(Span(n, x) + 1, y - j);
    SpanStep(Span(out_n, x), y - j);
    UnfilterStep(raw, rp, n, x, y - j, prev, done);
    StoredMore(done, w, out_n);
    KeptPrefix(o2, o, row0, row0 + Span(out_n, x));
  }

  lemma {:induction false} KeptPrefix(o2: seq<byte>, o: seq<byte>, a: nat, b: nat)
    requires Kept(o2, o, a, b) && a <= b <= |o|
    ensures |o2| == |o| && o2[..b] == o[..a] + o2[a..b]
  {
  }

  lemma {:induction false} StoredMore(done: seq<seq<Pixel>>, w: seq<Pixel>, out_n: nat)
    ensures Stored(done + [w], out_n) == Stored(done, out_n) + Flat(Spread(w, out_n))
  {
    assert (done + [w])[..|done|] == done;
  }

  lemma {:induction false} UnfilterStep(raw: seq<byte>, p: nat, n: nat, x: nat, y: nat, above: seq<Pixel>, done: seq<seq<Pixel>>)
    requires y > 0 && p + Span(Span(n, x) + 1, y) <= |raw| && |above| == x && Even(n, above) && raw[p] <= 4
    ensures p + 1 + Span(n, x) + Span(Span(n, x) + 1, y - 1) <= |raw|
    ensures var w := Recon(raw[p], n, Zero(n), Zero(n), above, TakePixels(raw, p + 1, n, x));
            Glue(done, Unfilter(raw, p, n, x, y, above)) == Glue(done + [w], Unfilter(raw, p + 1 + Span(n, x), n, x, y - 1, w))
  {
    SpanStep(Span(n, x) + 1, y);
    var w := Recon(raw[p], n, Zero(n), Zero(n), above, TakePixels(raw, p + 1, n, x));
    var r := Unfilter(raw, p + 1 + Span(n, x), n, x, y - 1, w);
    if r.Rows? { assert done + ([w] + r.rows) == done + [w] + r.rows; }
    hide Recon, TakePixels, Span;
  }

  // ---------------------------------------------------------------- sample by sample

  function ByteOr0(s: seq<byte>, i: int): byte
  {
    if 0 <= i < |s| then s[i] else 0
  }

  /** Sample k of pixel i of row j, in rows of x pixels of m bytes; zero to the left of the image and above it. */
  function Sample(out: seq<byte>, m: nat, x: nat, j: int, i: int, k: nat): byte
  {
    if i < 0 || j < 0 then 0 else ByteOr0(out, (j * x + i) * m + k)
  }

  /** The filter type of row j, which is the first byte of its line. */
  function FilterOf(raw: seq<byte>, n: nat, x: nat, j: nat): byte
  {
    ByteOr0(raw, j * (n * x + 1))
  }

  /** What section 6 of RFC 2083 asks of that sample, the filter type and the filtered bytes of the row being in raw. */
  ghost predicate SampleIs(out: seq<byte>, raw: seq<byte>, n: nat, m: nat, x: nat, j: nat, i: nat, k: nat)
  {
    var filter, r := FilterOf(raw, n, x, j), ByteOr0(raw, j * (n * x + 1) + 1 + i * n + k);
    var v := Sample(out, m, x, j, i, k);
    var left, up, upleft := Sample(out, m, x, j, i - 1, k), Sample(out, m, x, j - 1, i, k), Sample(out, m, x, j - 1, i - 1, k);
    (filter == 0 ==> v == r)
    && (filter == 1 ==> v == (r + left) % 256)
    && (filter == 2 ==> v == (r + up) % 256)
    && (filter == 3 ==> v == (r + (left + up) / 2) % 256)
    && (filter == 4 ==> v == (r + Paeth(left, up, upleft)) % 256)
  }

  /** The image is what the filtered bytes say, with alpha 255 in a sample that is added. */
  ghost predicate Rebuilt(out: seq<byte>, raw: seq<byte>, n: nat, m: nat, x: nat, y: nat)
  {
    |out| == x * y * m
    && (forall j: nat, i: nat, k: nat :: j < y && i < x && k < n ==> SampleIs(out, raw, n, m, x, j, i, k))
    && (n < m ==> forall j: nat, i: nat :: j < y && i < x ==> Sample(out, m, x, j, i, n) == 255)
  }

  ghost predicate FiltersOk(raw: seq<byte>, n: nat, x: nat, y: nat)
  {
    forall j: nat :: j < y ==> FilterOf(raw, n, x, j) <= 4
  }

  lemma {:induction false} IndexIs(j: nat, x: nat, i: nat, m: nat)
    ensures (j * x + i) * m == (m * x) * j + m * i
  {
  }

  lemma {:induction false} LineIs(n: nat, x: nat, j: nat)
    ensures Span(Span(n, x) + 1, j) == j * (n * x + 1)
  {
    SpanIs(n, x);
    SpanIs(n * x + 1, j);
  }

  lemma {:induction false} NoSpan(m: nat)
    ensures Span(m, 0) == 0
  {
  }

  lemma {:induction false} OneMore(j: nat, w: nat)
    requires j > 0
    ensures j * w == (j - 1) * w + w
  {
  }

  ghost predicate Wide(rows: seq<seq<Pixel>>, n: nat, x: nat)
  {
    forall j :: 0 <= j < |rows| ==> |rows[j]| == x && Even(n, rows[j])
  }

  /** Where the buffer has a sample. */
  lemma {:induction false} StoredSample(rows: seq<seq<Pixel>>, n: nat, m: nat, x: nat, j: nat, i: nat, k: nat)
    requires Wide(rows, n, x) && n <= m <= n + 1 && j < |rows| && i < x && k < m
    ensures |OutPixel(rows[j][i], m)| == m && ByteOr0(Stored(rows, m), (j * x + i) * m + k) == OutPixel(rows[j][i], m)[k]
  {
    assert |rows[j][i]| == n;
    hide *;
    StoredAt(rows, n, m, x, i, j) by { WideIs(rows, n, x); }
    OutSize(rows[j][i], n, m);
    OffsetIs(m, x, i, j);
    ByteIn(Stored(rows, m), Offset(m, x, i, j), OutPixel(rows[j][i], m), k);
  }

  lemma {:induction false} WideIs(rows: seq<seq<Pixel>>, n: nat, x: nat)
    requires Wide(rows, n, x)
    ensures forall k :: 0 <= k < |rows| ==> |rows[k]| == x && Even(n, rows[k])
  {
  }

  lemma {:induction false} OffsetIs(m: nat, x: nat, i: nat, j: nat)
    ensures Offset(m, x, i, j) == (j * x + i) * m
  {
    SpanIs(m, x);
    SpanIs(m * x, j);
    SpanIs(m, i);
    IndexIs(j, x, i, m);
    hide Span;
  }

  lemma {:induction false} ByteIn(s: seq<byte>, at: nat, p: Pixel, k: nat)
    requires IsAt(s, at, p) && k < |p|
    ensures ByteOr0(s, at + k) == p[k]
  {
    assert s[at..at + |p|][k] == s[at + k];
  }

  lemma {:induction false} StoredSize(rows: seq<seq<Pixel>>, n: nat, m: nat, x: nat)
    requires Wide(rows, n, x) && n <= m <= n + 1
    ensures |Stored(rows, m)| == x * |rows| * m
  {
    StoredAt(rows, n, m, x, 0, 0);
    SpanIs(m, x);
    SpanIs(m * x, |rows|);
    Swapped(x, |rows|, m);
    hide Stored, Span;
  }

  /** Pixel i of a row. */
  lemma {:induction false} ReconIs(f: nat, n: nat, left: Pixel, upleft: Pixel, above: seq<Pixel>, row: seq<Pixel>, i: nat)
    requires f <= 4 && |left| == n && |upleft| == n && Even(n, above) && Even(n, row) && |above| == |row| && i < |row|
    ensures var r := Recon(f, n, left, upleft, above, row);
            r[i] == ReconPixel(f, n, if i == 0 then left else r[i - 1], above[i], if i == 0 then upleft else above[i - 1], row[i])
    decreases |row|
  {
    hide ReconPixel;
    if i > 0 {
      var p := ReconPixel(f, n, left, above[0], upleft, row[0]);
      ReconIs(f, n, p, above[0], above[1..], row[1..], i - 1);
    }
  }

  lemma {:induction false} TakeIs(raw: seq<byte>, p: nat, n: nat, x: nat, i: nat, k: nat)
    requires p + Span(n, x) <= |raw| && i < x && k < n
    ensures TakePixels(raw, p, n, x)[i][k] == ByteOr0(raw, p + i * n + k)
    decreases x
  {
    if i > 0 {
      TakeIs(raw, p + n, n, x - 1, i - 1, k);
      OneMore(i, n);
    } else {
      assert raw[p..p + n][k] == raw[p + k];
    }
  }

  /** Row j, from its filter type and the row above. */
  lemma {:induction false} RowIs(raw: seq<byte>, p: nat, n: nat, x: nat, y: nat, above: seq<Pixel>, rs: seq<seq<Pixel>>, j: nat)
    requires p + Span(Span(n, x) + 1, y) <= |raw| && |above| == x && Even(n, above) && Unfilter(raw, p, n, x, y, above) == Rows(rs) && j < y
    ensures |rs| == y && Wide(rs, n, x)
    ensures var q := p + Span(Span(n, x) + 1, j);
            q + 1 + Span(n, x) <= |raw| && raw[q] <= 4
            && rs[j] == Recon(raw[q], n, Zero(n), Zero(n), if j == 0 then above else rs[j - 1], TakePixels(raw, q + 1, n, x))
    decreases y
  {
    hide Recon, TakePixels, Even, Span;
    SpanStep(Span(n, x) + 1, y);
    NoSpan(Span(n, x) + 1);
    if j > 0 {
      SpanStep(Span(n, x) + 1, j);
      var w := Recon(raw[p], n, Zero(n), Zero(n), above, TakePixels(raw, p + 1, n, x));
      RowIs(raw, p + 1 + Span(n, x), n, x, y - 1, w, rs[1..], j - 1);
    }
  }

  lemma {:induction false} BadRow(raw: seq<byte>, p: nat, n: nat, x: nat, y: nat, above: seq<Pixel>) returns (j: nat)
    requires p + Span(Span(n, x) + 1, y) <= |raw| && |above| == x && Even(n, above) && Unfilter(raw, p, n, x, y, above) == BadFilter
    ensures j < y && ByteOr0(raw, p + Span(Span(n, x) + 1, j)) > 4
    decreases y
  {
    hide Recon, TakePixels, Even, Span;
    SpanStep(Span(n, x) + 1, y);
    j := 0;
    NoSpan(Span(n, x) + 1);
    if raw[p] <= 4 {
      var w := Recon(raw[p], n, Zero(n), Zero(n), above, TakePixels(raw, p + 1, n, x));
      j := BadRow(raw, p + 1 + Span(n, x), n, x, y - 1, w);
      SpanStep(Span(n, x) + 1, j + 1);
      j := j + 1;
    }
  }

  /** The sample of the image, and zero outside of it. */
  function SampleOf(rs: seq<seq<Pixel>>, n: nat, j: int, i: int, k: nat): byte
  {
    if 0 <= i && 0 <= j < |rs| && i < |rs[j]| && k < |rs[j][i]| then rs[j][i][k] else 0
  }

  lemma {:induction false} SampleStored(rs: seq<seq<Pixel>>, n: nat, m: nat, x: nat, j: int, i: int, k: nat)
    requires Wide(rs, n, x) && n <= m <= n + 1 && j < |rs| && i < x && k < n
    ensures Sample(Stored(rs, m), m, x, j, i, k) == SampleOf(rs, n, j, i, k)
  {
    if 0 <= i && 0 <= j {
      StoredSample(rs, n, m, x, j, i, k);
      assert |rs[j][i]| == n;
    }
    hide Stored, ByteOr0;
  }

  lemma {:induction false} SampleMade(raw: seq<byte>, n: nat, x: nat, y: nat, rs: seq<seq<Pixel>>, j: nat, i: nat, k: nat)
    requires Span(Span(n, x) + 1, y) <= |raw| && Unfilter(raw, 0, n, x, y, Blank(n, x)) == Rows(rs) && j < y && i < x && k < n
    ensures var f, r := FilterOf(raw, n, x, j), ByteOr0(raw, j * (n * x + 1) + 1 + i * n + k);
            f <= 4 && SampleOf(rs, n, j, i, k) ==
            (r + Predict(f, SampleOf(rs, n, j, i - 1, k), SampleOf(rs, n, j - 1, i, k), SampleOf(rs, n, j - 1, i - 1, k))) % 256
  {
    hide Recon, TakePixels, Unfilter, Predict, Span;
    RowIs(raw, 0, n, x, y, Blank(n, x), rs, j);
    LineIs(n, x, j);
    var q := Span(Span(n, x) + 1, j);
    var above := if j == 0 then Blank(n, x) else rs[j - 1];
    ReconIs(raw[q], n, Zero(n), Zero(n), above, TakePixels(raw, q + 1, n, x), i);
    TakeIs(raw, q + 1, n, x, i, k);
  }

  /** The rows that the standard asks for, in the buffer, sample by sample. */
  lemma {:induction false} StoredRebuilt(raw: seq<byte>, n: nat, m: nat, x: nat, y: nat, rs: seq<seq<Pixel>>)
    requires 1 <= n <= m <= n + 1 && Span(Span(n, x) + 1, y) <= |raw| && Unfilter(raw, 0, n, x, y, Blank(n, x)) == Rows(rs)
    ensures Rebuilt(Stored(rs, m), raw, n, m, x, y) && FiltersOk(raw, n, x, y)
  {
    hide *;
    WideRows(raw, n, x, y, rs);
    StoredSize(rs, n, m, x);
    forall j: nat | j < y ensures FilterOf(raw, n, x, j) <= 4 { FilterOk(raw, n, x, y, rs, j); }
    forall j: nat, i: nat, k: nat | j < y && i < x && k < n ensures SampleIs(Stored(rs, m), raw, n, m, x, j, i, k) {
      SampleMade(raw, n, x, y, rs, j, i, k);
      SampleShown(raw, n, m, x, rs, j, i, k);
    }
    if n < m {
      forall j: nat, i: nat | j < y && i < x ensures Sample(Stored(rs, m), m, x, j, i, n) == 255 { AlphaShown(rs, n, m, x, j, i); }
    }
    RebuiltIs(Stored(rs, m), raw, n, m, x, y);
    FiltersAre(raw, n, x, y);
  }

  lemma {:induction false} WideRows(raw: seq<byte>, n: nat, x: nat, y: nat, rs: seq<seq<Pixel>>)
    requires Span(Span(n, x) + 1, y) <= |raw| && Unfilter(raw, 0, n, x, y, Blank(n, x)) == Rows(rs)
    ensures |rs| == y && Wide(rs, n, x)
  {
  }

  lemma {:induction false} FilterOk(raw: seq<byte>, n: nat, x: nat, y: nat, rs: seq<seq<Pixel>>, j: nat)
    requires Span(Span(n, x) + 1, y) <= |raw| && Unfilter(raw, 0, n, x, y, Blank(n, x)) == Rows(rs) && j < y
    ensures FilterOf(raw, n, x, j) <= 4
  {
    hide Recon, TakePixels, Unfilter, Span;
    RowIs(raw, 0, n, x, y, Blank(n, x), rs, j);
    LineIs(n, x, j);
  }

  lemma {:induction false} Swapped(x: nat, y: nat, m: nat)
    ensures (m * x) * y == x * y * m
  {
  }

  lemma {:induction false} SampleShown(raw: seq<byte>, n: nat, m: nat, x: nat, rs: seq<seq<Pixel>>, j: nat, i: nat, k: nat)
    requires Wide(rs, n, x) && n <= m <= n + 1 && j < |rs| && i < x && k < n
    requires var f, r := FilterOf(raw, n, x, j), ByteOr0(raw, j * (n * x + 1) + 1 + i * n + k);
             f <= 4 && SampleOf(rs, n, j, i, k) ==
             (r + Predict(f, SampleOf(rs, n, j, i - 1, k), SampleOf(rs, n, j - 1, i, k), SampleOf(rs, n, j - 1, i - 1, k))) % 256
    ensures SampleIs(Stored(rs, m), raw, n, m, x, j, i, k)
  {
    SampleStored(rs, n, m, x, j, i, k);
    SampleStored(rs, n, m, x, j, i - 1, k);
    SampleStored(rs, n, m, x, j - 1, i, k);
    SampleStored(rs, n, m, x, j - 1, i - 1, k);
    hide Stored, Sample, SampleOf, ByteOr0, FilterOf, Paeth, Wide;
  }

  lemma {:induction false} AlphaShown(rs: seq<seq<Pixel>>, n: nat, m: nat, x: nat, j: nat, i: nat)
    requires Wide(rs, n, x) && m == n + 1 && j < |rs| && i < x
    ensures Sample(Stored(rs, m), m, x, j, i, n) == 255
  {
    StoredSample(rs, n, m, x, j, i, n);
    assert |rs[j][i]| == n;
    hide Stored, ByteOr0;
  }

  lemma {:induction false} RebuiltIs(out: seq<byte>, raw: seq<byte>, n: nat, m: nat, x: nat, y: nat)
    requires |out| == x * y * m
    requires forall j: nat, i: nat, k: nat :: j < y && i < x && k < n ==> SampleIs(out, raw, n, m, x, j, i, k)
    requires n < m ==> forall j: nat, i: nat :: j < y && i < x ==> Sample(out, m, x, j, i, n) == 255
    ensures Rebuilt(out, raw, n, m, x, y)
  {
    hide SampleIs, Sample;
  }

  lemma {:induction false} FiltersAre(raw: seq<byte>, n: nat, x: nat, y: nat)
    requires forall j: nat :: j < y ==> FilterOf(raw, n, x, j) <= 4
    ensures FiltersOk(raw, n, x, y)
  {
    hide FilterOf;
  }

  lemma {:induction false} FiltersBad(raw: seq<byte>, n: nat, x: nat, y: nat)
    requires Span(Span(n, x) + 1, y) <= |raw| && Unfilter(raw, 0, n, x, y, Blank(n, x)) == BadFilter
    ensures !FiltersOk(raw, n, x, y)
  {
    var j := BadRow(raw, 0, n, x, y, Blank(n, x));
    LineIs(n, x, j);
    assert FilterOf(raw, n, x, j) > 4;
    hide Span, Unfilter, ByteOr0;
  }

  /** create_png_image_raw, when the whole image is wanted: img_x by img_y is the image, x by y the part of it at hand. */
  method CreateRaw(raw: seq<byte>, img_n: nat, out_n: nat, x: nat, y: nat, img_x: nat, img_y: nat) returns (ok: bool, out: array<byte>)
    requires 1 <= img_n <= out_n <= img_n + 1 && x >= 1
    ensures fresh(out)
    ensures var need := (img_n * x + 1) * y;
            need == Span(Span(img_n, x) + 1, y)
            && if (if img_x == x && img_y == y then |raw| != need else |raw| < need) then !ok
               else match Unfilter(raw, 0, img_n, x, y, Blank(img_n, x))
                    case BadFilter => !ok
                    case Rows(rs) => ok && out[..] == Stored(rs, out_n)
    ensures var need := (img_n * x + 1) * y;
            ok <==> (if img_x == x && img_y == y then |raw| == need else |raw| >= need) && FiltersOk(raw, img_n, x, y)
    ensures ok ==> Rebuilt(out[..], raw, img_n, out_n, x, y)
  {
    hide *;
    Sizes(img_n, out_n, x, y);
    out := new byte[x * y * out_n](_ => 0);
    var need := (img_n * x + 1) * y;
    if img_x == x && img_y == y {
      if |raw| != need { return false, out; }
    } else {
      if |raw| < need { return false, out; }
    }
    ok := AllRows(out, raw, img_n, out_n, x, y, x * out_n, img_n * x);
    match Unfilter(raw, 0, img_n, x, y, Blank(img_n, x)) {
      case BadFilter => FiltersBad(raw, img_n, x, y);
      case Rows(rs) => StoredRebuilt(raw, img_n, out_n, x, y, rs);
    }
  }

  lemma {:induction false} Sizes(n: nat, out_n: nat, x: nat, y: nat)
    ensures (n * x + 1) * y == Span(Span(n, x) + 1, y) && n * x == Span(n, x) && x * out_n == Span(out_n, x)
    ensures x * y * out_n == Span(Span(out_n, x), y)
  {
    SpanIs(n, x);
    SpanIs(n * x + 1, y);
    SpanIs(out_n, x);
    SpanIs(x * out_n, y);
    Commute(x, y, out_n);
  }

  /** The loop over the rows; stride and width are the bytes of a row of the output and of the input. */
  method AllRows(out: array<byte>, raw: seq<byte>, n: nat, out_n: nat, x: nat, y: nat, stride: nat, width: nat) returns (ok: bool)
    requires 1 <= n <= out_n <= n + 1 && width == Span(n, x) && stride == Span(out_n, x)
    requires Span(Span(n, x) + 1, y) <= |raw| && out.Length == Span(Span(out_n, x), y)
    modifies out
    ensures match Unfilter(raw, 0, n, x, y, Blank(n, x))
            case BadFilter => !ok
            case Rows(rs) => ok && out[..] == Stored(rs, out_n)
  {
    hide *;
    RowsStart(out[..], raw, n, out_n, x, y);
    var j, row0: nat, rp: nat := 0, 0, 0;
    ghost var done: seq<seq<Pixel>>, prev := [], Blank(n, x);
    while j < y
      invariant j <= y && RowsDone(out[..], raw, n, out_n, x, y, j, row0, rp, done, prev)
    {
      ghost var o := out[..];
      RowsNext(o, raw, n, out_n, x, y, j, row0, rp, done, prev);
      var filter := raw[rp];
      if filter > 4 { return false; }
      ghost var w := RowOf(out, raw, row0, rp, n, out_n, x, stride, filter, j == 0, prev);
      RowsStep(o, out[..], raw, n, out_n, x, y, j, row0, rp, done, prev);
      done, prev := done + [w], w;
      j, row0, rp := j + 1, row0 + stride, rp + 1 + width;
    }
    RowsEnd(out[..], raw, n, out_n, x, y, row0, rp, done, prev);
    ok := true;
  }

  lemma {:induction false} Commute(x: nat, y: nat, m: nat)
    ensures x * y * m == x * m * y && x * m == m * x && x * y * m >= 0
  {
  }

  method RowOf(out: array<byte>, raw: seq<byte>, row0: nat, rp: nat, n: nat, out_n: nat, x: nat, stride: nat, f: nat, top: bool, ghost prev: seq<Pixel>)
    returns (ghost w: seq<Pixel>)
    requires rp < |raw| && rp + 1 + Span(n, x) <= |raw| && f <= 4
    requires JobOk(out[..], raw, Job(row0, rp + 1, n, out_n, x, stride, f, top, prev, TakePixels(raw, rp + 1, n, x)))
    modifies out
    ensures |prev| == x && Even(n, prev) && w == Recon(f, n, Zero(n), Zero(n), prev, TakePixels(raw, rp + 1, n, x))
    ensures row0 + stride <= out.Length && out[row0..row0 + stride] == Flat(Spread(w, out_n)) && Kept(out[..], old(out[..]), row0, row0 + stride)
  {
    ghost var j := Job(row0, rp + 1, n, out_n, x, stride, f, top, prev, TakePixels(raw, rp + 1, n, x));
    w := Whole(j);
    hide Recon, TakePixels, Flat, Spread, Kept;
    OneRow(out, raw, row0, rp + 1, n, out_n, x, stride, f, top, j);
  }

  lemma {:induction false} RowsEnd(o: seq<byte>, raw: seq<byte>, n: nat, out_n: nat, x: nat, y: nat, row0: nat, rp: nat, done: seq<seq<Pixel>>, prev: seq<Pixel>)
    requires RowsDone(o, raw, n, out_n, x, y, y, row0, rp, done, prev)
    ensures Span(Span(n, x) + 1, y) <= |raw| && 1 <= n
    ensures Unfilter(raw, 0, n, x, y, Blank(n, x)) == Rows(done) && o == Stored(done, out_n)
  {
    hide Recon, TakePixels, Flat, Spread, Stored;
    assert done + [] == done && o[..row0] == o;
  }

  /** Pixel p is at k in a buffer. */
  ghost predicate IsAt(s: seq<byte>, k: nat, p: Pixel)
  {
    k + |p| <= |s| && s[k..k + |p|] == p
  }

  lemma {:induction false} IsAtIn(a: seq<byte>, b: seq<byte>, k: nat, p: Pixel)
    ensures IsAt(a, k, p) ==> IsAt(a + b, k, p)
    ensures IsAt(b, k, p) ==> IsAt(a + b, |a| + k, p)
  {
    if IsAt(a, k, p) { assert (a + b)[k..k + |p|] == a[k..k + |p|]; }
    if IsAt(b, k, p) { assert (a + b)[|a| + k..|a| + k + |p|] == b[k..k + |p|]; }
  }

  lemma {:induction false} RowAt(row: seq<Pixel>, n: nat, out_n: nat, i: nat)
    requires Even(n, row) && n <= out_n <= n + 1
    ensures |Flat(Spread(row, out_n))| == Span(out_n, |row|)
    ensures i < |row| ==> IsAt(Flat(Spread(row, out_n)), Span(out_n, i), OutPixel(row[i], out_n))
    decreases |row|
  {
    hide Flat, Spread, IsAt, OutPixel, Span;
    FlatNone(out_n);
    if row != [] {
      SpreadHead(row, out_n);
      RowAt(row[1..], n, out_n, if i > 0 then i - 1 else 0);
      var head, tail := OutPixel(row[0], out_n), Flat(Spread(row[1..], out_n));
      OutSize(row[0], n, out_n);
      SpanStep(out_n, |row|);
      IsAtIn(head, tail, 0, head);
      if 0 < i < |row| {
        SpanStep(out_n, i);
        IsAtIn(head, tail, Span(out_n, i - 1), OutPixel(row[i], out_n));
      }
    }
  }

  lemma {:induction false} FlatNone(out_n: nat)
    ensures Flat(Spread([], out_n)) == [] && Span(out_n, 0) == 0
  {
  }

  lemma {:induction false} OutSize(p: Pixel, n: nat, out_n: nat)
    requires |p| == n && n <= out_n <= n + 1
    ensures |OutPixel(p, out_n)| == out_n && IsAt(OutPixel(p, out_n), 0, OutPixel(p, out_n))
  {
  }

  /** Where a pixel is in the buffer. */
  function Offset(out_n: nat, x: nat, i: nat, j: nat): nat { Span(Span(out_n, x), j) + Span(out_n, i) }

  lemma {:induction false} StoredAt(rows: seq<seq<Pixel>>, n: nat, out_n: nat, x: nat, i: nat, j: nat)
    requires (forall k :: 0 <= k < |rows| ==> |rows[k]| == x && Even(n, rows[k])) && n <= out_n <= n + 1
    ensures |Stored(rows, out_n)| == Span(Span(out_n, x), |rows|)
    ensures i < x && j < |rows| ==> IsAt(Stored(rows, out_n), Offset(out_n, x, i, j), OutPixel(rows[j][i], out_n))
    decreases |rows|
  {
    hide Flat, Spread, OutPixel, IsAt, Even, Stored, Span;
    StoredLast(rows, out_n);
    if rows != [] {
      var m := |rows| - 1;
      StoredAt(rows[..m], n, out_n, x, i, j);
      RowAt(rows[m], n, out_n, i);
      SpanStep(Span(out_n, x), |rows|);
      var a, b := Stored(rows[..m], out_n), Flat(Spread(rows[m], out_n));
      if i < x && j < |rows| {
        if j < m { assert rows[..m][j] == rows[j]; }
        IsAtIn(a, b, if j < m then Offset(out_n, x, i, j) else Span(out_n, i), OutPixel(rows[j][i], out_n));
      }
    }
  }

  lemma {:induction false} StoredLast(rows: seq<seq<Pixel>>, out_n: nat)
    ensures rows == [] ==> Stored(rows, out_n) == [] && forall m: nat :: Span(m, 0) == 0
    ensures rows != [] ==> Stored(rows, out_n) == Stored(rows[..|rows| - 1], out_n) + Flat(Spread(rows[|rows| - 1], out_n))
  {
  }

  /** For every image, every choice of filters and with or without an alpha sample to add: decoding the filtered rows gives
      the image, and the buffer holds every pixel in its place, with alpha 255 if that is added. */
  lemma {:induction false} RawRoundTrip(fs: seq<nat>, n: nat, out_n: nat, x: nat, rows: seq<seq<Pixel>>)
    requires |fs| == |rows| && (forall j :: 0 <= j < |fs| ==> fs[j] <= 4) && n <= out_n <= n + 1
    requires forall j :: 0 <= j < |rows| ==> |rows[j]| == x && Even(n, rows[j])
    ensures var raw := Encode(fs, n, x, rows, Blank(n, x)); var out := Stored(rows, out_n);
            |raw| == Span(Span(n, x) + 1, |rows|) && Unfilter(raw, 0, n, x, |rows|, Blank(n, x)) == Rows(rows)
            && |out| == Span(Span(out_n, x), |rows|)
            && forall i: nat, j: nat :: i < x && j < |rows| ==>
                 IsAt(out, Offset(out_n, x, i, j), if out_n > n then rows[j][i] + [255] else rows[j][i])
  {
    var raw := Encode(fs, n, x, rows, Blank(n, x));
    assert raw[0..] == raw;
    UnfilterEncode(fs, n, x, rows, Blank(n, x), raw, 0);
    StoredAt(rows, n, out_n, x, 0, 0);
    hide Unfilter, Encode, Stored, Blank, Flat, Offset, IsAt;
    forall i: nat, j: nat | i < x && j < |rows|
      ensures IsAt(Stored(rows, out_n), Offset(out_n, x, i, j), if out_n > n then rows[j][i] + [255] else rows[j][i])
    {
      StoredAt(rows, n, out_n, x, i, j);
    }
  }
}
