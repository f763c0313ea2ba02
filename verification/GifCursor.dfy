/** The pixel cursor of the GIF decoder of DuiLib/stb_image.c: the order in which it visits the pixels of an image
    rectangle, plain or interlaced. Offsets are in pixels. */
module GifCursor {
  import opened Bits
  import opened Lists

  /** start_x, start_y, max_x, max_y and line_size: column bounds, and the offsets of rows. */
  datatype Rect = Rect(start_x: nat, start_y: nat, max_x: nat, max_y: nat, line: nat)

  /** An image of w by h pixels at (x, y) on a canvas whose lines have line pixels. */
  function Image(x: nat, y: nat, w: nat, h: nat, line: nat): Rect
  {
    Rect(x, y * line, x + w, y * line + h * line, line)
  }

  function Row(r: Rect, x: nat, y: nat): (s: seq<nat>)
    ensures |s| == if x < r.max_x then r.max_x - x else 0
    ensures forall i :: 0 <= i < |s| ==> s[i] == x + i + y
  {
    seq(if x < r.max_x then r.max_x - x else 0, i requires 0 <= i => x + i + y)
  }

  /** Whole rows from offset y on, step apart; then the later passes. */
  function RowsFrom(r: Rect, y: nat, step: nat, parse: nat): seq<nat>
    decreases parse, if y < r.max_y then r.max_y - y else 0
  {
    if step == 0 then []
    else if y < r.max_y then Row(r, r.start_x, y) + RowsFrom(r, y + step, step, parse)
    else if parse > 0 then RowsFrom(r, r.start_y + Shl(r.line, parse) / 2, Shl(r.line, parse), parse - 1)
    else []
  }

  /** cur_x, cur_y, step and parse. */
  datatype Cursor = Cursor(x: nat, y: nat, step: nat, parse: nat)

  function First(r: Rect, interlaced: bool): Cursor
  {
    if interlaced then Cursor(r.start_x, r.start_y, 8 * r.line, 3) else Cursor(r.start_x, r.start_y, r.line, 0)
  }

  /** The offsets still to be visited. */
  function Todo(r: Rect, c: Cursor): seq<nat>
  {
    if c.y >= r.max_y then [] else Row(r, c.x, c.y) + RowsFrom(r, c.y + c.step, c.step, c.parse)
  }

  /** The cursor is inside a row, or past the last. */
  predicate Inside(r: Rect, c: Cursor)
  {
    c.x < r.max_x && c.step > 0 && r.line > 0 && r.start_x < r.max_x && (c.y >= r.max_y ==> c.parse == 0)
  }

  // ---------------------------------------------------------------- rows

  /** The rows of an image of h rows, in the order of the passes. */
  function RowNumbers(h: nat, k: nat, step: nat, parse: nat): seq<nat>
    decreases parse, if k < h then h - k else 0
  {
    if step == 0 then []
    else if k < h then [k] + RowNumbers(h, k + step, step, parse)
    else if parse > 0 then RowNumbers(h, Pow2(parse) / 2, Pow2(parse), parse - 1)
    else []
  }

  /** k, k + step, k + 2 step and so on, below h. */
  function Every(k: nat, step: nat, h: nat): seq<nat>
    decreases if k < h then h - k else 0
  {
    if step == 0 || k >= h then [] else [k] + Every(k + step, step, h)
  }

  lemma {:induction false} PassThen(h: nat, k: nat, step: nat, parse: nat)
    requires step > 0
    ensures RowNumbers(h, k, step, parse) ==
            Every(k, step, h) + (if parse > 0 then RowNumbers(h, Pow2(parse) / 2, Pow2(parse), parse - 1) else [])
    decreases if k < h then h - k else 0
  {
    if k < h { PassThen(h, k + step, step, parse); }
  }

  /** GIF89a, Appendix E: every 8th row from row 0, every 8th from row 4, every 4th from row 2, every 2nd from row 1. */
  lemma {:induction false} InterlaceOrder(h: nat)
    ensures RowNumbers(h, 0, 8, 3) == Every(0, 8, h) + (Every(4, 8, h) + (Every(2, 4, h) + Every(1, 2, h)))
    ensures RowNumbers(h, 0, 1, 0) == Every(0, 1, h)
  {
    PassThen(h, 0, 8, 3);
    PassThen(h, 4, 8, 2);
    PassThen(h, 2, 4, 1);
    PassThen(h, 1, 2, 0);
    PassThen(h, 0, 1, 0);
    assert Pow2(3) == 8 && Pow2(2) == 4 && Pow2(1) == 2;
  }

  lemma {:induction false} EveryIs(k: nat, step: nat, h: nat)
    requires step == 1 || step == 2 || step == 4 || step == 8
    ensures forall r: nat :: r in Every(k, step, h) <==> k <= r < h && r % step == k % step
    ensures Distinct(Every(k, step, h))
    decreases if k < h then h - k else 0
  {
    if k < h {
      EveryIs(k + step, step, h);
      assert (k + step) % step == k % step;
      var rest := Every(k + step, step, h);
      assert Every(k, step, h) == [k] + rest;
      assert k !in rest;
      forall r: nat ensures r in Every(k, step, h) <==> k <= r < h && r % step == k % step {
        if k < r < h && r % step == k % step { Apart(k, r, step); }
      }
    }
  }

  lemma {:induction false} Apart(k: nat, r: nat, step: nat)
    requires step == 1 || step == 2 || step == 4 || step == 8
    requires k < r && r % step == k % step
    ensures k + step <= r
  {
  }

  lemma {:induction false} Residues(r: nat)
    ensures r % 8 == 0 || r % 8 == 4 || r % 4 == 2 || r % 2 == 1
    ensures r % 8 == 0 || r % 8 == 4 ==> r % 4 == 0 && r % 2 == 0
    ensures r % 4 == 2 ==> r % 2 == 0
  {
  }

  /** The four passes have no row in common and together have all rows. */
  lemma {:induction false} PassesOnce(h: nat)
    ensures var rows := Every(0, 8, h) + (Every(4, 8, h) + (Every(2, 4, h) + Every(1, 2, h)));
            Distinct(rows) && forall r: nat :: r in rows <==> r < h
  {
    EveryIs(0, 8, h);
    EveryIs(4, 8, h);
    EveryIs(2, 4, h);
    EveryIs(1, 2, h);
    hide Distinct, Every;
    var a, b, c, d := Every(0, 8, h), Every(4, 8, h), Every(2, 4, h), Every(1, 2, h);
    forall r: nat ensures r in a ==> r !in b && r !in c && r !in d { Residues(r); }
    forall r: nat ensures r in b ==> r !in c && r !in d { Residues(r); }
    forall r: nat ensures r in c ==> r !in d { Residues(r); }
    DistinctAppend(c, d);
    DistinctAppend(b, c + d);
    DistinctAppend(a, b + (c + d));
    forall r: nat ensures r in a + (b + (c + d)) <==> r < h { Residues(r); }
  }

  /** Every row once. */
  lemma {:induction false} RowsOnce(h: nat, interlaced: bool)
    ensures var rows := RowNumbers(h, 0, if interlaced then 8 else 1, if interlaced then 3 else 0);
            Distinct(rows) && forall r: nat :: r in rows <==> r < h
  {
    InterlaceOrder(h);
    PassesOnce(h);
    EveryIs(0, 1, h);
    hide Distinct, Every, RowNumbers;
  }

  // ---------------------------------------------------------------- pixels

  function Pixels(r: Rect, rows: seq<nat>): seq<nat>
  {
    if rows == [] then [] else Row(r, r.start_x, r.start_y + rows[0] * r.line) + Pixels(r, rows[1..])
  }

  lemma {:induction false} TimesUp(a: nat, b: nat, m: nat)
    requires a <= b
    ensures a * m + (if a < b then m else 0) <= b * m
    decreases b
  {
    if a < b {
      TimesUp(a, b - 1, m);
      assert b * m == (b - 1) * m + m;
    }
  }

  lemma {:induction false} Times(a: nat, b: nat, m: nat)
    requires m > 0
    ensures a < b ==> a * m + m <= b * m
    ensures a * m < b * m <==> a < b
  {
    if a < b { TimesUp(a, b, m); } else { TimesUp(b, a, m); }
  }

  lemma {:induction false} ShlIs(line: nat, n: nat)
    requires n > 0
    ensures Shl(line, n) == Pow2(n) * line && Shl(line, n) / 2 == (Pow2(n) / 2) * line
  {
    ShlMul(line, n);
    ShlMul(line, n - 1);
  }

  /** The offsets visited are those of the rows, in their order. */
  lemma {:induction false} PathIsRows(r: Rect, h: nat, k: nat, s: nat, parse: nat)
    requires r.line > 0 && s > 0 && r.max_y == r.start_y + h * r.line
    ensures RowsFrom(r, r.start_y + k * r.line, s * r.line, parse) == Pixels(r, RowNumbers(h, k, s, parse))
    decreases parse, if k < h then h - k else 0
  {
    Times(k, h, r.line);
    Times(0, s, r.line);
    hide Row;
    if k < h {
      PathIsRows(r, h, k + s, s, parse);
      assert (k + s) * r.line == k * r.line + s * r.line;
      assert RowNumbers(h, k, s, parse)[1..] == RowNumbers(h, k + s, s, parse);
    } else if parse > 0 {
      ShlIs(r.line, parse);
      PathIsRows(r, h, Pow2(parse) / 2, Pow2(parse), parse - 1);
    }
  }

  ghost predicate InRow(r: Rect, row: nat, p: nat)
  {
    r.start_x + r.start_y + row * r.line <= p < r.max_x + r.start_y + row * r.line
  }

  lemma {:induction false} RowHolds(r: Rect, row: nat, p: nat)
    ensures p in Row(r, r.start_x, r.start_y + row * r.line) <==> InRow(r, row, p)
  {
    var y := r.start_y + row * r.line;
    if InRow(r, row, p) { assert Row(r, r.start_x, y)[p - r.start_x - y] == p; }
  }

  /** Rows do not overlap. */
  lemma {:induction false} RowOnly(r: Rect, a: nat, b: nat, p: nat)
    requires r.max_x <= r.line && r.line > 0 && InRow(r, a, p) && InRow(r, b, p)
    ensures a == b
  {
    Times(a, b, r.line);
    Times(b, a, r.line);
  }

  lemma {:induction false} PixelsIn(r: Rect, rows: seq<nat>, p: nat)
    ensures p in Pixels(r, rows) <==> exists row :: row in rows && InRow(r, row, p)
  {
    hide InRow, Row;
    if rows != [] {
      RowHolds(r, rows[0], p);
      PixelsIn(r, rows[1..], p);
      assert rows == [rows[0]] + rows[1..];
    }
  }

  lemma {:induction false} PixelsDistinct(r: Rect, rows: seq<nat>)
    requires Distinct(rows) && r.max_x <= r.line && r.line > 0
    ensures Distinct(Pixels(r, rows))
  {
    if rows != [] {
      var head := Row(r, r.start_x, r.start_y + rows[0] * r.line);
      PixelsDistinct(r, rows[1..]);
      forall p | p in head ensures p !in Pixels(r, rows[1..]) {
        hide InRow, Row;
        RowHolds(r, rows[0], p);
        PixelsIn(r, rows[1..], p);
        if p in Pixels(r, rows[1..]) {
          var row :| row in rows[1..] && InRow(r, row, p);
          RowOnly(r, rows[0], row, p);
          assert false;
        }
      }
      DistinctAppend(head, Pixels(r, rows[1..]));
    }
  }

  lemma {:induction false} TodoIsRows(r: Rect, h: nat, interlaced: bool)
    requires r.line > 0 && h > 0 && r.max_y == r.start_y + h * r.line
    ensures Todo(r, First(r, interlaced)) ==
            Pixels(r, RowNumbers(h, 0, if interlaced then 8 else 1, if interlaced then 3 else 0))
  {
    var s, parse := if interlaced then 8 else 1, if interlaced then 3 else 0;
    PathIsRows(r, h, 0, s, parse);
    Times(0, h, r.line);
    hide Row, RowNumbers, Pixels, RowsFrom;
    FirstRow(r, s * r.line, parse);
  }

  lemma {:induction false} RowsCover(r: Rect, h: nat, rows: seq<nat>)
    requires r.max_x <= r.line && r.line > 0 && Distinct(rows) && forall k: nat :: k in rows <==> k < h
    ensures Distinct(Pixels(r, rows)) && forall p :: p in Pixels(r, rows) <==> exists row :: 0 <= row < h && InRow(r, row, p)
  {
    PixelsDistinct(r, rows);
    hide Row, InRow, Pixels, Distinct;
    forall p ensures p in Pixels(r, rows) <==> exists row :: 0 <= row < h && InRow(r, row, p) {
      PixelsIn(r, rows, p);
    }
  }

  /** Every pixel of the image once, and no other; row after row in the order of the passes. */
  lemma {:induction false} VisitsOnce(x: nat, y: nat, w: nat, h: nat, line: nat, interlaced: bool)
    requires w > 0 && h > 0 && x + w <= line
    ensures var r := Image(x, y, w, h, line); var path := Todo(r, First(r, interlaced));
            path == Pixels(r, RowNumbers(h, 0, if interlaced then 8 else 1, if interlaced then 3 else 0))
            && Distinct(path) && forall p :: p in path <==> exists row :: 0 <= row < h && InRow(r, row, p)
  {
    var r := Image(x, y, w, h, line);
    hide Todo, First, Pixels, RowNumbers, Distinct, InRow;
    RowsOnce(h, interlaced);
    TodoIsRows(r, h, interlaced);
    RowsCover(r, h, RowNumbers(h, 0, if interlaced then 8 else 1, if interlaced then 3 else 0));
  }

  /** The rows of an image in the order in which they come. */
  function RowOrder(h: nat, interlaced: bool): seq<nat>
  {
    if interlaced then Every(0, 8, h) + (Every(4, 8, h) + (Every(2, 4, h) + Every(1, 2, h))) else Every(0, 1, h)
  }

  lemma {:induction false} PixelsAt(r: Rect, w: nat, rows: seq<nat>, i: nat, j: nat)
    requires r.max_x == r.start_x + w && i < |rows| && j < w
    ensures i * w + j < |Pixels(r, rows)| && Pixels(r, rows)[i * w + j] == r.start_x + j + (r.start_y + rows[i] * r.line)
    decreases |rows|
  {
    var head, tail := Row(r, r.start_x, r.start_y + rows[0] * r.line), Pixels(r, rows[1..]);
    assert Pixels(r, rows) == head + tail;
    if i > 0 {
      PixelsAt(r, w, rows[1..], i - 1, j);
      OneRowMore(i, w);
      hide Pixels, Row;
      assert (head + tail)[w + ((i - 1) * w + j)] == tail[(i - 1) * w + j];
    }
  }

  lemma {:induction false} PixelsSize(r: Rect, w: nat, rows: seq<nat>)
    requires r.max_x == r.start_x + w
    ensures |Pixels(r, rows)| == |rows| * w
    decreases |rows|
  {
    if rows != [] {
      PixelsSize(r, w, rows[1..]);
      OneRowMore(|rows|, w);
    }
  }

  lemma {:induction false} OneRowMore(n: nat, w: nat)
    requires n > 0
    ensures n * w == w + (n - 1) * w
  {
  }

  /** Column j of the i-th row that comes: where it is on a canvas of lines of the given length, for an image at column x and row y. */
  lemma {:induction false} PathAt(x: nat, y: nat, w: nat, h: nat, line: nat, interlaced: bool, i: nat, j: nat)
    requires w > 0 && h > 0 && x + w <= line && i < |RowOrder(h, interlaced)| && j < w
    ensures var r := Image(x, y, w, h, line); var path := Todo(r, First(r, interlaced));
            |path| == |RowOrder(h, interlaced)| * w && i * w + j < |path|
            && path[i * w + j] == (y + RowOrder(h, interlaced)[i]) * line + x + j
  {
    hide *;
    PathIs(x, y, w, h, line, interlaced);
    ImageIs(x, y, w, h, line);
    PixelsAt(Image(x, y, w, h, line), w, RowOrder(h, interlaced), i, j);
    PixelsSize(Image(x, y, w, h, line), w, RowOrder(h, interlaced));
    Spread(y, RowOrder(h, interlaced)[i], line);
  }

  lemma {:induction false} PathIs(x: nat, y: nat, w: nat, h: nat, line: nat, interlaced: bool)
    requires w > 0 && h > 0 && x + w <= line
    ensures var r := Image(x, y, w, h, line); Todo(r, First(r, interlaced)) == Pixels(r, RowOrder(h, interlaced))
  {
    VisitsOnce(x, y, w, h, line, interlaced);
    InterlaceOrder(h);
    hide Todo, First, RowNumbers, Distinct, InRow, Pixels, Every;
  }

  lemma {:induction false} ImageIs(x: nat, y: nat, w: nat, h: nat, line: nat)
    ensures var r := Image(x, y, w, h, line); r.start_x == x && r.start_y == y * line && r.max_x == x + w && r.line == line
  {
  }

  lemma {:induction false} Spread(a: nat, b: nat, m: nat)
    ensures (a + b) * m == a * m + b * m
  {
  }

  lemma {:induction false} FirstRow(r: Rect, step: nat, parse: nat)
    requires step > 0 && r.start_y < r.max_y
    ensures Todo(r, Cursor(r.start_x, r.start_y, step, parse)) == RowsFrom(r, r.start_y, step, parse)
  {
  }
}
