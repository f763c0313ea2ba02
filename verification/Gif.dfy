/** The GIF raster decoder of DuiLib/stb_image.c: LZW table as linked prefixes, sub-blocks, and the pixels they paint. */
module Gif {
  import opened Bits
  import opened BitStream
  import opened Canonical
  import opened GifLzw
  import opened GifCursor
  import opened Lists

  /** stbi_gif_lzw: the code of the string without its last symbol, or -1; first symbol; last symbol. */
  datatype Entry = Entry(prefix: int, first: byte, suffix: byte)

  /** Four bytes of a colour table, or of the output. */
  datatype Four = Four(b0: byte, b1: byte, b2: byte, b3: byte)

  // ---------------------------------------------------------------- the table

  /** The string of an entry. */
  function Str(codes: seq<Entry>, i: nat): seq<byte>
  {
    if i >= |codes| then []
    else if codes[i].prefix < 0 || codes[i].prefix >= i then [codes[i].suffix]
    else Str(codes, codes[i].prefix) + [codes[i].suffix]
  }

  /** Entry i is right: its prefix has a smaller index, first is the first symbol of its string. */
  ghost predicate EntryOk(codes: seq<Entry>, lz: Lz, i: nat)
  {
    i < |codes| && i < |lz.dict| && -1 <= codes[i].prefix < i && !Special(lz.clear, codes[i].prefix)
    && Str(codes, i) == lz.dict[i] && lz.dict[i] != [] && codes[i].first == lz.dict[i][0]
  }

  /** The table holds the strings of lz. */
  ghost predicate Holds(codes: seq<Entry>, lz: Lz)
  {
    |codes| == LIMIT && forall i :: 0 <= i < |lz.dict| && !Special(lz.clear, i) ==> EntryOk(codes, lz, i)
  }

  lemma {:induction false} StrSame(codes: seq<Entry>, codes2: seq<Entry>, n: nat, i: nat)
    requires i < n <= |codes| == |codes2| && forall k :: 0 <= k < n ==> codes2[k] == codes[k]
    ensures Str(codes2, i) == Str(codes, i)
  {
    if 0 <= codes[i].prefix < i { StrSame(codes, codes2, n, codes[i].prefix); }
  }

  /** A new entry changes no earlier string. */
  lemma {:induction false} HoldsMore(codes: seq<Entry>, lz: Lz, e: Entry, lz2: Lz)
    requires Wf(lz) && Holds(codes, lz) && |lz.dict| < LIMIT && lz.prev.Some? && lz2.clear == lz.clear
    requires lz2.dict == lz.dict + [lz.dict[lz.prev.value] + [e.suffix]]
    requires e.prefix == lz.prev.value && e.first == lz.dict[lz.prev.value][0]
    ensures Holds(codes[|lz.dict| := e], lz2)
  {
    var n := |lz.dict|;
    var codes2 := codes[n := e];
    forall i | 0 <= i < n && !Special(lz.clear, i) ensures EntryOk(codes2, lz2, i) {
      assert EntryOk(codes, lz, i);
      StrSame(codes, codes2, n, i);
    }
    var o := lz.prev.value;
    assert EntryOk(codes, lz, o);
    StrSame(codes, codes2, n, o);
  }

  /** A clear code needs nothing done to the table. */
  lemma {:induction false} HoldsFresh(codes: seq<Entry>, lz: Lz)
    requires Holds(codes, lz) && lz.clear + 2 <= |lz.dict| && lz.dict[..lz.clear + 2] == Fresh(lz.clear).dict
    ensures Holds(codes, Fresh(lz.clear))
  {
    forall i | 0 <= i < lz.clear ensures EntryOk(codes, Fresh(lz.clear), i) {
      assert EntryOk(codes, lz, i);
      assert lz.dict[i] == lz.dict[..lz.clear + 2][i];
    }
  }

  // ---------------------------------------------------------------- sub-blocks

  function ByteAtOr0(input: seq<byte>, p: nat): byte
  {
    if p < |input| then input[p] else 0
  }

  function Bytes(input: seq<byte>, p: nat, n: nat): (r: seq<byte>)
    ensures |r| == n
    decreases n
  {
    if n == 0 then [] else [ByteAtOr0(input, p)] + Bytes(input, p + 1, n - 1)
  }

  /** The bytes of the sub-blocks from p on, up to an empty one or the end of the input. */
  function Payload(input: seq<byte>, p: nat): seq<byte>
    decreases if p < |input| then |input| - p else 0
  {
    var n := ByteAtOr0(input, p);
    if n == 0 then [] else Bytes(input, p + 1, n) + Payload(input, p + 1 + n)
  }

  // ---------------------------------------------------------------- pixels

  /** What a symbol does to a pixel: nothing if its colour is transparent. */
  function Colour(old_: Four, c: Four): Four
  {
    if c.b3 >= 128 then Four(c.b2, c.b1, c.b0, c.b3) else old_
  }

  /** The picture after the symbols e have been put along the path; symbols past its end are ignored. */
  function Paint(base: seq<Four>, path: seq<nat>, table: seq<Four>, e: seq<byte>): (r: seq<Four>)
    requires |table| == 256
    ensures |r| == |base|
  {
    if e == [] then base
    else
      var p := Paint(base, path, table, e[..|e| - 1]);
      var k := |e| - 1;
      if k < |path| && path[k] < |p| then p[path[k] := Colour(p[path[k]], table[e[k]])] else p
  }

  /** Place k of the path after the symbols e: a pixel whose table colour has 128 or more as its fourth byte has the first three of it in
      reverse; any other is as it was. */
  ghost predicate PixelIs(base: seq<Four>, path: seq<nat>, table: seq<Four>, e: seq<byte>, o: seq<Four>, k: nat)
    requires |table| == 256
  {
    k < |path| && path[k] < |base| == |o|
    && if k < |e| && table[e[k]].b3 >= 128
       then var c := table[e[k]]; o[path[k]].b0 == c.b2 && o[path[k]].b1 == c.b1 && o[path[k]].b2 == c.b0 && o[path[k]].b3 == c.b3
       else o[path[k]] == base[path[k]]
  }

  /** That is so all along the path, and nothing else has changed. */
  ghost predicate Painted(base: seq<Four>, path: seq<nat>, table: seq<Four>, e: seq<byte>, o: seq<Four>)
    requires |table| == 256
  {
    |o| == |base| && (forall k: nat :: k < |path| ==> PixelIs(base, path, table, e, o, k))
    && forall p :: 0 <= p < |base| && p !in path ==> o[p] == base[p]
  }

  ghost predicate AllBelow(path: seq<nat>, n: nat)
  {
    forall k :: 0 <= k < |path| ==> path[k] < n
  }

  lemma {:induction false} PaintIs(base: seq<Four>, path: seq<nat>, table: seq<Four>, e: seq<byte>)
    requires |table| == 256 && Distinct(path) && AllBelow(path, |base|)
    ensures Painted(base, path, table, e, Paint(base, path, table, e))
    decreases |e|
  {
    if e != [] {
      var k := |e| - 1;
      PaintIs(base, path, table, e[..k]);
      var p, o := Paint(base, path, table, e[..k]), Paint(base, path, table, e);
      forall i: nat | i < |path| ensures PixelIs(base, path, table, e, o, i) {
        assert PixelIs(base, path, table, e[..k], p, i);
        if i < k { assert e[..k][i] == e[i]; }
        if k < |path| && i != k { assert path[i] != path[k]; }
      }
    }
  }

  /** Moving on from the end of a row. */
  lemma {:induction false} TodoStep(r: Rect, c: Cursor)
    requires Inside(r, c) && c.y < r.max_y
    ensures Todo(r, c) != [] && Todo(r, c)[0] == c.x + c.y
    ensures c.x + 1 < r.max_x ==> Todo(r, c)[1..] == Todo(r, c.(x := c.x + 1))
    ensures c.x + 1 >= r.max_x ==> Todo(r, c)[1..] == RowsFrom(r, c.y + c.step, c.step, c.parse)
  {
    var rest := RowsFrom(r, c.y + c.step, c.step, c.parse);
    assert Row(r, c.x, c.y)[1..] == Row(r, c.x + 1, c.y);
    assert Todo(r, c) == Row(r, c.x, c.y) + rest;
    hide RowsFrom;
    assert (Row(r, c.x, c.y) + rest)[1..] == Row(r, c.x, c.y)[1..] + rest;
  }

  lemma {:induction false} RowsStep(r: Rect, y: nat, step: nat, parse: nat)
    requires step > 0
    ensures y < r.max_y ==> RowsFrom(r, y, step, parse) == Todo(r, Cursor(r.start_x, y, step, parse))
    ensures y >= r.max_y && parse > 0 ==>
              RowsFrom(r, y, step, parse) == RowsFrom(r, r.start_y + Shl(r.line, parse) / 2, Shl(r.line, parse), parse - 1)
    ensures y >= r.max_y && parse == 0 ==> RowsFrom(r, y, step, parse) == []
  {
  }

  /** The locals of stbi_process_gif_raster: for the input, and for the table. */
  datatype Reader = Reader(p: nat, len: nat, bits: nat, valid_bits: nat)
  datatype Table = Table(codesize: nat, avail: nat, oldcode: int, first: bool)
  datatype Next = GoOn | End | Fail

  /** How a raster ends; the last for a minimum code size whose codes do not fit the table. */
  datatype RasterEnd = Finished | Rejected | Undef

  class Decoder {
    const out: array<Four>
    const codes: array<Entry>
    var color_table: seq<Four>
    var rect: Rect                 // start_x, start_y, max_x, max_y, line_size
    var cur_x: nat
    var cur_y: nat
    var step: nat
    var parse: nat

    /** The picture and the way ahead when the raster began, and the symbols since then. */
    ghost var base: seq<Four>
    ghost var path: seq<nat>
    ghost var emitted: seq<byte>

    function Cur(): Cursor
      reads this`cur_x, this`cur_y, this`step, this`parse
    {
      Cursor(cur_x, cur_y, step, parse)
    }

    ghost predicate Ok()
      reads this, out
    {
      |color_table| == 256 && Inside(rect, Cur())
      && Todo(rect, Cur()) == path[Least(|emitted|, |path|)..]
      && out[..] == Paint(base, path, color_table, emitted) && Distinct(path)
      && forall i :: 0 <= i < |path| ==> path[i] < out.Length
    }

    /** The raster starts: the cursor is at the first pixel. */
    constructor (canvas: array<Four>, space: array<Entry>, table: seq<Four>, x: nat, y: nat, w: nat, h: nat, line: nat, interlaced: bool)
      requires w > 0 && h > 0 && x + w <= line && (y + h) * line <= canvas.Length && |table| == 256 && space.Length == LIMIT
      ensures out == canvas && codes == space && color_table == table && rect == Image(x, y, w, h, line) && Ok()
      ensures base == canvas[..] && path == Todo(rect, First(rect, interlaced)) && emitted == []
    {
      out, codes, color_table := canvas, space, table;
      rect := Image(x, y, w, h, line);
      cur_x, cur_y := x, y * line;
      step, parse := if interlaced then 8 * line else line, if interlaced then 3 else 0;
      base, path, emitted := canvas[..], Todo(Image(x, y, w, h, line), First(Image(x, y, w, h, line), interlaced)), [];
      new;
      InCanvas(x, y, w, h, line, interlaced, canvas.Length);
    }

    static lemma {:induction false} InCanvas(x: nat, y: nat, w: nat, h: nat, line: nat, interlaced: bool, size: nat)
      requires w > 0 && h > 0 && x + w <= line && (y + h) * line <= size
      ensures var r := Image(x, y, w, h, line);
              Inside(r, First(r, interlaced))
              && Distinct(Todo(r, First(r, interlaced)))
              && forall i :: 0 <= i < |Todo(r, First(r, interlaced))| ==> Todo(r, First(r, interlaced))[i] < size
    {
      var r := Image(x, y, w, h, line);
      var path := Todo(r, First(r, interlaced));
      VisitsOnce(x, y, w, h, line, interlaced);
      Times(0, h, line);
      hide Todo;
      forall i | 0 <= i < |path| ensures path[i] < size {
        assert path[i] in path;
        var row :| 0 <= row < h && InRow(r, row, path[i]);
        Times(row, h, line);
        assert (y + h) * line == y * line + h * line;
      }
    }

    /** The end of stbi_out_gif_code: one pixel, and the cursor moves. */
    method Put(suffix: byte)
      requires Ok()
      modifies this`cur_x, this`cur_y, this`step, this`parse, this`emitted, out
      ensures Ok() && emitted == old(emitted) + [suffix]
    {
      hide Todo, RowsFrom, Row, Paint, Inside;
      PaintNext(base, path, color_table, emitted, suffix);
      ghost var k := |emitted|;
      emitted := emitted + [suffix];
      if cur_y >= rect.max_y {
        TodoEnd(rect, Cur());
        return;
      }
      PathNext(rect, Cur(), path, k);
      var p := cur_x + cur_y;
      var c := color_table[suffix];
      if c.b3 >= 128 {
        out[p] := Four(c.b2, c.b1, c.b0, c.b3);
      }
      NextPixel();
    }

    static lemma {:induction false} PaintNext(base: seq<Four>, path: seq<nat>, table: seq<Four>, e: seq<byte>, b: byte)
      requires |table| == 256
      ensures var p := Paint(base, path, table, e);
              Paint(base, path, table, e + [b]) ==
              if |e| < |path| && path[|e|] < |p| then p[path[|e|] := Colour(p[path[|e|]], table[b])] else p
    {
      assert (e + [b])[..|e|] == e;
    }

    /** The cursor is at the next place of the path. */
    static lemma {:induction false} PathNext(r: Rect, c: Cursor, path: seq<nat>, k: nat)
      requires Inside(r, c) && c.y < r.max_y && Todo(r, c) == path[Least(k, |path|)..]
      ensures k < |path| && path[k] == c.x + c.y && Todo(r, c)[1..] == path[Least(k + 1, |path|)..]
    {
      TodoStep(r, c);
      hide Todo;
      assert path[k..][1..] == path[k + 1..];
    }

    /** The loop that skips passes without rows. */
    method SkipPasses(ghost rest: seq<nat>)
      requires cur_x == rect.start_x && step > 0 && rect.line > 0 && rect.start_x < rect.max_x && RowsFrom(rect, cur_y, step, parse) == rest
      modifies this`cur_y, this`step, this`parse
      ensures Inside(rect, Cur()) && Todo(rect, Cur()) == rest
    {
      hide Todo, RowsFrom, Row;
      while cur_y >= rect.max_y && parse > 0
        invariant cur_x == rect.start_x && step > 0 && RowsFrom(rect, cur_y, step, parse) == rest
        decreases parse
      {
        RowsStep(rect, cur_y, step, parse);
        ShlPositive(rect.line, parse);
        step := Shl(rect.line, parse);
        cur_y := rect.start_y + step / 2;
        parse := parse - 1;
      }
      RowsStep(rect, cur_y, step, parse);
      TodoEnd(rect, Cur());
    }

    /** The cursor moves on by one pixel. */
    method NextPixel()
      requires Inside(rect, Cur()) && cur_y < rect.max_y
      modifies this`cur_x, this`cur_y, this`step, this`parse
      ensures Inside(rect, Cur()) && old(Todo(rect, Cur())) != [] && Todo(rect, Cur()) == old(Todo(rect, Cur()))[1..]
    {
      TodoStep(rect, Cur());
      hide Todo, RowsFrom, Row;
      cur_x := cur_x + 1;
      if cur_x >= rect.max_x {
        cur_x := rect.start_x;
        cur_y := cur_y + step;
        SkipPasses(RowsFrom(rect, cur_y, step, parse));
      }
    }

    static lemma {:induction false} ShlPositive(x: nat, n: nat)
      requires x > 0
      ensures Shl(x, n) > 0
    {
    }

    static lemma {:induction false} TodoEnd(r: Rect, c: Cursor)
      ensures c.y >= r.max_y ==> Todo(r, c) == []
    {
    }

    /** An entry and the one it is linked to. */
    static lemma {:induction false} Linked(codes: seq<Entry>, lz: Lz, i: nat)
      requires Holds(codes, lz) && i < |lz.dict| && !Special(lz.clear, i)
      ensures i < |codes| && -1 <= codes[i].prefix < i && !Special(lz.clear, codes[i].prefix)
      ensures lz.dict[i] == (if codes[i].prefix >= 0 then lz.dict[codes[i].prefix] else []) + [codes[i].suffix]
      ensures lz.dict[i] != [] && codes[i].first == lz.dict[i][0]
    {
      assert EntryOk(codes, lz, i);
      var p := codes[i].prefix;
      if p >= 0 { assert EntryOk(codes, lz, p); }
      hide Holds;
    }

    /** stbi_out_gif_code: the prefixes first. */
    method OutCode(code: nat, ghost lz: Lz)
      requires Ok() && Holds(codes[..], lz) && code < |lz.dict| && !Special(lz.clear, code)
      modifies this`cur_x, this`cur_y, this`step, this`parse, this`emitted, out
      ensures Ok() && emitted == old(emitted) + lz.dict[code]
      decreases code
    {
      Linked(codes[..], lz, code);
      hide Ok, Holds, EntryOk;
      if codes[code].prefix >= 0 {
        OutCode(codes[code].prefix, lz);
      }
      Put(codes[code].suffix);
    }

    /** oldcode as the abstract table has it. */
    ghost predicate Before(oldcode: int, lz: Lz)
    {
      oldcode == match lz.prev case None => -1 case Some(o) => o
    }

    /** A code that is not special and at most avail: a table entry is made, and the string put out. */
    method TakeCode(code: nat, avail0: nat, oldcode: int, ghost lz: Lz) returns (ok: bool, avail: nat, ghost lz': Lz)
      requires Ok() && Wf(lz) && Holds(codes[..], lz) && avail0 == |lz.dict| && Before(oldcode, lz)
      requires !Special(lz.clear, code) && code <= avail0
      modifies this`cur_x, this`cur_y, this`step, this`parse, this`emitted, out, codes
      ensures Ok() && (ok <==> Take(lz, code).Emit?)
      ensures if ok then lz' == Take(lz, code).lz && Wf(lz') && Holds(codes[..], lz') && avail == |lz'.dict| && Before(code, lz')
                         && emitted == old(emitted) + Take(lz, code).s
              else emitted == old(emitted)
    {
      hide Ok, Paint, Todo;
      avail, ok, lz' := avail0, false, lz;
      if oldcode >= 0 {
        avail := avail + 1;
        if avail > LIMIT { return; }
        NewEntry(code, avail, oldcode, lz);
      } else if code == avail {
        return;
      }
      TakeWf(lz, code);
      lz' := Take(lz, code).lz;
      if oldcode < 0 { HoldsSame(codes[..], lz, lz'); }
      hide Take, Holds;
      TakeString(lz, code);
      OutCode(code, lz');
      ok := true;
    }

    static lemma {:induction false} HoldsSame(codes: seq<Entry>, lz: Lz, lz2: Lz)
      requires Holds(codes, lz) && lz2.clear == lz.clear && lz2.dict == lz.dict
      ensures Holds(codes, lz2)
    {
      forall i | 0 <= i < |lz2.dict| && !Special(lz2.clear, i) ensures EntryOk(codes, lz2, i) {
        assert EntryOk(codes, lz, i);
      }
    }

    static lemma {:induction false} TakeString(lz: Lz, c: nat)
      requires Wf(lz) && !Special(lz.clear, c) && Take(lz, c).Emit?
      ensures var e := Take(lz, c); e.lz.clear == lz.clear && c < |e.lz.dict| && e.s == e.lz.dict[c] && e.lz.prev == Some(c)
    {
    }

    /** The entry made before a code is put out. */
    method NewEntry(code: nat, avail: nat, oldcode: nat, ghost lz: Lz)
      requires Wf(lz) && Holds(codes[..], lz) && lz.prev == Some(oldcode) && avail == |lz.dict| + 1 <= LIMIT
      requires !Special(lz.clear, code) && code < avail
      modifies codes
      ensures Take(lz, code).Emit? && Holds(codes[..], Take(lz, code).lz)
    {
      ghost var before := codes[..];
      Linked(before, lz, oldcode);
      if code < |lz.dict| { Linked(before, lz, code); }
      hide *;
      var p := avail - 1;
      var f := codes[oldcode].first;
      codes[p] := Entry(oldcode, f, codes[p].suffix);
      // The source's test code == avail cannot succeed, since avail has just been incremented; when code is the entry being
      // made, its first symbol is already there.
      codes[p] := codes[p].(suffix := codes[code].first);
      NewIs(before, lz, code, codes[p]);
      assert codes[..] == before[p := codes[p]];
    }

    static lemma {:induction false} NewIs(codes: seq<Entry>, lz: Lz, code: nat, e: Entry)
      requires Wf(lz) && Holds(codes, lz) && lz.prev.Some? && |lz.dict| < LIMIT && !Special(lz.clear, code) && code <= |lz.dict|
      requires e.prefix == lz.prev.value && e.first == lz.dict[lz.prev.value][0]
      requires e.suffix == if code < |lz.dict| then lz.dict[code][0] else e.first
      ensures Take(lz, code).Emit? && Holds(codes[|lz.dict| := e], Take(lz, code).lz)
    {
      hide Holds;
      HoldsMore(codes, lz, e, Take(lz, code).lz);
    }

    /** The entries of the symbols themselves. */
    method InitCodes(clear: nat)
      requires codes.Length == LIMIT && clear <= LIMIT
      modifies codes
      ensures Wf(Fresh(clear)) && Holds(codes[..], Fresh(clear))
    {
      FreshWf(clear);
      var code := 0;
      while code < clear
        invariant 0 <= code <= clear && forall i :: 0 <= i < code ==> codes[i] == Entry(-1, i % 256, i % 256)
      {
        codes[code] := Entry(-1, code % 256, code % 256);
        code := code + 1;
      }
      forall i | 0 <= i < clear + 2 && !Special(clear, i) ensures EntryOk(codes[..], Fresh(clear), i) {}
    }

    /** Where the decoding of the raster is: pos bits of total are decoded, and taken bytes are in the bit buffer. */
    ghost predicate At(total: seq<byte>, taken: nat, pos: nat, bits: nat, valid_bits: nat)
    {
      pos + valid_bits == 8 * taken && taken <= |total| && bits == Low(Shr(BytesVal(total), pos), valid_bits)
    }

    /** One byte of the sub-blocks. */
    lemma {:induction false} AtMore(total: seq<byte>, taken: nat, pos: nat, bits: nat, valid_bits: nat, b: byte)
      requires At(total, taken, pos, bits, valid_bits) && taken < |total| && b == total[taken]
      ensures At(total, taken + 1, pos, Or(bits, Shl(b, valid_bits)), valid_bits + 8)
    {
      hide Low, Shr, Or, Shl, BytesVal;
      FillStep(total, pos, valid_bits, taken);
    }

    /** size bits are used. */
    lemma {:induction false} AtLess(total: seq<byte>, taken: nat, pos: nat, bits: nat, valid_bits: nat, size: nat)
      requires At(total, taken, pos, bits, valid_bits) && size <= valid_bits
      ensures At(total, taken, pos + size, Shr(bits, size), valid_bits - size)
      ensures Low(bits, size) == Low(Shr(BytesVal(total), pos), size) && pos + size <= 8 * |total|
    {
      hide Low, Shr, BytesVal;
      ConsumeStep(BytesVal(total), pos, valid_bits, size);
    }

    /** One step of Decode. */
    lemma {:induction false} DecodeStep(cs: nat, v: nat, n: nat, pos: nat, p: Place, out: seq<byte>)
      requires Wf(p.lz) && p.size > 0 && p.lz.clear == Pow2(cs) && cs <= 12
      ensures pos + p.size > n ==> DecodeCodes(cs, v, n, pos, p, out) == Done(out)
      ensures pos + p.size <= n ==>
                var c := Low(Shr(v, pos), p.size);
                if c == p.lz.clear then
                  Wf(Fresh(c)) && Fresh(c).clear == Pow2(cs)
                  && DecodeCodes(cs, v, n, pos, p, out) == DecodeCodes(cs, v, n, pos + p.size, Place(Fresh(c), cs + 1, false), out)
                else if c == p.lz.clear + 1 then DecodeCodes(cs, v, n, pos, p, out) == Done(out)
                else if p.first || Take(p.lz, c).Bad? then DecodeCodes(cs, v, n, pos, p, out) == Corrupt(out)
                else
                  var e := Take(p.lz, c);
                  Wf(e.lz) && e.lz.clear == Pow2(cs)
                  && DecodeCodes(cs, v, n, pos, p, out) ==
                     DecodeCodes(cs, v, n, pos + p.size, Place(e.lz, NextSize(p.size, |e.lz.dict|), false), out + e.s)
    {
      Pow2Mono(cs, 12);
      Pow2Values12();
      if pos + p.size <= n {
        var c := Low(Shr(v, pos), p.size);
        hide Low, Shr, Pow2, Take, Wf, Fresh;
        if c == p.lz.clear { FreshWf(c); }
        else if c != p.lz.clear + 1 && Take(p.lz, c).Emit? { TakeWf(p.lz, c); }
      }
    }

    lemma {:induction false} Pow2Values12()
      ensures Pow2(12) == LIMIT
    {
      assert Pow2(6) == 64;
    }

    /** The end of the sub-blocks is the end of the payload. */
    static lemma {:induction false} PayloadStep(input: seq<byte>, p: nat)
      ensures var n := ByteAtOr0(input, p);
              Payload(input, p) == if n == 0 then [] else Bytes(input, p + 1, n) + Payload(input, p + 1 + n)
    {
      hide Bytes;
    }

    static lemma {:induction false} BytesStep(input: seq<byte>, p: nat, n: nat, rest: seq<byte>, total: seq<byte>, taken: nat)
      requires n > 0 && taken <= |total| && total[taken..] == Bytes(input, p, n) + rest
      ensures taken < |total| && total[taken] == ByteAtOr0(input, p) && total[taken + 1..] == Bytes(input, p + 1, n - 1) + rest
    {
      assert total[taken..][0] == total[taken];
      assert total[taken + 1..] == total[taken..][1..];
      assert Bytes(input, p, n)[1..] == Bytes(input, p + 1, n - 1);
    }

    static lemma {:induction false} LargePower(cs: nat)
      ensures cs > 12 ==> Pow2(cs) > LIMIT
    {
      assert Pow2(7) == 128 && Pow2(13) == 8192;
      if cs > 12 { Pow2Mono(13, cs); }
    }

    static lemma {:induction false} SmallPower(cs: nat)
      requires cs <= 12
      ensures Pow2(cs) <= LIMIT && Wf(Fresh(Pow2(cs)))
    {
      Pow2Mono(cs, 12);
      assert Pow2(6) == 64 && Pow2(12) == LIMIT;
      FreshWf(Pow2(cs));
    }

    static lemma {:induction false} FreshFacts(clear: nat)
      ensures var lz := Fresh(clear); lz.clear == clear && |lz.dict| == clear + 2 && lz.prev == None && lz.dict[..clear + 2] == lz.dict
    {
    }

    lemma {:induction false} AtStart(total: seq<byte>)
      ensures At(total, 0, 0, 0, 0)
    {
    }

    static lemma {:induction false} BytesNone(input: seq<byte>, p: nat, rest: seq<byte>, total: seq<byte>)
      ensures Bytes(input, p, 0) + rest == rest && total[0..] == total
    {
    }

    lemma {:induction false} AtEnd(input: seq<byte>, p: nat, total: seq<byte>, taken: nat, pos: nat, bits: nat, valid_bits: nat)
      requires At(total, taken, pos, bits, valid_bits) && taken <= |total| && total[taken..] == Bytes(input, p, 0) + []
      ensures pos + valid_bits == 8 * |total|
    {
      hide Low, Shr, BytesVal;
      assert |total[taken..]| == 0;
    }

    static lemma {:induction false} TakeKeeps(lz: Lz, c: nat)
      requires Wf(lz) && !Special(lz.clear, c) && Take(lz, c).Emit?
      ensures var l := Take(lz, c).lz;
              l.clear == lz.clear && |lz.dict| <= |l.dict| && lz.clear + 2 <= |lz.dict| && l.dict[..lz.clear + 2] == lz.dict[..lz.clear + 2]
    {
    }

    static lemma {:induction false} TooFar(lz: Lz, c: nat)
      requires Wf(lz) && !Special(lz.clear, c) && c > |lz.dict|
      ensures Take(lz, c).Bad?
    {
    }

    /** The locals of stbi_process_gif_raster for input: offset, bytes left in the sub-block, bit buffer. */
    ghost predicate Reading(input: seq<byte>, total: seq<byte>, taken: nat, pos: nat, rd: Reader)
    {
      At(total, taken, pos, rd.bits, rd.valid_bits) && taken <= |total|
      && total[taken..] == Bytes(input, rd.p, rd.len) + Payload(input, rd.p + rd.len)
    }

    /** A new sub-block, if it is not empty. */
    lemma {:induction false} NewBlock(input: seq<byte>, total: seq<byte>, taken: nat, pos: nat, rd: Reader)
      requires Reading(input, total, taken, pos, rd) && rd.len == 0
      ensures var n := ByteAtOr0(input, rd.p);
              if n == 0 then pos + rd.valid_bits == 8 * |total|
              else Reading(input, total, taken, pos, rd.(p := rd.p + 1, len := n))
    {
      hide Low, Shr, BytesVal, Payload, Bytes, At;
      PayloadStep(input, rd.p);
      BytesNone(input, rd.p, Payload(input, rd.p), total);
      if ByteAtOr0(input, rd.p) == 0 { AtEnd(input, rd.p, total, taken, pos, rd.bits, rd.valid_bits); }
    }

    /** One byte of a sub-block. */
    lemma {:induction false} NextByte(input: seq<byte>, total: seq<byte>, taken: nat, pos: nat, rd: Reader)
      requires Reading(input, total, taken, pos, rd) && rd.len > 0
      ensures taken < |total|
      ensures Reading(input, total, taken + 1, pos,
                      Reader(rd.p + 1, rd.len - 1, Or(rd.bits, Shl(ByteAtOr0(input, rd.p), rd.valid_bits)), rd.valid_bits + 8))
    {
      hide Low, Shr, Or, Shl, BytesVal, Payload, Bytes, At;
      BytesStep(input, rd.p, rd.len, Payload(input, rd.p + rd.len), total, taken);
      AtMore(total, taken, pos, rd.bits, rd.valid_bits, ByteAtOr0(input, rd.p));
    }

    /** One more byte, from a new sub-block if need be; at the end of the sub-blocks there is none. */
    method More(input: seq<byte>, rd0: Reader, ghost total: seq<byte>, ghost taken: nat, ghost pos: nat) returns (ended: bool, rd: Reader)
      requires Reading(input, total, taken, pos, rd0)
      ensures if ended then pos + rd0.valid_bits == 8 * |total|
              else Reading(input, total, taken + 1, pos, rd) && taken < |total|
    {
      hide Reading, Or, Shl;
      rd := rd0;
      if rd.len == 0 {
        NewBlock(input, total, taken, pos, rd);
        rd := rd.(len := ByteAtOr0(input, rd.p));
        if rd.len == 0 { return true, rd; }
        rd := rd.(p := rd.p + 1);
      }
      NextByte(input, total, taken, pos, rd);
      rd := Reader(rd.p + 1, rd.len - 1, Or(rd.bits, Shl(ByteAtOr0(input, rd.p), rd.valid_bits)), rd.valid_bits + 8);
      ended := false;
    }

    /** size bits are taken from the bit buffer. */
    method Bits(input: seq<byte>, rd0: Reader, size: nat, ghost total: seq<byte>, ghost taken: nat, ghost pos: nat)
      returns (code: nat, rd: Reader)
      requires Reading(input, total, taken, pos, rd0) && size <= rd0.valid_bits
      ensures Reading(input, total, taken, pos + size, rd) && rd.valid_bits == rd0.valid_bits - size
      ensures code == Low(Shr(BytesVal(total), pos), size) && pos + size <= 8 * |total|
    {
      hide Low, Shr, BytesVal, Payload, Bytes, At;
      AtLess(total, taken, pos, rd0.bits, rd0.valid_bits, size);
      code := Low(rd0.bits, size);
      rd := rd0.(bits := Shr(rd0.bits, size), valid_bits := rd0.valid_bits - size);
    }

    /** The table and the locals that go with it. */
    ghost predicate Decoding(lz: Lz, clear: nat, d: Table)
      reads codes
    {
      Wf(lz) && Holds(codes[..], lz) && lz.clear == clear && d.avail == |lz.dict| && Before(d.oldcode, lz)
      && clear + 2 <= d.avail && lz.dict[..clear + 2] == Fresh(clear).dict && d.codesize > 0
    }

    /** What is done for one code. */
    method OneCode(code: nat, cs: nat, clear: nat, d0: Table, ghost lz0: Lz) returns (next: Next, d: Table, ghost lz: Lz)
      requires Ok() && Decoding(lz0, clear, d0)
      modifies this`cur_x, this`cur_y, this`step, this`parse, this`emitted, out, codes
      ensures Ok()
      ensures if code == clear then
                next.GoOn? && emitted == old(emitted) && lz == Fresh(clear) && d.codesize == cs + 1 && !d.first && Decoding(lz, clear, d)
              else if code == clear + 1 then next.End? && emitted == old(emitted)
              else if d0.first || Take(lz0, code).Bad? then next.Fail? && emitted == old(emitted)
              else var e := Take(lz0, code);
                   next.GoOn? && emitted == old(emitted) + e.s && lz == e.lz && Decoding(lz, clear, d) && !d.first
                   && d.codesize == NextSize(d0.codesize, |lz.dict|)
    {
      assert clear <= LIMIT;
      hide Ok, Holds, Wf, Fresh, Take, Low, NextSize;
      d, lz := d0, lz0;
      if code == clear {
        HoldsFresh(codes[..], lz);
        FreshFacts(clear);
        FreshWf(clear);
        d, lz := Table(cs + 1, clear + 2, -1, false), Fresh(clear);
        return GoOn, d, lz;
      }
      if code == clear + 1 { return End, d, lz; }
      if code > d.avail {
        TooFar(lz, code);
        return Fail, d, lz;
      }
      if d.first { return Fail, d, lz; }
      var ok, avail;
      ok, avail, lz := TakeCode(code, d.avail, d.oldcode, lz);
      if !ok { return Fail, d, lz; }
      TakeKeeps(lz0, code);
      NextPositive(d.codesize, avail);
      d := Table(NextSize(d.codesize, avail), avail, code, false);
      next := GoOn;
    }

    /** The rest of the decoding. */
    ghost function Rest(cs: nat, total: seq<byte>, pos: nat, lz: Lz, d: Table, e: seq<byte>): Raster
      requires Wf(lz) && d.codesize > 0 && lz.clear == Pow2(cs) && cs <= 12
    {
      DecodeCodes(cs, BytesVal(total), 8 * |total|, pos, Place(lz, d.codesize, d.first), e)
    }

    /** The step that code c makes in the rest of the decoding. */
    ghost predicate Steps(cs: nat, total: seq<byte>, pos: nat, lz: Lz, d: Table, e: seq<byte>, c: nat)
      requires Wf(lz) && d.codesize > 0 && lz.clear == Pow2(cs) && cs <= 12
    {
      if c == lz.clear then
        Wf(Fresh(c)) && Fresh(c).clear == Pow2(cs)
        && forall d2: Table :: d2.codesize == cs + 1 && !d2.first ==>
             Rest(cs, total, pos, lz, d, e) == Rest(cs, total, pos + d.codesize, Fresh(c), d2, e)
      else if c == lz.clear + 1 then Rest(cs, total, pos, lz, d, e) == Done(e)
      else if d.first || Take(lz, c).Bad? then Rest(cs, total, pos, lz, d, e) == Corrupt(e)
      else
        var t := Take(lz, c);
        Wf(t.lz) && t.lz.clear == Pow2(cs)
        && forall d2: Table :: d2.codesize == NextSize(d.codesize, |t.lz.dict|) && d2.codesize > 0 && !d2.first ==>
             Rest(cs, total, pos, lz, d, e) == Rest(cs, total, pos + d.codesize, t.lz, d2, e + t.s)
    }

    lemma {:induction false} RestStep(cs: nat, total: seq<byte>, pos: nat, lz: Lz, d: Table, e: seq<byte>)
      requires Wf(lz) && d.codesize > 0 && lz.clear == Pow2(cs) && cs <= 12 && pos + d.codesize <= 8 * |total|
      ensures Steps(cs, total, pos, lz, d, e, Low(Shr(BytesVal(total), pos), d.codesize))
    {
      hide Wf, Fresh, Take, DecodeCodes, Low, Shr, BytesVal, Pow2, NextSize;
      DecodeStep(cs, BytesVal(total), 8 * |total|, pos, Place(lz, d.codesize, d.first), e);
    }

    /** One round of the loop in which there are enough bits. */
    method Round(input: seq<byte>, rd0: Reader, cs: nat, clear: nat, d0: Table, ghost lz0: Lz, ghost total: seq<byte>, ghost taken: nat, ghost pos: nat)
      returns (next: Next, rd: Reader, d: Table, ghost lz: Lz)
      requires Ok() && Decoding(lz0, clear, d0) && Reading(input, total, taken, pos, rd0) && d0.codesize <= rd0.valid_bits
      requires clear == Pow2(cs) && cs <= 12
      modifies this`cur_x, this`cur_y, this`step, this`parse, this`emitted, out, codes
      ensures Ok() && Reading(input, total, taken, pos + d0.codesize, rd) && rd.valid_bits < rd0.valid_bits
      ensures match next
              case GoOn => Decoding(lz, clear, d)
                           && Rest(cs, total, pos, lz0, d0, old(emitted)) == Rest(cs, total, pos + d0.codesize, lz, d, emitted)
              case End => Rest(cs, total, pos, lz0, d0, old(emitted)) == Done(emitted)
              case Fail => Rest(cs, total, pos, lz0, d0, old(emitted)) == Corrupt(emitted)
    {
      hide Ok, Decoding, Reading, Rest, Wf, Fresh, Take, NextSize, Pow2, Low, Shr, BytesVal, Holds;
      DecodingParts(lz0, clear, d0);
      var code;
      code, rd := Bits(input, rd0, d0.codesize, total, taken, pos);
      RestStep(cs, total, pos, lz0, d0, emitted);
      next, d, lz := OneCode(code, cs, clear, d0, lz0);
      if next.GoOn? { DecodingParts(lz, clear, d); }
    }

    /** The loop of stbi_process_gif_raster. */
    method Loop(input: seq<byte>, rd0: Reader, cs: nat, clear: nat, d0: Table, ghost lz0: Lz, ghost total: seq<byte>) returns (ok: bool)
      requires Ok() && Decoding(lz0, clear, d0) && Reading(input, total, 0, 0, rd0) && clear == Pow2(cs) && cs <= 12
      requires Wf(lz0) && d0.codesize > 0 && lz0.clear == clear
      modifies this`cur_x, this`cur_y, this`step, this`parse, this`emitted, out, codes
      ensures Ok() && Rest(cs, total, 0, lz0, d0, old(emitted)) == if ok then Done(emitted) else Corrupt(emitted)
    {
      hide *;
      var rd, d := rd0, d0;
      ghost var lz, pos: nat, taken: nat := lz0, 0, 0;
      ghost var goal := Rest(cs, total, 0, lz, d, emitted);
      while true
        invariant Ok() && Decoding(lz, clear, d) && Reading(input, total, taken, pos, rd) && taken <= |total|
        invariant Wf(lz) && d.codesize > 0 && lz.clear == clear && Rest(cs, total, pos, lz, d, emitted) == goal
        decreases |total| - taken, rd.valid_bits
      {
        if rd.valid_bits < d.codesize {
          RestEnds(cs, total, pos, lz, d, emitted);
          var ended;
          ended, rd := More(input, rd, total, taken, pos);
          if ended { return true; }
          taken := taken + 1;
        } else {
          ghost var size := d.codesize;
          var next;
          next, rd, d, lz := Round(input, rd, cs, clear, d, lz, total, taken, pos);
          pos := pos + size;
          if !next.GoOn? { return next.End?; }
          DecodingParts(lz, clear, d);
        }
      }
    }

    /** stbi_process_gif_raster, at offset p0 of the input: the symbols that the pixels are painted with are the ones the
        LZW code stands for. */
    method Raster(input: seq<byte>, p0: nat) returns (st: RasterEnd)
      requires Ok() && emitted == [] && codes.Length == LIMIT
      modifies this`cur_x, this`cur_y, this`step, this`parse, this`emitted, out, codes
      ensures Ok() && base == old(out[..]) && |color_table| == 256 && Painted(base, path, color_table, emitted, out[..])
      ensures var cs := ByteAtOr0(input, p0); var total := Payload(input, p0 + 1);
              if Pow2(cs) > LIMIT then st == Undef && emitted == []
              else cs <= 12 && Wf(Fresh(Pow2(cs)))
                   && (st == Finished || st == Rejected)
                   && DecodeCodes(cs, BytesVal(total), 8 * |total|, 0, Place(Fresh(Pow2(cs)), cs + 1, true), []) ==
                      if st == Finished then Done(emitted) else Corrupt(emitted)
    {
      var cs: nat := ByteAtOr0(input, p0);
      NothingYet();
      LargePower(cs);
      if cs > 12 {
        OkPainted();
        return Undef;
      }
      SmallPower(cs);
      hide *;
      var clear := Shl(1, cs);
      ShlOne(cs);
      InitCodes(clear);
      ReadingFirst(input, p0 + 1);
      var d := Table(cs + 1, clear + 2, -1, true);
      DecodingFirst(clear, d);
      RestIs(cs, Payload(input, p0 + 1), clear, d);
      var ok := Loop(input, Reader(p0 + 1, 0, 0, 0), cs, clear, d, Fresh(clear), Payload(input, p0 + 1));
      st := if ok then Finished else Rejected;
      OkPainted();
    }

    lemma {:induction false} NothingYet()
      requires Ok() && emitted == []
      ensures base == out[..]
    {
    }

    lemma {:induction false} OkPainted()
      requires Ok()
      ensures |color_table| == 256 && Painted(base, path, color_table, emitted, out[..])
    {
      hide Paint, Distinct, Todo;
      PaintIs(base, path, color_table, emitted);
    }

    lemma {:induction false} RestIs(cs: nat, total: seq<byte>, clear: nat, d: Table)
      requires cs <= 12 && clear == Pow2(cs) && Wf(Fresh(clear)) && d.codesize == cs + 1 && d.first
      ensures Fresh(clear).clear == clear
      ensures Rest(cs, total, 0, Fresh(clear), d, []) == DecodeCodes(cs, BytesVal(total), 8 * |total|, 0, Place(Fresh(clear), cs + 1, true), [])
    {
    }

    lemma {:induction false} DecodingParts(lz: Lz, clear: nat, d: Table)
      requires Decoding(lz, clear, d)
      ensures Wf(lz) && d.codesize > 0 && lz.clear == clear
    {
    }

    lemma {:induction false} DecodingFirst(clear: nat, d: Table)
      requires Wf(Fresh(clear)) && Holds(codes[..], Fresh(clear)) && d.avail == clear + 2 && d.oldcode == -1 && d.codesize > 0
      ensures Decoding(Fresh(clear), clear, d)
    {
      hide Wf, Holds;
      FreshFacts(clear);
    }

    lemma {:induction false} RestEnds(cs: nat, total: seq<byte>, pos: nat, lz: Lz, d: Table, e: seq<byte>)
      requires Wf(lz) && d.codesize > 0 && lz.clear == Pow2(cs) && cs <= 12
      ensures pos + d.codesize > 8 * |total| ==> Rest(cs, total, pos, lz, d, e) == Done(e)
    {
      DecodeStep(cs, BytesVal(total), 8 * |total|, pos, Place(lz, d.codesize, d.first), e);
    }

    lemma {:induction false} ReadingFirst(input: seq<byte>, p: nat)
      ensures Reading(input, Payload(input, p), 0, 0, Reader(p, 0, 0, 0))
    {
      hide Payload, Low, Shr, BytesVal;
      AtStart(Payload(input, p));
      BytesNone(input, p, Payload(input, p), Payload(input, p));
    }
  }
}
