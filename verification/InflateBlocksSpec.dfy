/** Blocks as DuiLib/XUnzip.cpp reads them: from every place where inflate_blocks can be, and on every input, how the stream
    ends and what it decodes to, as a function of the place and the input alone. */
module InflateBlocksSpec {
  import opened Bits
  import opened Canonical
  import opened HuftBuild
  import opened Deflate
  import opened DeflateStream
  import opened InflateSpec
  import opened InflateTokens
  import opened InflateTrees

  /** The input as a number, and its size in bytes. */
  datatype Input = Input(v: nat, size: nat)

  /** How a stream ends: after the last block; at an error; for want of input; or for want of table space. The history is
      what the window held at first and all that is produced; pos counts the bits consumed. */
  datatype Finish =
    | Ended(pos: nat, hist: seq<byte>)
    | Faulty(pos: nat, hist: seq<byte>)
    | Starved(hist: seq<byte>)
    | NoSpace(pos: nat, hist: seq<byte>)

  // ---------------------------------------------------------------- code lengths

  datatype InfLensRes = LensAre(pos: nat, lens: seq<nat>) | BadLens(pos: nat) | NoLens

  /** Bits after code length symbols 16 to 18, and the least repeat count. */
  function RepBits(c: nat): nat { if c == 18 then 7 else if c >= 14 then c - 14 else 0 }
  function RepBase(c: nat): nat { if c == 18 then 11 else 3 }

  /** The code length symbol at the beginning of the stream w, and its bits. A code of one symbol leaves a bit pattern unused;
      its table gives that symbol there, too. */
  ghost function ClSym(cl: seq<nat>, w: nat): nat
  {
    match Decode(cl, w)
    case Some(i) => i
    case None => if exists i: nat :: IsLast(cl, i) then var i: nat :| IsLast(cl, i); i else 0
  }

  ghost function ClUsed(cl: seq<nat>, w: nat): nat
  {
    match Decode(cl, w)
    case Some(i) => cl[i]
    case None => Longest(cl)
  }

  lemma {:induction false} ClSymIn(cl: seq<nat>, w: nat)
    requires |cl| == 19
    ensures ClSym(cl, w) < 19
  {
  }

  /** One code length symbol read at pos after the lengths acc: where it ends and the lengths then, unless there are not the
      bits, or it has no meaning or runs past total. */
  ghost function NextLens(cl: seq<nat>, x: Input, pos: nat, acc: seq<nat>, total: nat): (r: InfLensRes)
    requires |cl| == 19 && ValidLens(acc) && |acc| < total
    ensures r.LensAre? ==> |acc| < |r.lens| <= total && ValidLens(r.lens) && r.pos >= pos
  {
    ClSymIn(cl, Shr(x.v, pos));
    var c, n := ClSym(cl, Shr(x.v, pos)), ClUsed(cl, Shr(x.v, pos));
    if pos + Longest(cl) > 8 * x.size then NoLens
    else if c < 16 then LensAre(pos + n, acc + [c])
    else if pos + n + RepBits(c) > 8 * x.size then NoLens
    else
      var j := RepBase(c) + Low(Shr(x.v, pos + n), RepBits(c));
      if |acc| + j > total || (c == 16 && acc == []) then BadLens(pos + n + RepBits(c))
      else LensAre(pos + n + RepBits(c), acc + Times(if c == 16 then acc[|acc| - 1] else 0, j))
  }

  ghost function InfLens(cl: seq<nat>, x: Input, pos: nat, acc: seq<nat>, total: nat): (r: InfLensRes)
    requires |cl| == 19 && ValidLens(acc) && |acc| <= total
    ensures r.LensAre? ==> |r.lens| == total && ValidLens(r.lens) && r.pos >= pos
    decreases total - |acc|
  {
    if |acc| == total then LensAre(pos, acc)
    else
      var r := NextLens(cl, x, pos, acc, total);
      if r.LensAre? then InfLens(cl, x, r.pos, r.lens, total) else r
  }

  // ---------------------------------------------------------------- from each mode to the end

  /** The bits of the input after pos. */
  function BitsLeft(x: Input, pos: nat): nat
  {
    if pos <= 8 * x.size then 8 * x.size - pos else 0
  }

  ghost function AfterBlock(x: Input, last: bool, pos: nat, hist: seq<byte>): Finish
    decreases BitsLeft(x, pos), 1
  {
    if last then Ended(pos, hist) else FromType(x, pos, hist)
  }

  ghost function FromType(x: Input, pos: nat, hist: seq<byte>): Finish
    decreases BitsLeft(x, pos), 0
  {
    var last := Low(Shr(x.v, pos), 1) == 1;
    var kind := Low(Shr(x.v, pos + 1), 2);
    if pos + 3 > 8 * x.size then Starved(hist)
    else if kind == 0 then FromLens(x, last, pos + 3 + Pad(pos + 3), hist)
    else if kind == 1 then FromCodes(x, last, FixedLengths(), FixedDistances(), pos + 3, hist)
    else if kind == 2 then FromTable(x, last, pos + 3, hist)
    else Faulty(pos + 3, hist)
  }

  ghost function FromLens(x: Input, last: bool, pos: nat, hist: seq<byte>): Finish
    decreases BitsLeft(x, pos), 3
  {
    var len := Low(Shr(x.v, pos), 16);
    if pos + 32 > 8 * x.size then Starved(hist)
    else if len + Low(Shr(x.v, pos + 16), 16) != 0xffff then Faulty(pos, hist)
    else FromStored(x, last, len, pos + 32, hist)
  }

  ghost function FromStored(x: Input, last: bool, left: nat, pos: nat, hist: seq<byte>): Finish
    decreases BitsLeft(x, pos), 2
  {
    if 8 * left > BitsLeft(x, pos) then Starved(hist + StreamBytes(x.v, pos, BitsLeft(x, pos) / 8))
    else AfterBlock(x, last, pos + 8 * left, hist + StreamBytes(x.v, pos, left))
  }

  ghost function FromTable(x: Input, last: bool, pos: nat, hist: seq<byte>): Finish
    decreases BitsLeft(x, pos), 6
  {
    Pow2Values();
    var hlit, hdist, hclen := Low(Shr(x.v, pos), 5), Low(Shr(x.v, pos + 5), 5), Low(Shr(x.v, pos + 10), 4);
    if pos + 14 > 8 * x.size then Starved(hist)
    else if hlit > 29 || hdist > 29 then Faulty(pos, hist)
    else FromTrees(x, last, hlit, hdist, hclen, pos + 14, hist)
  }

  ghost function FromTrees(x: Input, last: bool, hlit: nat, hdist: nat, hclen: nat, pos: nat, hist: seq<byte>): Finish
    requires hlit <= 29 && hdist <= 29 && hclen <= 15
    decreases BitsLeft(x, pos), 5
  {
    var cl := ReadClLens(x.v, pos, hclen + 4);
    var p := pos + 3 * (hclen + 4);
    if p > 8 * x.size then Starved(hist)
    else if !Accepted(cl) then Faulty(p, hist)
    else FromLengths(x, last, cl, 257 + hlit, 1 + hdist, p, [], hist)
  }

  /** The bit length tree is made from the lengths that come in the order of section 3.2.7. */
  lemma {:induction false} TreesOrdered(x: Input, last: bool, hlit: nat, hdist: nat, hclen: nat, pos: nat, hist: seq<byte>, cl: seq<nat>)
    requires hlit <= 29 && hdist <= 29 && hclen <= 15 && Ordered(cl, x.v, pos, hclen + 4)
    ensures var p := pos + 3 * (hclen + 4);
            |cl| == 19 && ValidLens(cl)
            && FromTrees(x, last, hlit, hdist, hclen, pos, hist) ==
               if p > 8 * x.size then Starved(hist)
               else if !Accepted(cl) then Faulty(p, hist)
               else FromLengths(x, last, cl, 257 + hlit, 1 + hdist, p, [], hist)
  {
    ClOrder(x.v, pos, hclen + 4);
    OrderedOnce(cl, ReadClLens(x.v, pos, hclen + 4), x.v, pos, hclen + 4);
    hide ReadClLens, Accepted, FromLengths, Ordered;
  }

  /** A dynamic block may have up to 286 literal/length codes and 30 distance codes; with more it is faulty. */
  lemma {:induction false} TableLimits(x: Input, last: bool, pos: nat, hist: seq<byte>, cl: seq<nat>)
    requires pos + 14 <= 8 * x.size && Ordered(cl, x.v, pos + 14, Low(Shr(x.v, pos + 10), 4) + 4)
    ensures var hlit, hdist, p := Low(Shr(x.v, pos), 5), Low(Shr(x.v, pos + 5), 5), pos + 14 + 3 * (Low(Shr(x.v, pos + 10), 4) + 4);
            |cl| == 19 && ValidLens(cl)
            && FromTable(x, last, pos, hist) ==
               if hlit + 257 > 286 || hdist + 1 > 30 then Faulty(pos, hist)
               else if p > 8 * x.size then Starved(hist)
               else if !Accepted(cl) then Faulty(p, hist)
               else FromLengths(x, last, cl, hlit + 257, hdist + 1, p, [], hist)
  {
    Pow2Values();
    hide Low, Shr, Pow2, FromLengths, Accepted, Ordered;
    var hlit, hdist, hclen := Low(Shr(x.v, pos), 5), Low(Shr(x.v, pos + 5), 5), Low(Shr(x.v, pos + 10), 4);
    if hlit <= 29 && hdist <= 29 {
      TreesOrdered(x, last, hlit, hdist, hclen, pos + 14, hist, cl);
    } else {
      OrderedValid(cl, x.v, pos + 14, hclen + 4);
    }
    hide FromTrees;
  }

  lemma {:induction false} OrderedValid(cl: seq<nat>, v: nat, pos: nat, n: nat)
    requires Ordered(cl, v, pos, n) && n <= 19
    ensures |cl| == 19 && ValidLens(cl)
  {
    ClOrder(v, pos, n);
    OrderedOnce(cl, ReadClLens(v, pos, n), v, pos, n);
  }

  ghost function FromLengths(x: Input, last: bool, cl: seq<nat>, nl: nat, nd: nat, pos: nat, acc: seq<nat>, hist: seq<byte>): Finish
    requires |cl| == 19 && ValidLens(acc) && |acc| <= nl + nd && 257 <= nl <= 286 && 1 <= nd <= 30
    decreases BitsLeft(x, pos), 4
  {
    match InfLens(cl, x, pos, acc, nl + nd)
    case NoLens => Starved(hist)
    case BadLens(p) => Faulty(p, hist)
    case LensAre(p, lens) =>
      PiecesValid(lens, nl, nd);
      assert lens[nl..nl + nd] == lens[nl..];
      match TreesVerdict(lens[..nl], lens[nl..])
      case TreesBad => Faulty(p, hist)
      case TreesFull => NoSpace(p, hist)
      case TreesOk => FromCodes(x, last, lens[..nl], lens[nl..], p, hist)
  }

  ghost function FromCodes(x: Input, last: bool, lit: seq<nat>, dist: seq<nat>, pos: nat, hist: seq<byte>): Finish
    requires |lit| <= 288 && |dist| <= 32
    decreases BitsLeft(x, pos), 2
  {
    hide InfToks;
    InfGrows(lit, dist, x.v, x.size, pos, hist);
    match InfToks(lit, dist, x.v, x.size, pos, hist)
    case Done(p, h) => AfterBlock(x, last, p, h)
    case Broken(p, h) => Faulty(p, h)
    case Short(h) => Starved(h)
  }

  // ---------------------------------------------------------------- places

  /** inflate_block_mode with what each mode keeps; blens is the array of code lengths, cl the lengths that the bit length tree
      was built from. */
  datatype Mode =
    | IsType
    | IsLens
    | IsStored(left: nat)
    | IsTable
    | IsBtree(table: nat, index: nat)
    | IsDtree(table: nat, cl: seq<nat>, acc: seq<nat>)
    | IsCodes(t: Tables, c: Ctl)
    | IsDry
    | IsBad

  datatype State = State(m: Mode, last: bool, pos: nat, hist: seq<byte>)

  function Hlit(table: nat): nat { table % 32 }
  function Hdist(table: nat): nat { table / 32 % 32 }
  function Hclen(table: nat): nat { table / 1024 }

  predicate TableOk(table: nat) { Hlit(table) <= 29 && Hdist(table) <= 29 && Hclen(table) <= 15 }

  /** What becomes of a block of codes that the machine leaves at g. */
  ghost function AfterCodes(x: Input, last: bool, g: S): Finish
  {
    if g.c.AtWash? then AfterBlock(x, last, g.pos, g.hist)
    else if g.c.AtBad? then Faulty(g.pos, g.hist)
    else Starved(g.hist)
  }

  ghost function FromState(x: Input, s: State): Finish
  {
    match s.m
    case IsType => FromType(x, s.pos, s.hist)
    case IsLens => FromLens(x, s.last, s.pos, s.hist)
    case IsStored(left) => FromStored(x, s.last, left, s.pos, s.hist)
    case IsTable => FromTable(x, s.last, s.pos, s.hist)
    case IsBtree(table, index) =>
      if TableOk(table) && 3 * index <= s.pos
      then FromTrees(x, s.last, Hlit(table), Hdist(table), Hclen(table), s.pos - 3 * index, s.hist)
      else Starved(s.hist)
    case IsDtree(table, cl, acc) =>
      if TableOk(table) && |cl| == 19 && ValidLens(acc) && |acc| <= 258 + Hlit(table) + Hdist(table)
      then FromLengths(x, s.last, cl, 257 + Hlit(table), 1 + Hdist(table), s.pos, acc, s.hist)
      else Starved(s.hist)
    case IsCodes(t, c) => AfterCodes(x, s.last, Run(t, x.v, x.size, S(c, s.pos, s.hist)))
    case IsDry => Ended(s.pos, s.hist)
    case IsBad => Faulty(s.pos, s.hist)
  }

  // ---------------------------------------------------------------- the history only grows

  lemma {:induction false} AfterGrows(x: Input, last: bool, pos: nat, hist: seq<byte>)
    ensures hist <= AfterBlock(x, last, pos, hist).hist
    decreases BitsLeft(x, pos), 1
  {
    if !last { TypeGrows(x, pos, hist); }
  }

  lemma {:induction false} CodesGrows(x: Input, last: bool, lit: seq<nat>, dist: seq<nat>, pos: nat, hist: seq<byte>)
    requires |lit| <= 288 && |dist| <= 32
    ensures hist <= FromCodes(x, last, lit, dist, pos, hist).hist
    decreases BitsLeft(x, pos), 2
  {
    hide InfToks, AfterBlock;
    InfGrows(lit, dist, x.v, x.size, pos, hist);
    var d := InfToks(lit, dist, x.v, x.size, pos, hist);
    if d.Done? { AfterGrows(x, last, d.pos, d.hist); }
  }

  lemma {:induction false} StoredGrows(x: Input, last: bool, left: nat, pos: nat, hist: seq<byte>)
    ensures hist <= FromStored(x, last, left, pos, hist).hist
    decreases BitsLeft(x, pos), 2
  {
    hide AfterBlock, StreamBytes;
    if 8 * left <= BitsLeft(x, pos) { AfterGrows(x, last, pos + 8 * left, hist + StreamBytes(x.v, pos, left)); }
  }

  lemma {:induction false} LensGrows(x: Input, last: bool, pos: nat, hist: seq<byte>)
    ensures hist <= FromLens(x, last, pos, hist).hist
    decreases BitsLeft(x, pos), 3
  {
    hide FromStored, Low, Shr;
    if pos + 32 <= 8 * x.size { StoredGrows(x, last, Low(Shr(x.v, pos), 16), pos + 32, hist); }
  }

  lemma {:induction false} LengthsGrows(x: Input, last: bool, cl: seq<nat>, nl: nat, nd: nat, pos: nat, acc: seq<nat>, hist: seq<byte>)
    requires |cl| == 19 && ValidLens(acc) && |acc| <= nl + nd && 257 <= nl <= 286 && 1 <= nd <= 30
    ensures hist <= FromLengths(x, last, cl, nl, nd, pos, acc, hist).hist
    decreases BitsLeft(x, pos), 4
  {
    hide FromCodes, InfLens, TreesVerdict, ValidLens;
    var r := InfLens(cl, x, pos, acc, nl + nd);
    if r.LensAre? { CodesGrows(x, last, r.lens[..nl], r.lens[nl..], r.pos, hist); }
  }

  lemma {:induction false} TreesGrows(x: Input, last: bool, hlit: nat, hdist: nat, hclen: nat, pos: nat, hist: seq<byte>)
    requires hlit <= 29 && hdist <= 29 && hclen <= 15
    ensures hist <= FromTrees(x, last, hlit, hdist, hclen, pos, hist).hist
    decreases BitsLeft(x, pos), 5
  {
    hide FromLengths, ReadClLens, Accepted;
    var p := pos + 3 * (hclen + 4);
    if p <= 8 * x.size { LengthsGrows(x, last, ReadClLens(x.v, pos, hclen + 4), 257 + hlit, 1 + hdist, p, [], hist); }
  }

  lemma {:induction false} TableGrows(x: Input, last: bool, pos: nat, hist: seq<byte>)
    ensures hist <= FromTable(x, last, pos, hist).hist
    decreases BitsLeft(x, pos), 6
  {
    Pow2Values();
    hide Low, Shr, FromTrees, Pow2;
    var hlit, hdist, hclen := Low(Shr(x.v, pos), 5), Low(Shr(x.v, pos + 5), 5), Low(Shr(x.v, pos + 10), 4);
    if pos + 14 <= 8 * x.size && hlit <= 29 && hdist <= 29 { TreesGrows(x, last, hlit, hdist, hclen, pos + 14, hist); }
  }

  lemma {:induction false} TypeGrows(x: Input, pos: nat, hist: seq<byte>)
    ensures hist <= FromType(x, pos, hist).hist
    decreases BitsLeft(x, pos), 0
  {
    hide Low, Shr, FromCodes, FromTable, FromLens, Pad, FixedLengths, FixedDistances, Pow2;
    var last := Low(Shr(x.v, pos), 1) == 1;
    var kind := Low(Shr(x.v, pos + 1), 2);
    if pos + 3 <= 8 * x.size {
      if kind == 0 {
        LensGrows(x, last, pos + 3 + Pad(pos + 3), hist);
      } else if kind == 1 {
        FixedOk();
        CodesGrows(x, last, FixedLengths(), FixedDistances(), pos + 3, hist);
      } else if kind == 2 {
        TableGrows(x, last, pos + 3, hist);
      }
    }
  }

  /** Whatever becomes of a stream, what has been produced stays. */
  lemma {:induction false} StateGrows(x: Input, s: State)
    ensures s.hist <= FromState(x, s).hist
  {
    hide FromType, FromLens, FromStored, FromTable, FromTrees, FromLengths, AfterBlock, Run, ValidLens;
    match s.m
    case IsType => TypeGrows(x, s.pos, s.hist);
    case IsLens => LensGrows(x, s.last, s.pos, s.hist);
    case IsStored(left) => StoredGrows(x, s.last, left, s.pos, s.hist);
    case IsTable => TableGrows(x, s.last, s.pos, s.hist);
    case IsBtree(table, index) =>
      if TableOk(table) && 3 * index <= s.pos {
        TreesGrows(x, s.last, Hlit(table), Hdist(table), Hclen(table), s.pos - 3 * index, s.hist);
      }
    case IsDtree(table, cl, acc) =>
      if TableOk(table) && |cl| == 19 && ValidLens(acc) && |acc| <= 258 + Hlit(table) + Hdist(table) {
        LengthsGrows(x, s.last, cl, 257 + Hlit(table), 1 + Hdist(table), s.pos, acc, s.hist);
      }
    case IsCodes(t, c) =>
      var g := Run(t, x.v, x.size, S(c, s.pos, s.hist));
      RunGrows(t, x.v, x.size, S(c, s.pos, s.hist));
      AfterGrows(x, s.last, g.pos, g.hist);
    case _ =>
  }
}
