/** The two decoders of the repository against each other and against an encoder. */
module InflateRoundTrip {
  import opened Bits
  import opened BitStream
  import opened Canonical
  import opened HuftSpec
  import opened HuftBuild
  import opened Deflate
  import opened DeflateStream
  import opened InflateTokens
  import opened InflateTrees
  import opened InflateBlocksSpec
  import opened InflateBlockSteps

  // ---------------------------------------------------------------- parts that both decoders read

  lemma {:induction false} StoredSame(x: Input, last: bool, pos: nat, before: seq<byte>, out: seq<byte>)
    requires RunStored(x.v, x.size, pos, out, None).Good?
    ensures var r := RunStored(x.v, x.size, pos, out, None);
            FromLens(x, last, pos + Pad(pos), before + out) == AfterBlock(x, last, r.pos, before + r.out)
  {
    hide Low, Shr, AfterBlock, StreamBytes, FromLens, FromStored, Pad;
    var p := pos + Pad(pos);
    var len := Low(Shr(x.v, p), 16);
    PadWhole(pos);
    assert before + out + StreamBytes(x.v, p + 32, len) == before + (out + StreamBytes(x.v, p + 32, len));
    StoredFits(x, p, len);
    LensUnfold(x, last, p, before + out);
    StoredIs(x, last, len, p + 32, before + out);
  }

  lemma {:induction false} StoredFits(x: Input, p: nat, len: nat)
    requires p % 8 == 0 && (p + 32) / 8 + len <= x.size
    ensures p + 32 <= 8 * x.size && 8 * len <= BitsLeft(x, p + 32)
  {
  }

  lemma {:induction false} StoredIs(x: Input, last: bool, left: nat, pos: nat, hist: seq<byte>)
    ensures FromStored(x, last, left, pos, hist) ==
            if 8 * left > BitsLeft(x, pos) then Starved(hist + StreamBytes(x.v, pos, BitsLeft(x, pos) / 8))
            else AfterBlock(x, last, pos + 8 * left, hist + StreamBytes(x.v, pos, left))
  {
    hide AfterBlock, StreamBytes;
  }

  lemma {:induction false} PadWhole(pos: nat)
    ensures (pos + Pad(pos)) % 8 == 0
  {
  }

  lemma {:induction false} ReadLensLonger(cl: seq<nat>, v: nat, pos: nat, acc: seq<nat>, total: nat)
    requires |cl| == 19 && ValidLens(acc) && ReadLens(cl, v, pos, acc, total).LensGood?
    ensures |ReadLens(cl, v, pos, acc, total).lens| >= |acc|
    decreases total - |acc|
  {
    hide Decode, Shr, Low, Times, ReadLens;
    if |acc| >= total {
      ReadLensDone(cl, v, pos, acc, total);
    } else {
      ReadLensUnfold(cl, v, pos, acc, total);
      var c := Decode(cl, Shr(v, pos)).value;
      var w := Shr(v, pos + cl[c]);
      if c < 16 { ReadLensLonger(cl, v, pos + cl[c], acc + [c], total); }
      else if c == 16 { ReadLensLonger(cl, v, pos + cl[c] + 2, acc + Times(acc[|acc| - 1], Low(w, 2) + 3), total); }
      else if c == 17 { ReadLensLonger(cl, v, pos + cl[c] + 3, acc + Times(0, Low(w, 3) + 3), total); }
      else { ReadLensLonger(cl, v, pos + cl[c] + 7, acc + Times(0, Low(w, 7) + 11), total); }
    }
  }

  lemma {:induction false} ReadRepeat(cl: seq<nat>, v: nat, pos: nat, acc: seq<nat>, total: nat, c: nat)
    requires |cl| == 19 && ValidLens(acc) && |acc| < total && Decode(cl, Shr(v, pos)) == Some(c) && 16 <= c < 19
    ensures c == 16 && acc == [] ==> ReadLens(cl, v, pos, acc, total) == LensUndefined
    ensures ReadLens(cl, v, pos, acc, total).LensGood? ==>
              var acc2 := acc + Times(if c == 16 && acc != [] then acc[|acc| - 1] else 0, RepBase(c) + Low(Shr(v, pos + cl[c]), RepBits(c)));
              (c != 16 || acc != []) && ValidLens(acc2) && ReadLens(cl, v, pos, acc, total) == ReadLens(cl, v, pos + cl[c] + RepBits(c), acc2, total)
  {
    hide Decode, Shr, Low, Times, ValidLens, ReadLens;
    ReadLensUnfold(cl, v, pos, acc, total);
    if c != 16 || acc != [] {
      RunAdded(acc, c, RepBase(c) + Low(Shr(v, pos + cl[c]), RepBits(c)));
    }
  }

  /** The last bit looked at when the symbol at pos is taken. */
  ghost function SymLook(cl: seq<nat>, v: nat, pos: nat): nat
    requires |cl| == 19
  {
    var c, n := ClSym(cl, Shr(v, pos)), ClUsed(cl, Shr(v, pos));
    Max(pos + Longest(cl), if c < 16 then pos else pos + n + RepBits(c))
  }

  /** Enough input for any code length symbol at pos. */
  function Ample(v: nat, pos: nat): Input
  {
    Input(v, pos + 30)
  }

  /** The last bit looked at when code lengths are read from pos on. */
  ghost function LensLook(cl: seq<nat>, v: nat, pos: nat, acc: seq<nat>, total: nat): (n: nat)
    requires |cl| == 19 && ValidLens(acc)
    ensures n >= pos
    decreases total - |acc|
  {
    if |acc| >= total then pos
    else
      var r := NextLens(cl, Ample(v, pos), pos, acc, total);
      Max(SymLook(cl, v, pos), if r.LensAre? then LensLook(cl, v, r.pos, r.lens, total) else pos)
  }

  lemma {:induction false} LensLookUnfold(cl: seq<nat>, v: nat, pos: nat, acc: seq<nat>, total: nat)
    requires |cl| == 19 && ValidLens(acc) && |acc| < total
    ensures var r := NextLens(cl, Ample(v, pos), pos, acc, total);
            LensLook(cl, v, pos, acc, total) == Max(SymLook(cl, v, pos), if r.LensAre? then LensLook(cl, v, r.pos, r.lens, total) else pos)
  {
    hide NextLens, SymLook;
  }

  /** With the bits it looks at, a symbol is what it is with any more. */
  lemma {:induction false} NextEnough(cl: seq<nat>, x: Input, pos: nat, acc: seq<nat>, total: nat)
    requires |cl| == 19 && ValidLens(cl) && ValidLens(acc) && |acc| < total
    ensures var r := NextLens(cl, x, pos, acc, total);
            if SymLook(cl, x.v, pos) <= 8 * x.size then r == NextLens(cl, Ample(x.v, pos), pos, acc, total) else r == NoLens
    ensures var r := NextLens(cl, Ample(x.v, pos), pos, acc, total); r.LensAre? ==> r.pos <= SymLook(cl, x.v, pos)
  {
    hide ClSym, ClUsed, Shr, Low, Times, Longest, RepBase, ValidLens, RepBits;
    UsedSmall(cl, Shr(x.v, pos));
    ClSymIn(cl, Shr(x.v, pos));
    RepSmall(ClSym(cl, Shr(x.v, pos)));
  }

  lemma {:induction false} UsedSmall(cl: seq<nat>, w: nat)
    requires ValidLens(cl)
    ensures ClUsed(cl, w) <= Longest(cl) <= 15
  {
    if Longest(cl) > 0 { assert Longest(cl) in cl; }
    hide Longest;
  }

  /** A symbol of the code, with enough input. */
  lemma {:induction false} NextIs(cl: seq<nat>, v: nat, pos: nat, acc: seq<nat>, total: nat, c: nat)
    requires |cl| == 19 && ValidLens(cl) && ValidLens(acc) && |acc| < total && Decode(cl, Shr(v, pos)) == Some(c) && c < 19
    ensures var r := NextLens(cl, Ample(v, pos), pos, acc, total);
            if c < 16 then r == LensAre(pos + cl[c], acc + [c])
            else
              var j := RepBase(c) + Low(Shr(v, pos + cl[c]), RepBits(c));
              if |acc| + j > total || (c == 16 && acc == []) then r == BadLens(pos + cl[c] + RepBits(c))
              else r == LensAre(pos + cl[c] + RepBits(c), acc + Times(if c == 16 then acc[|acc| - 1] else 0, j))
  {
    hide Decode, Shr, Low, Times, ValidLens, RepBase, RepBits, Longest;
    UsedSmall(cl, Shr(v, pos));
    RepSmall(c);
  }

  /** One symbol, as both decoders take it. */
  lemma {:induction false} ReadLensNext(cl: seq<nat>, v: nat, pos: nat, acc: seq<nat>, total: nat)
    requires |cl| == 19 && ValidLens(cl) && ValidLens(acc) && |acc| < total
    requires var r := ReadLens(cl, v, pos, acc, total); r.LensGood? && |r.lens| == total
    ensures var n := NextLens(cl, Ample(v, pos), pos, acc, total);
            n.LensAre? && ReadLens(cl, v, n.pos, n.lens, total) == ReadLens(cl, v, pos, acc, total)
  {
    hide Decode, Shr, Low, Times, ValidLens, ReadLens, RepBase, RepBits, Longest, NextLens;
    ReadLensUnfold(cl, v, pos, acc, total);
    DecodedIn(cl, Shr(v, pos));
    var c := Decode(cl, Shr(v, pos)).value;
    NextIs(cl, v, pos, acc, total, c);
    if c >= 16 {
      ReadRepeat(cl, v, pos, acc, total, c);
      var j := RepBase(c) + Low(Shr(v, pos + cl[c]), RepBits(c));
      ReadLensLonger(cl, v, pos + cl[c] + RepBits(c), acc + Times(if c == 16 then acc[|acc| - 1] else 0, j), total);
    }
  }

  lemma {:induction false} RepSmall(c: nat)
    requires c < 19
    ensures RepBits(c) <= 7
  {
  }

  /** A list of lengths that the decoder of stb_image.c reads to its exact end is the one read here, if the bits are there. */
  lemma {:induction false} LensSame(cl: seq<nat>, x: Input, pos: nat, acc: seq<nat>, total: nat)
    requires |cl| == 19 && ValidLens(cl) && ValidLens(acc) && |acc| <= total
    requires var r := ReadLens(cl, x.v, pos, acc, total); r.LensGood? && |r.lens| == total
    ensures var r := ReadLens(cl, x.v, pos, acc, total); var n := InfLens(cl, x, pos, acc, total);
            if LensLook(cl, x.v, pos, acc, total) <= 8 * x.size then n == LensAre(r.pos, r.lens)
            else n == NoLens || (|acc| == total && n == LensAre(r.pos, r.lens))
    decreases total - |acc|
  {
    hide Decode, Shr, Low, Times, ValidLens, NextLens, ReadLens, InfLens, SymLook, LensLook;
    if |acc| < total {
      ReadLensNext(cl, x.v, pos, acc, total);
      NextEnough(cl, x, pos, acc, total);
      LensLookUnfold(cl, x.v, pos, acc, total);
      InfLensNext(cl, x, pos, acc, total);
      var n := NextLens(cl, Ample(x.v, pos), pos, acc, total);
      if SymLook(cl, x.v, pos) <= 8 * x.size {
        LensSame(cl, x, n.pos, n.lens, total);
        LookOfNone(cl, x.v, pos, n.pos, n.lens, total);
      }
    } else {
      ReadLensDone(cl, x.v, pos, acc, total);
      InfLensNone(cl, x, pos, acc);
    }
  }

  /** Nothing is looked at beyond the last symbol. */
  lemma {:induction false} LookOfNone(cl: seq<nat>, v: nat, pos: nat, p: nat, lens: seq<nat>, total: nat)
    requires |cl| == 19 && ValidLens(lens) && ValidLens(cl)
    ensures |lens| == total ==> LensLook(cl, v, p, lens, total) == p
  {
    hide NextLens, SymLook;
  }

  lemma {:induction false} InfLensNone(cl: seq<nat>, x: Input, pos: nat, acc: seq<nat>)
    requires |cl| == 19 && ValidLens(acc)
    ensures InfLens(cl, x, pos, acc, |acc|) == LensAre(pos, acc)
  {
  }

  /** A list of code lengths read to its exact end leads to the block of codes. */
  lemma {:induction false} LengthsSame(x: Input, last: bool, cl: seq<nat>, nl: nat, nd: nat, p: nat, hist: seq<byte>)
    requires |cl| == 19 && ValidLens(cl) && ValidLens([]) && 257 <= nl <= 286 && 1 <= nd <= 30
    requires var r := ReadLens(cl, x.v, p, [], nl + nd); r.LensGood? && |r.lens| == nl + nd
    ensures var r := ReadLens(cl, x.v, p, [], nl + nd); var lit, dist := r.lens[..nl], r.lens[nl..]; var f := FromLengths(x, last, cl, nl, nd, p, [], hist);
            ValidLens(lit) && ValidLens(dist)
            && if LensLook(cl, x.v, p, [], nl + nd) > 8 * x.size then f == Starved(hist)
               else if TreesVerdict(lit, dist) != TreesOk then !f.Ended?
               else f == FromCodes(x, last, lit, dist, r.pos, hist)
  {
    hide ReadLens, InfLens, TreesVerdict, FromCodes, ValidLens, LensLook;
    LensSame(cl, x, p, [], nl + nd);
    var lens := ReadLens(cl, x.v, p, [], nl + nd).lens;
    PiecesValid(lens, nl, nd);
    assert lens[nl..nl + nd] == lens[nl..];
  }

  lemma {:induction false} TableUnfold(x: Input, last: bool, pos: nat, hist: seq<byte>)
    ensures var hlit, hdist, hclen := Low(Shr(x.v, pos), 5), Low(Shr(x.v, pos + 5), 5), Low(Shr(x.v, pos + 10), 4);
            hclen <= 15 && ValidLens([])
            && var cl := ReadClLens(x.v, pos + 14, hclen + 4); var p := pos + 14 + 3 * (hclen + 4);
               ValidLens(cl)
               && FromTable(x, last, pos, hist) ==
                  if pos + 14 > 8 * x.size then Starved(hist)
                  else if hlit > 29 || hdist > 29 then Faulty(pos, hist)
                  else if p > 8 * x.size then Starved(hist)
                  else if !Accepted(cl) then Faulty(p, hist)
                  else FromLengths(x, last, cl, 257 + hlit, 1 + hdist, p, [], hist)
  {
    Pow2Values();
    NoneValid();
    hide Low, Shr, ReadClLens, Accepted, FromLengths, Pow2;
  }

  /** Where the bits of the code lengths are. */
  ghost function LensStart(v: nat, pos: nat): nat
  {
    pos + 14 + 3 * (Low(Shr(v, pos + 10), 4) + 4)
  }

  /** A dynamic block header that stb_image.c accepts: the block of codes here, if the bits are there and the codes can be used;
      otherwise no end is reached. */
  lemma {:induction false} TableSame(x: Input, last: bool, pos: nat, hist: seq<byte>)
    requires ReadCodes(x.v, pos).CodesGood?
    ensures var r := ReadCodes(x.v, pos); var hclen := Low(Shr(x.v, pos + 10), 4); var f := FromTable(x, last, pos, hist);
            hclen <= 15 && ValidLens([])
            && var cl := ReadClLens(x.v, pos + 14, hclen + 4);
               ValidLens(r.lit) && ValidLens(r.dist) && ValidLens(cl)
               && if |r.lit| > 286 || |r.dist| > 30 || !Accepted(cl) || TreesVerdict(r.lit, r.dist) != TreesOk then !f.Ended?
                  else if LensLook(cl, x.v, LensStart(x.v, pos), [], |r.lit| + |r.dist|) > 8 * x.size then f == Starved(hist)
                  else f == FromCodes(x, last, r.lit, r.dist, r.pos, hist)
  {
    Pow2Values();
    NoneValid();
    hide Low, Shr, ReadClLens, ReadLens, Accepted, TreesVerdict, FromCodes, FromLengths, FromTable, Kraft, Pow2, LensLook;
    TableUnfold(x, last, pos, hist);
    var hlit, hdist, hclen := Low(Shr(x.v, pos), 5), Low(Shr(x.v, pos + 5), 5), Low(Shr(x.v, pos + 10), 4);
    var cl := ReadClLens(x.v, pos + 14, hclen + 4);
    GoodPieces(ReadLens(cl, x.v, pos + 14 + 3 * (hclen + 4), [], hlit + 257 + (hdist + 1)), hlit + 257);
    if hlit <= 29 && hdist <= 29 {
      LengthsSame(x, last, cl, 257 + hlit, 1 + hdist, pos + 14 + 3 * (hclen + 4), hist);
    }
  }

  lemma {:induction false} GoodPieces(r: LensRes, nl: nat)
    requires r.LensGood? && ValidLens(r.lens) && nl <= |r.lens|
    ensures ValidLens(r.lens[..nl]) && ValidLens(r.lens[nl..])
  {
  }

  // ---------------------------------------------------------------- two decoders

  /** A block of codes that both accept. */
  lemma {:induction false} CodesAgree(x: Input, last: bool, f: nat, lit: seq<nat>, dist: seq<nat>, pos: nat, before: seq<byte>, out: seq<byte>)
    requires |lit| <= 288 && |dist| <= 32 && RunToks(f, lit, dist, x.v, pos, out, None).Good?
    requires FromCodes(x, last, lit, dist, pos, before + out).Ended?
    ensures var r := RunToks(f, lit, dist, x.v, pos, out, None);
            FromCodes(x, last, lit, dist, pos, before + out) == AfterBlock(x, last, r.pos, before + r.out)
  {
    hide RunToks, InfToks, AfterBlock;
    DecodersAgree(f, lit, dist, x.v, x.size, pos, before, out);
  }

  /** The rest of the stream after three header bits. */
  ghost function FromKind(x: Input, last: bool, kind: nat, pos: nat, hist: seq<byte>): Finish
  {
    if kind == 0 then FromLens(x, last, pos + Pad(pos), hist)
    else if kind == 1 then FromCodes(x, last, FixedLengths(), FixedDistances(), pos, hist)
    else if kind == 2 then FromTable(x, last, pos, hist)
    else Faulty(pos, hist)
  }

  lemma {:induction false} TypeIsKind(x: Input, pos: nat, hist: seq<byte>)
    ensures FromType(x, pos, hist) ==
            if pos + 3 > 8 * x.size then Starved(hist)
            else FromKind(x, Low(Shr(x.v, pos), 1) == 1, Low(Shr(x.v, pos + 1), 2), pos + 3, hist)
  {
    hide FromCodes, FromLens, FromTable, Low, Shr, Pad, FixedLengths, FixedDistances;
  }

  lemma {:induction false} AfterIs(x: Input, last: bool, pos: nat, hist: seq<byte>)
    ensures AfterBlock(x, last, pos, hist) == if last then Ended(pos, hist) else FromType(x, pos, hist)
  {
    hide FromType;
  }

  /** One block that both accept. */
  lemma {:induction false} BlockAgree(x: Input, last: bool, f: nat, kind: nat, pos: nat, before: seq<byte>, out: seq<byte>)
    requires RunBlock(f, kind, x.v, x.size, pos, out, None).Good?
    requires FromKind(x, last, kind, pos, before + out).Ended?
    ensures var r := RunBlock(f, kind, x.v, x.size, pos, out, None);
            FromKind(x, last, kind, pos, before + out) == AfterBlock(x, last, r.pos, before + r.out)
  {
    hide RunToks, FromCodes, AfterBlock, FromLens, FromTable, RunStored, ReadCodes, FixedLengths, FixedDistances, Accepted, TreesVerdict, ReadClLens,
         Low, Shr, LensLook;
    FixedOk();
    if kind == 0 {
      StoredSame(x, last, pos, before, out);
    } else if kind == 1 {
      CodesAgree(x, last, f, FixedLengths(), FixedDistances(), pos, before, out);
    } else {
      TableSame(x, last, pos, before + out);
      var r := ReadCodes(x.v, pos);
      CodesAgree(x, last, f, r.lit, r.dist, r.pos, before, out);
    }
  }

  /** Both decoders, on one stream that both accept: the same output, and the same end. */
  lemma {:induction false} StreamsAgree(n: nat, f: nat, x: Input, pos: nat, before: seq<byte>, out: seq<byte>)
    requires RunBlocks(n, f, false, x.v, x.size, pos, out, None).Good? && FromType(x, pos, before + out).Ended?
    ensures var r := RunBlocks(n, f, false, x.v, x.size, pos, out, None);
            FromType(x, pos, before + out) == Ended(r.pos, before + r.out)
    decreases n
  {
    hide RunBlock, FromKind, Low, Shr, FromType, AfterBlock;
    TypeIsKind(x, pos, before + out);
    var last, kind := Low(Shr(x.v, pos), 1) == 1, Low(Shr(x.v, pos + 1), 2);
    BlockAgree(x, last, f, kind, pos + 3, before, out);
    var r := RunBlock(f, kind, x.v, x.size, pos + 3, out, None);
    AfterIs(x, last, r.pos, before + r.out);
    if !last {
      StreamsAgree(n - 1, f, x, r.pos, before, r.out);
    }
  }

  // ---------------------------------------------------------------- round trip

  /** What this decoder asks of a dynamic block beyond what RFC 1951 does: complete codes, no unused symbols. */
  ghost predicate Strict(b: Block)
  {
    b.Dynamic? ==> HeaderOk(b.h) && |b.h.lit| <= 286 && |b.h.dist| <= 30 && Accepted(b.h.cl) && BothAccepted(b.h.lit, b.h.dist)
  }

  /** The last bit looked at in the header of a dynamic block. */
  ghost function HeaderLook(v: nat, pos: nat, h: Header): nat
    requires HeaderOk(h)
  {
    NoneValid();
    LensLook(h.cl, v, pos + 14 + 3 * h.hclen, [], |h.lit| + |h.dist|)
  }

  lemma {:induction false} HeaderBackHere(x: Input, last: bool, pos: nat, hist: seq<byte>, h: Header)
    requires HeaderOk(h) && |h.lit| <= 286 && |h.dist| <= 30 && Accepted(h.cl) && BothAccepted(h.lit, h.dist)
    requires Begins(Shr(x.v, pos), HeaderBits(h))
    ensures FromTable(x, last, pos, hist) ==
            if HeaderLook(x.v, pos, h) > 8 * x.size then Starved(hist)
            else FromCodes(x, last, h.lit, h.dist, pos + |HeaderBits(h)|, hist)
  {
    hide Low, Shr, Begins, HeaderBits, Accepted, BothAccepted, FromTable, FromCodes, ReadCodes, ReadClLens, OpsOk, Kraft, LensLook, TreesVerdict;
    HeaderBack(x.v, pos, h);
    TableSame(x, last, pos, hist);
    ClCount(x.v, pos, h);
    VerdictOk(h.lit, h.dist);
  }

  lemma {:induction false} ClCount(v: nat, pos: nat, h: Header)
    requires HeaderOk(h) && Begins(Shr(v, pos), HeaderBits(h))
    ensures Low(Shr(v, pos + 10), 4) == h.hclen - 4 && ReadClLens(v, pos + 14, h.hclen) == h.cl
  {
    hide Begins, Shr, Low, LsbBits, ClBits, OpsBits, Kraft, Pow2, ReadClLens, OpsOk, ValidLens, Zag;
    var b0, b1, b2, b3, b4 := LsbBits(|h.lit| - 257, 5), LsbBits(|h.dist| - 1, 5), LsbBits(h.hclen - 4, 4),
                              ClBits(h.cl, h.hclen), OpsBits(h.cl, [], h.ops, h.lit + h.dist);
    Pow2Values();
    BeginsAppend(Shr(v, pos), b0, b1 + (b2 + (b3 + b4)));
    ShrShr(v, pos, 5);
    BeginsAppend(Shr(v, pos + 5), b1, b2 + (b3 + b4));
    ShrShr(v, pos + 5, 5);
    BeginsAppend(Shr(v, pos + 10), b2, b3 + b4);
    ShrShr(v, pos + 10, 4);
    BeginsAppend(Shr(v, pos + 14), b3, b4);
    BeginsLsb(Shr(v, pos + 10), h.hclen - 4, 4);
    ClAllBack(v, pos + 14, h.cl, h.hclen);
  }

  /** Encoded tokens in a block of codes. */
  lemma {:induction false} CodesBackHere(x: Input, last: bool, lit: seq<nat>, dist: seq<nat>, toks: seq<Tok>, pos: nat, before: seq<byte>, out: seq<byte>)
    requires 257 <= |lit| <= 288 && |dist| <= 32 && ValidLens(lit) && ValidLens(dist) && Kraft(lit) <= SPACE && Kraft(dist) <= SPACE
    requires lit[256] > 0 && ToksOk(lit, dist, |out|, toks)
    requires Begins(Shr(x.v, pos), ToksBits(lit, dist, |out|, toks))
    ensures var f := FromCodes(x, last, lit, dist, pos, before + out);
            if Furthest(lit, dist, |out|, toks, x.v, pos) <= 8 * x.size
            then f == AfterBlock(x, last, pos + |ToksBits(lit, dist, |out|, toks)|, before + Expand(lit, dist, out, toks))
            else f.Starved? && f.hist <= before + Expand(lit, dist, out, toks)
  {
    hide Begins, Shr, Kraft, ToksOk, ToksBits, Expand, ValidLens, AfterBlock, InfToks, Furthest;
    InfToksBack(lit, dist, toks, x.v, x.size, pos, before, out);
  }

  /** The last bit looked at in the body of a block. */
  ghost function BodyLook(v: nat, pos: nat, n: nat, b: Block): nat
    requires BlockOk(n, b)
  {
    FixedOk();
    match b
    case Stored(bytes) => pos + |StoredBits(pos, bytes)|
    case Fixed(toks) => Furthest(FixedLengths(), FixedDistances(), n, toks, v, pos)
    case Dynamic(h, toks) => Max(HeaderLook(v, pos, h), Furthest(h.lit, h.dist, n, toks, v, pos + |HeaderBits(h)|))
  }

  lemma {:induction false} StoredStops(x: Input, last: bool, pos: nat, hist: seq<byte>, bytes: seq<byte>)
    requires |bytes| < 0x10000 && Begins(Shr(x.v, pos), StoredBits(pos, bytes)) && pos + |StoredBits(pos, bytes)| > 8 * x.size
    ensures var f := FromLens(x, last, pos + Pad(pos), hist); f.Starved? && f.hist <= hist + bytes
  {
    hide Begins, Shr, Low, LsbBits, BytesBits, StreamBytes, Pow2, FromLens, FromStored;
    var p := pos + Pad(pos);
    StoredRead(x.v, pos, bytes);
    if p + 32 <= 8 * x.size {
      LensUnfold(x, last, p, hist);
      StoredIs(x, last, |bytes|, p + 32, hist);
      StreamBytesPart(x.v, p + 32, BitsLeft(x, p + 32) / 8, bytes);
    } else {
      LensShort(x, last, p, hist);
    }
  }

  lemma {:induction false} LensShort(x: Input, last: bool, pos: nat, hist: seq<byte>)
    requires pos + 32 > 8 * x.size
    ensures FromLens(x, last, pos, hist) == Starved(hist)
  {
    hide Low, Shr, FromStored;
  }

  lemma {:induction false} StreamBytesPart(v: nat, q: nat, n: nat, bytes: seq<byte>)
    requires n <= |bytes| && StreamBytes(v, q, |bytes|) == bytes
    ensures StreamBytes(v, q, n) <= bytes
  {
    StreamBytesSplit(v, q, n, |bytes| - n);
    hide StreamBytes;
  }

  /** What a stored block holds, without regard to the size of the input. */
  lemma {:induction false} StoredRead(v: nat, pos: nat, bytes: seq<byte>)
    requires |bytes| < 0x10000 && Begins(Shr(v, pos), StoredBits(pos, bytes))
    ensures var p := pos + Pad(pos);
            Low(Shr(v, p), 16) == |bytes| && Low(Shr(v, p + 16), 16) == 0xffff - |bytes|
            && StreamBytes(v, p + 32, |bytes|) == bytes && |StoredBits(pos, bytes)| == Pad(pos) + 32 + 8 * |bytes|
  {
    hide Begins, Shr, Low, LsbBits, BytesBits, StreamBytes, Pow2;
    var p := pos + Pad(pos);
    var b0, b1, b2, b3 := LsbBits(0, Pad(pos)), LsbBits(|bytes|, 16), LsbBits(0xffff - |bytes|, 16), BytesBits(bytes);
    Pow2Values();
    BeginsAppend(Shr(v, pos), b0, b1 + (b2 + b3));
    ShrShr(v, pos, Pad(pos));
    BeginsAppend(Shr(v, p), b1, b2 + b3);
    ShrShr(v, p, 16);
    BeginsAppend(Shr(v, p + 16), b2, b3);
    ShrShr(v, p + 16, 16);
    BeginsLsb(Shr(v, p), |bytes|, 16);
    BeginsLsb(Shr(v, p + 16), 0xffff - |bytes|, 16);
    BytesBack(v, p + 32, bytes);
  }

  lemma {:induction false} BodyBackHere(x: Input, last: bool, pos: nat, before: seq<byte>, out: seq<byte>, b: Block)
    requires BlockOk(|out|, b) && Strict(b) && Begins(Shr(x.v, pos), BodyBits(pos, |out|, b))
    ensures var f := FromKind(x, last, Kind(b), pos, before + out);
            if BodyLook(x.v, pos, |out|, b) <= 8 * x.size
            then f == AfterBlock(x, last, pos + |BodyBits(pos, |out|, b)|, before + ExpandBlock(out, b))
            else f.Starved? && f.hist <= before + ExpandBlock(out, b)
  {
    hide Begins, Shr, Low, LsbBits, HeaderBits, ToksBits, Kraft, Pow2, StoredBits, RunStored, FromLens, FromTable, FromCodes, AfterBlock,
         FixedLengths, FixedDistances, ToksOk, Expand, Accepted, BothAccepted, OpsOk, Furthest, HeaderLook;
    FixedOk();
    match b
    case Stored(bytes) =>
      if pos + |StoredBits(pos, bytes)| <= 8 * x.size {
        StoredBack(x.v, x.size, pos, out, bytes);
        StoredSame(x, last, pos, before, out);
      } else {
        StoredStops(x, last, pos, before + out, bytes);
        assert before + out + bytes == before + (out + bytes);
      }
    case Fixed(toks) =>
      FixedKraft();
      CodesBackHere(x, last, FixedLengths(), FixedDistances(), toks, pos, before, out);
    case Dynamic(h, toks) =>
      BeginsAppend(Shr(x.v, pos), HeaderBits(h), ToksBits(h.lit, h.dist, |out|, toks));
      HeaderBackHere(x, last, pos, before + out, h);
      ShrShr(x.v, pos, |HeaderBits(h)|);
      CodesBackHere(x, last, h.lit, h.dist, toks, pos + |HeaderBits(h)|, before, out);
      ExpandGrows(h.lit, h.dist, out, toks);
      PrefixOn(before, out, Expand(h.lit, h.dist, out, toks));
  }

  lemma {:induction false} PrefixOn(a: seq<byte>, b: seq<byte>, c: seq<byte>)
    requires b <= c
    ensures a + b <= a + c
  {
  }

  /** The last bit looked at when the stream of the blocks is decoded. */
  ghost function StreamLook(v: nat, pos: nat, out: seq<byte>, bs: seq<Block>): nat
    requires BlocksOk(out, bs)
    decreases |bs|
  {
    hide ExpandBlock, BlockOk, BodyLook, BodyBits;
    if bs == [] then 0
    else
      Max(Max(pos + 3, BodyLook(v, pos + 3, |out|, bs[0])),
          StreamLook(v, pos + 3 + |BodyBits(pos + 3, |out|, bs[0])|, ExpandBlock(out, bs[0]), bs[1..]))
  }

  lemma {:induction false} LookUnfold(v: nat, pos: nat, out: seq<byte>, bs: seq<Block>)
    requires BlocksOk(out, bs) && bs != []
    ensures var p := pos + 3 + |BodyBits(pos + 3, |out|, bs[0])|;
            StreamLook(v, pos, out, bs) ==
            Max(Max(pos + 3, BodyLook(v, pos + 3, |out|, bs[0])), if |bs| == 1 then 0 else StreamLook(v, p, ExpandBlock(out, bs[0]), bs[1..]))
  {
    hide ExpandBlock, BlockOk, BodyLook, BodyBits;
  }

  lemma {:induction false} BlocksGrow(out: seq<byte>, bs: seq<Block>)
    requires BlocksOk(out, bs)
    ensures out <= ExpandBlocks(out, bs)
    decreases |bs|
  {
    hide BlockOk, ExpandBlock;
    if bs != [] {
      BlockGrows(out, bs[0]);
      BlocksGrow(ExpandBlock(out, bs[0]), bs[1..]);
    }
  }

  lemma {:induction false} BlockGrows(out: seq<byte>, b: Block)
    requires BlockOk(|out|, b)
    ensures out <= ExpandBlock(out, b)
  {
    hide ToksOk, Expand, FixedLengths, FixedDistances, HeaderOk;
    match b
    case Stored(_) =>
    case Fixed(toks) => ExpandGrows(FixedLengths(), FixedDistances(), out, toks);
    case Dynamic(h, toks) => ExpandGrows(h.lit, h.dist, out, toks);
  }

  /** Encoded blocks lead to their expansion exactly when all bits that are looked at are there; otherwise to a part of it. */
  lemma {:induction false} StreamBackHere(x: Input, pos: nat, before: seq<byte>, out: seq<byte>, bs: seq<Block>)
    requires bs != [] && BlocksOk(out, bs) && Begins(Shr(x.v, pos), StreamBits(pos, out, bs)) && (forall b :: b in bs ==> Strict(b))
    ensures var f := FromType(x, pos, before + out);
            if StreamLook(x.v, pos, out, bs) <= 8 * x.size
            then f == Ended(pos + |StreamBits(pos, out, bs)|, before + ExpandBlocks(out, bs))
            else f.Starved? && f.hist <= before + ExpandBlocks(out, bs)
    decreases |bs|
  {
    hide Begins, Shr, Low, LsbBits, Pow2, FromKind, BodyBits, BlockOk, ExpandBlock, FromType, AfterBlock, Strict, BodyLook, StreamLook;
    var b := bs[0];
    var last := if |bs| == 1 then 1 else 0;
    var b0, b1, b2 := LsbBits(last, 1), LsbBits(Kind(b), 2), BodyBits(pos + 3, |out|, b);
    var head := b0 + (b1 + b2);
    var tail := StreamBits(pos + |head|, ExpandBlock(out, b), bs[1..]);
    BeginsAppend(Shr(x.v, pos), head, tail);
    BeginsAppend(Shr(x.v, pos), b0, b1 + b2);
    ShrShr(x.v, pos, 1);
    BeginsAppend(Shr(x.v, pos + 1), b1, b2);
    ShrShr(x.v, pos + 1, 2);
    Pow2Values();
    BeginsLsb(Shr(x.v, pos), last, 1);
    BeginsLsb(Shr(x.v, pos + 1), Kind(b), 2);
    assert b in bs;
    TypeIsKind(x, pos, before + out);
    BodyBackHere(x, last == 1, pos + 3, before, out, b);
    AfterIs(x, last == 1, pos + |head|, before + ExpandBlock(out, b));
    LookUnfold(x.v, pos, out, bs);
    BlocksGrow(out, bs);
    BlocksGrow(ExpandBlock(out, b), bs[1..]);
    BlockGrows(out, b);
    PrefixOn(before, ExpandBlock(out, b), ExpandBlocks(out, bs));
    PrefixOn(before, out, ExpandBlocks(out, bs));
    if |bs| > 1 {
      ShrShr(x.v, pos, |head|);
      StreamBackHere(x, pos + |head|, before, ExpandBlock(out, b), bs[1..]);
    } else {
      EndOfStream(pos + |head|, ExpandBlock(out, b), bs[1..]);
    }
  }
}
