/** The compressed format of RFC 1951, as an encoder and as a decoder of one number-valued stream. */
module Deflate {
  import opened Bits
  import opened BitStream
  import opened Canonical

  // ---------------------------------------------------------------- section 3.2.5: tables

  const LENGTH_BASE: seq<nat> :=
    [3, 4, 5, 6, 7, 8, 9, 10, 11, 13, 15, 17, 19, 23, 27, 31, 35, 43, 51, 59, 67, 83, 99, 115, 131, 163, 195, 227, 258, 0, 0]
  const LENGTH_EXTRA: seq<nat> :=
    [0, 0, 0, 0, 0, 0, 0, 0, 1, 1, 1, 1, 2, 2, 2, 2, 3, 3, 3, 3, 4, 4, 4, 4, 5, 5, 5, 5, 0, 0, 0]
  const DIST_BASE: seq<nat> :=
    [1, 2, 3, 4, 5, 7, 9, 13, 17, 25, 33, 49, 65, 97, 129, 193, 257, 385, 513, 769, 1025, 1537, 2049, 3073, 4097, 6145,
     8193, 12289, 16385, 24577, 0, 0]
  const DIST_EXTRA: seq<nat> :=
    [0, 0, 0, 0, 1, 1, 2, 2, 3, 3, 4, 4, 5, 5, 6, 6, 7, 7, 8, 8, 9, 9, 10, 10, 11, 11, 12, 12, 13, 13, 0, 0]

  function LBase(i: nat): nat requires i < 31 { LENGTH_BASE[i] }
  function LExtra(i: nat): nat requires i < 31 { LENGTH_EXTRA[i] }
  function DBase(i: nat): nat requires i < 32 { DIST_BASE[i] }
  function DExtra(i: nat): nat requires i < 32 { DIST_EXTRA[i] }

  /** The order in which the lengths of the code length code are sent. */
  const DEZIGZAG: seq<nat> := [16, 17, 18, 0, 8, 7, 9, 6, 10, 5, 11, 4, 12, 3, 13, 2, 14, 1, 15]

  /** Section 3.2.6: the lengths of the fixed codes. */
  function FixedLengths(): seq<nat>
  {
    seq(288, i => if i <= 143 then 8 else if i <= 255 then 9 else if i <= 279 then 7 else 8)
  }

  function FixedDistances(): seq<nat>
  {
    seq(32, _ => 5)
  }

  // ---------------------------------------------------------------- tokens and their meaning

  /** A literal, or a back reference by length symbol and extra bits, distance symbol and extra bits. */
  datatype Tok = Lit(b: byte) | Copy(li: nat, lx: nat, di: nat, dx: nat)

  ghost predicate TokOk(lit: seq<nat>, dist: seq<nat>, t: Tok)
  {
    match t
    case Lit(b) => b < |lit| && lit[b] > 0
    case Copy(li, lx, di, dx) =>
      li < 29 && lx < Pow2(LExtra(li)) && 257 + li < |lit| && lit[257 + li] > 0
      && di < 30 && dx < Pow2(DExtra(di)) && di < |dist| && dist[di] > 0
  }

  function Length(t: Tok): nat
    requires t.Copy? && t.li < 29
  {
    LBase(t.li) + t.lx
  }

  function Distance(t: Tok): nat
    requires t.Copy? && t.di < 30
  {
    DBase(t.di) + t.dx
  }

  /** len bytes appended one at a time, each the one d places back. */
  function CopyBack(out: seq<byte>, len: nat, d: nat): (r: seq<byte>)
    requires len > 0 ==> 1 <= d <= |out|
    ensures |r| == |out| + len && r[..|out|] == out
    decreases len
  {
    if len == 0 then out
    else
      var next := out + [out[|out| - d]];
      assert next[..|out|] == out;
      CopyBack(next, len - 1, d)
  }

  /** The tokens are encodable, and no distance reaches before the start of the output. */
  ghost predicate ToksOk(lit: seq<nat>, dist: seq<nat>, n: nat, toks: seq<Tok>)
    decreases |toks|
  {
    toks == [] ||
    (TokOk(lit, dist, toks[0])
     && (toks[0].Copy? ==> Distance(toks[0]) <= n)
     && ToksOk(lit, dist, n + (if toks[0].Lit? then 1 else Length(toks[0])), toks[1..]))
  }

  lemma {:induction false} DistancePositive(t: Tok)
    requires t.Copy? && t.di < 30
    ensures Distance(t) >= 1
  {
  }

  ghost function Expand(lit: seq<nat>, dist: seq<nat>, out: seq<byte>, toks: seq<Tok>): (r: seq<byte>)
    requires ToksOk(lit, dist, |out|, toks)
    decreases |toks|
  {
    hide LBase, LExtra, DBase, DExtra, LENGTH_BASE, LENGTH_EXTRA, DIST_BASE, DIST_EXTRA;
    if toks == [] then out
    else if toks[0].Lit? then Expand(lit, dist, out + [toks[0].b], toks[1..])
    else
      DistancePositive(toks[0]);
      Expand(lit, dist, CopyBack(out, Length(toks[0]), Distance(toks[0])), toks[1..])
  }

  // ---------------------------------------------------------------- encoding

  function CodeBits(lens: seq<nat>, i: nat): (bs: seq<bool>)
    requires i < |lens|
    ensures |bs| == lens[i]
  {
    MsbBits(Code(lens, i), lens[i])
  }

  ghost function TokBits(lit: seq<nat>, dist: seq<nat>, t: Tok): seq<bool>
    requires TokOk(lit, dist, t)
  {
    match t
    case Lit(b) => CodeBits(lit, b)
    case Copy(li, lx, di, dx) =>
      CodeBits(lit, 257 + li) + (LsbBits(lx, LExtra(li)) + (CodeBits(dist, di) + LsbBits(dx, DExtra(di))))
  }

  /** The tokens of a block, then end of block. */
  ghost function ToksBits(lit: seq<nat>, dist: seq<nat>, n: nat, toks: seq<Tok>): seq<bool>
    requires ToksOk(lit, dist, n, toks) && |lit| > 256
    decreases |toks|
  {
    if toks == [] then CodeBits(lit, 256)
    else
      TokBits(lit, dist, toks[0])
      + ToksBits(lit, dist, n + (if toks[0].Lit? then 1 else Length(toks[0])), toks[1..])
  }

  // ---------------------------------------------------------------- decoding one block of codes

  datatype Step = Emit(used: nat, b: byte) | Repeat(used: nat, len: nat, d: nat) | Stop(used: nat) | NoCode

  /** What follows length symbol 257 + i: extra bits, a distance code and its extra bits. */
  ghost function ReadMatch(dist: seq<nat>, i: nat, v: nat): Step
    requires |dist| <= 32 && i < 31
  {
    match Decode(dist, Shr(v, LExtra(i)))
    case None => NoCode
    case Some(k) =>
      Repeat(LExtra(i) + dist[k] + DExtra(k), LBase(i) + Low(v, LExtra(i)),
             DBase(k) + Low(Shr(v, LExtra(i) + dist[k]), DExtra(k)))
  }

  /** What the stream v begins with, under the canonical codes of two lists of lengths. */
  ghost function ReadTok(lit: seq<nat>, dist: seq<nat>, v: nat): Step
    requires |lit| <= 288 && |dist| <= 32
  {
    match Decode(lit, v)
    case None => NoCode
    case Some(z) =>
      if z < 256 then Emit(lit[z], z)
      else if z == 256 then Stop(lit[z])
      else match ReadMatch(dist, z - 257, Shr(v, lit[z]))
        case Repeat(u, len, d) => Repeat(lit[z] + u, len, d)
        case _ => NoCode
  }

  /** Where decoding ends: a position in the stream and the output; or an error; or behaviour the source
      does not define; or more tokens or blocks than the bound. */
  datatype Res = Good(pos: nat, out: seq<byte>) | Corrupt | Undefined | OutOfFuel

  /** n bytes do not fit an output buffer that cannot grow past cap. */
  predicate Full(cap: Option<nat>, n: nat)
  {
    cap.Some? && n > cap.value
  }

  ghost function RunToks(fuel: nat, lit: seq<nat>, dist: seq<nat>, v: nat, pos: nat, out: seq<byte>, cap: Option<nat>): Res
    requires |lit| <= 288 && |dist| <= 32
    decreases fuel
  {
    if fuel == 0 then OutOfFuel
    else match ReadTok(lit, dist, Shr(v, pos))
      case NoCode => Corrupt
      case Stop(u) => Good(pos + u, out)
      case Emit(u, b) =>
        if Full(cap, |out| + 1) then Corrupt else RunToks(fuel - 1, lit, dist, v, pos + u, out + [b], cap)
      case Repeat(u, len, d) =>
        if d > |out| || Full(cap, |out| + len) then Corrupt
        else if d == 0 && len > 0 then Undefined
        else RunToks(fuel - 1, lit, dist, v, pos + u, CopyBack(out, len, d), cap)
  }

  // ---------------------------------------------------------------- tokens round trip

  lemma {:induction false} CodeFits(lens: seq<nat>, i: nat)
    requires ValidLens(lens) && i < |lens| && lens[i] > 0 && Kraft(lens) <= SPACE
    ensures Code(lens, i) < Pow2(lens[i])
  {
    hide Kraft, Code, Shl, End, Pow2;
    EndIsKraft(lens);
    EndMono(lens, lens[i], 15);
    StartAt(lens, i);
    var n := lens[i];
    if Code(lens, i) >= Pow2(n) {
      PowShl(n);
      if Code(lens, i) > Pow2(n) { ShlMono(Pow2(n), Code(lens, i), 16 - n); }
      StartIs(lens, i);
      assert false;
    }
  }

  lemma {:induction false} StartIs(lens: seq<nat>, i: nat)
    requires i < |lens| && lens[i] <= 16
    ensures Start(lens, i) == Shl(Code(lens, i), 16 - lens[i])
  {
  }

  lemma {:induction false} PowShl(n: nat)
    requires n <= 16
    ensures Shl(Pow2(n), 16 - n) == SPACE
  {
    hide Shl, Pow2;
    ShlMul(Pow2(n), 16 - n);
    Pow2Add(n, 16 - n);
    Pow2Values();
  }

  /** A stream that begins with the code bits of a symbol decodes to it. */
  lemma {:induction false} ReadsBack(lens: seq<nat>, i: nat, v: nat)
    requires ValidLens(lens) && i < |lens| && lens[i] > 0 && Kraft(lens) <= SPACE && Begins(v, CodeBits(lens, i))
    ensures Decode(lens, v) == Some(i)
  {
    CodeFits(lens, i);
    BeginsMsb(v, Code(lens, i), lens[i]);
    DecodeIs(lens, i, v);
  }

  lemma {:induction false} TokBack(lit: seq<nat>, dist: seq<nat>, t: Tok, v: nat)
    requires |lit| <= 288 && |dist| <= 32 && ValidLens(lit) && ValidLens(dist) && Kraft(lit) <= SPACE && Kraft(dist) <= SPACE
    requires TokOk(lit, dist, t) && Begins(v, TokBits(lit, dist, t))
    ensures ReadTok(lit, dist, v) ==
            if t.Lit? then Emit(|TokBits(lit, dist, t)|, t.b)
            else Repeat(|TokBits(lit, dist, t)|, Length(t), Distance(t))
  {
    hide Begins, CodeBits, Kraft, Decode, Shr, Low, LsbBits, Pow2, LBase, LExtra, DBase, DExtra, TokBits, ValidLens;
    if t.Lit? {
      TokBitsLit(lit, dist, t);
      ReadsBack(lit, t.b, v);
    } else {
      CopyBits(lit, dist, t, v);
      ReadCopy(lit, dist, t, v);
    }
  }

  lemma {:induction false} TokBitsLit(lit: seq<nat>, dist: seq<nat>, t: Tok)
    requires TokOk(lit, dist, t) && t.Lit?
    ensures TokBits(lit, dist, t) == CodeBits(lit, t.b)
  {
  }

  lemma {:induction false} CopyRange(lit: seq<nat>, dist: seq<nat>, t: Tok)
    requires TokOk(lit, dist, t) && t.Copy?
    ensures t.li < 29 && t.di < 30 && Distance(t) >= 1
    ensures t.lx < Pow2(LExtra(t.li)) && t.dx < Pow2(DExtra(t.di))
    ensures 257 + t.li < |lit| && lit[257 + t.li] > 0 && t.di < |dist| && dist[t.di] > 0
    ensures TokBits(lit, dist, t) ==
            CodeBits(lit, 257 + t.li)
            + (LsbBits(t.lx, LExtra(t.li)) + (CodeBits(dist, t.di) + LsbBits(t.dx, DExtra(t.di))))
  {
  }

  /** The four parts of an encoded back reference, read one after another. */
  lemma {:induction false} CopyBits(lit: seq<nat>, dist: seq<nat>, t: Tok, v: nat)
    requires |lit| <= 288 && |dist| <= 32 && ValidLens(lit) && ValidLens(dist) && Kraft(lit) <= SPACE && Kraft(dist) <= SPACE
    requires TokOk(lit, dist, t) && t.Copy? && Begins(v, TokBits(lit, dist, t))
    ensures t.li < 29 && t.di < 30 && 257 + t.li < |lit| && t.di < |dist|
    ensures Decode(lit, v) == Some(257 + t.li)
    ensures var u := lit[257 + t.li]; Low(Shr(v, u), LExtra(t.li)) == t.lx
    ensures var u := lit[257 + t.li] + LExtra(t.li); Decode(dist, Shr(v, u)) == Some(t.di)
    ensures var u := lit[257 + t.li] + LExtra(t.li) + dist[t.di]; Low(Shr(v, u), DExtra(t.di)) == t.dx
    ensures |TokBits(lit, dist, t)| == lit[257 + t.li] + LExtra(t.li) + dist[t.di] + DExtra(t.di)
  {
    hide Begins, CodeBits, Kraft, Decode, Shr, Low, LsbBits, Pow2, LBase, LExtra, DBase, DExtra, TokBits, TokOk, ValidLens;
    CopyRange(lit, dist, t);
    var c1, x1, c2, x2 := CodeBits(lit, 257 + t.li), LsbBits(t.lx, LExtra(t.li)), CodeBits(dist, t.di), LsbBits(t.dx, DExtra(t.di));
    BeginsAppend(v, c1, x1 + (c2 + x2));
    ReadsBack(lit, 257 + t.li, v);
    var v1 := Shr(v, |c1|);
    BeginsAppend(v1, x1, c2 + x2);
    BeginsLsb(v1, t.lx, LExtra(t.li));
    ShrShr(v, |c1|, |x1|);
    var v2 := Shr(v1, |x1|);
    BeginsAppend(v2, c2, x2);
    ReadsBack(dist, t.di, v2);
    BeginsLsb(Shr(v2, |c2|), t.dx, DExtra(t.di));
    ShrShr(v, |c1| + |x1|, |c2|);
  }

  lemma {:induction false} ReadCopy(lit: seq<nat>, dist: seq<nat>, t: Tok, v: nat)
    requires |lit| <= 288 && |dist| <= 32 && t.Copy? && t.li < 29 && t.di < 30 && 257 + t.li < |lit| && t.di < |dist|
    requires Decode(lit, v) == Some(257 + t.li)
    requires var u := lit[257 + t.li]; Low(Shr(v, u), LExtra(t.li)) == t.lx
    requires var u := lit[257 + t.li] + LExtra(t.li); Decode(dist, Shr(v, u)) == Some(t.di)
    requires var u := lit[257 + t.li] + LExtra(t.li) + dist[t.di]; Low(Shr(v, u), DExtra(t.di)) == t.dx
    ensures ReadTok(lit, dist, v) ==
            Repeat(lit[257 + t.li] + LExtra(t.li) + dist[t.di] + DExtra(t.di), Length(t), Distance(t))
  {
    hide Decode, Shr, Low, LBase, LExtra, DBase, DExtra;
    ShrShr(v, lit[257 + t.li], LExtra(t.li));
    ShrShr(v, lit[257 + t.li], LExtra(t.li) + dist[t.di]);
  }

  /** Decoding the encoding of tokens gives their expansion, and stops right after them. */
  lemma {:induction false} ToksBack(fuel: nat, lit: seq<nat>, dist: seq<nat>, toks: seq<Tok>, v: nat, pos: nat, out: seq<byte>)
    requires 257 <= |lit| <= 288 && |dist| <= 32 && ValidLens(lit) && ValidLens(dist) && Kraft(lit) <= SPACE && Kraft(dist) <= SPACE
    requires lit[256] > 0 && ToksOk(lit, dist, |out|, toks) && fuel > |toks|
    requires Begins(Shr(v, pos), ToksBits(lit, dist, |out|, toks))
    ensures RunToks(fuel, lit, dist, v, pos, out, None) ==
            Good(pos + |ToksBits(lit, dist, |out|, toks)|, Expand(lit, dist, out, toks))
    decreases |toks|
  {
    hide Begins, CodeBits, Kraft, Decode, Shr, TokBits, ReadTok, CopyBack, TokOk, LBase, LExtra, DBase, DExtra,
         ValidLens, Length, Distance;
    if toks == [] {
      StopBack(lit, dist, Shr(v, pos));
    } else {
      var t := toks[0];
      if t.Copy? { CopyRange(lit, dist, t); }
      var n := if t.Lit? then 1 else Length(t);
      var head := TokBits(lit, dist, t);
      var tail := ToksBits(lit, dist, |out| + n, toks[1..]);
      BeginsAppend(Shr(v, pos), head, tail);
      TokBack(lit, dist, t, Shr(v, pos));
      ShrShr(v, pos, |head|);
      var out' := if t.Lit? then out + [t.b] else CopyBack(out, Length(t), Distance(t));
      ToksBack(fuel - 1, lit, dist, toks[1..], v, pos + |head|, out');
    }
  }

  lemma {:induction false} StopBack(lit: seq<nat>, dist: seq<nat>, v: nat)
    requires 257 <= |lit| <= 288 && |dist| <= 32 && ValidLens(lit) && Kraft(lit) <= SPACE && lit[256] > 0
    requires Begins(v, CodeBits(lit, 256))
    ensures ReadTok(lit, dist, v) == Stop(|CodeBits(lit, 256)|)
  {
    ReadsBack(lit, 256, v);
  }
}
