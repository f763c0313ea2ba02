/** How far past the end of the data the lookups of XUnzip look: at most eight bits, and sometimes too far. */
module SpareByte {
  import opened Bits
  import opened BitStream
  import opened Canonical
  import opened HuftSpec
  import opened HuftBuild
  import opened HuftSpace
  import opened Deflate
  import opened DeflateStream
  import opened InflateTokens
  import opened InflateTrees
  import opened InflateBlocksSpec
  import opened InflateRoundTrip
  import opened FixedTables

  // ---------------------------------------------------------------- eight bits are enough

  /** The tables for the code have a first index of at most nine bits, and tables below hold codes. */
  ghost predicate Close(lens: seq<nat>, m: nat)
  {
    ValidLens(lens) && Kraft(lens) <= SPACE
    && var cfg := CfgOf(lens, |lens|, [], [], m); CfgOk(cfg) && cfg.l <= 9 && Compact(lens, cfg.g, cfg.l, 0)
  }

  lemma {:induction false} AcceptedClose(lens: seq<nat>, m: nat)
    requires ValidLens(lens) && Accepted(lens) && ((m == 9 && |lens| <= 288) || (m == 6 && |lens| <= 30))
    ensures Close(lens, m)
  {
    hide Kraft, Compact, Longest, RootBits;
    AcceptedCfg(lens, |lens|, [], [], m);
    AcceptedCompact(lens, m);
  }

  lemma {:induction false} FixedClose()
    ensures Close(FixedLengths(), 9) && Close(FixedDistances(), 6)
  {
    var f, d := FixedLengths(), FixedDistances();
    hide FixedLengths, FixedDistances, Kraft, Longest, RootBits, End, Count;
    FixedSizes();
    FixedValid();
    FixedKraft();
    FixedSome();
    CfgIsOk(f, 288, [], [], 9);
    CfgIsOk(d, 32, [], [], 6);
  }

  /** A lookup asks for at most eight bits past the code. */
  lemma {:induction false} LookClose(lens: seq<nat>, m: nat, b: nat, i: nat)
    requires Close(lens, m) && Decode(lens, b) == Some(i)
    ensures i < |lens| && Look(lens, m, b) <= lens[i] + 8
  {
    hide Kraft, Compact, Longest, RootBits, ReachOf, CodeLen, Rev;
    var cfg := CfgOf(lens, |lens|, [], [], m);
    var q := Rev(b, 16);
    PositionBound(b);
    DecodeIsSymAt(lens, b);
    SymLen(cfg, i, q);
    CodeLenFacts(cfg, q, 1);
    ReachClose(cfg, q, 0);
  }

  lemma {:induction false} SymLen(cfg: Cfg, i: nat, q: nat)
    requires CfgOk(cfg) && SymAt(cfg.lens, q) == Some(i) && q < SPACE
    ensures i < |cfg.lens| && CodeLen(cfg, q, 1) <= cfg.lens[i]
  {
    CoverBelowEnd(cfg.lens, i, q);
    if cfg.lens[i] < cfg.g { assert EndX(cfg, cfg.lens[i]) == End(cfg.lens, cfg.lens[i]); }
    hide End;
    CodeLenAtMost(cfg, q, cfg.lens[i], 1);
  }

  lemma {:induction false} TokClose(lit: seq<nat>, dist: seq<nat>, t: Tok, v: nat)
    requires 257 <= |lit| <= 288 && |dist| <= 32 && Close(lit, 9) && (t.Copy? ==> Close(dist, 6))
    requires ValidLens(dist) && Kraft(dist) <= SPACE && TokOk(lit, dist, t) && Begins(v, TokBits(lit, dist, t))
    ensures Wanted(lit, dist, v) <= |TokBits(lit, dist, t)| + 8
  {
    hide Begins, CodeBits, Kraft, Decode, Shr, Low, LsbBits, Pow2, LBase, LExtra, DBase, DExtra, ValidLens, Look, Close;
    CloseIs(lit, 9);
    match t
    case Lit(b) =>
      ReadsBack(lit, b, v);
      LookClose(lit, 9, v, b);
    case Copy(li, lx, di, dx) =>
      CopyBits(lit, dist, t, v);
      LookClose(lit, 9, v, 257 + li);
      LookClose(dist, 6, Shr(v, lit[257 + li] + LExtra(li)), di);
  }

  lemma {:induction false} CloseIs(lens: seq<nat>, m: nat)
    requires Close(lens, m)
    ensures ValidLens(lens) && Kraft(lens) <= SPACE
  {
    hide Kraft, Compact;
  }

  lemma {:induction false} FurthestClose(lit: seq<nat>, dist: seq<nat>, n: nat, toks: seq<Tok>, v: nat, pos: nat)
    requires 257 <= |lit| <= 288 && |dist| <= 32 && Close(lit, 9) && (Close(dist, 6) || forall i :: 0 <= i < |dist| ==> dist[i] == 0)
    requires ValidLens(dist) && Kraft(dist) <= SPACE && lit[256] > 0 && ToksOk(lit, dist, n, toks) && Begins(Shr(v, pos), ToksBits(lit, dist, n, toks))
    ensures Furthest(lit, dist, n, toks, v, pos) <= pos + |ToksBits(lit, dist, n, toks)| + 8
    decreases |toks|
  {
    hide Begins, Kraft, Decode, Shr, TokBits, Wanted, LBase, LExtra, DBase, DExtra, ValidLens, Length, Look, Close, CodeBits;
    CloseIs(lit, 9);
    if toks == [] {
      EndClose(lit, dist, Shr(v, pos));
    } else {
      var t := toks[0];
      var n2 := n + if t.Lit? then 1 else Length(t);
      BeginsAppend(Shr(v, pos), TokBits(lit, dist, t), ToksBits(lit, dist, n2, toks[1..]));
      ShrShr(v, pos, |TokBits(lit, dist, t)|);
      TokClose(lit, dist, t, Shr(v, pos));
      FurthestClose(lit, dist, n2, toks[1..], v, pos + |TokBits(lit, dist, t)|);
    }
  }

  lemma {:induction false} EndClose(lit: seq<nat>, dist: seq<nat>, v: nat)
    requires 257 <= |lit| <= 288 && |dist| <= 32 && Close(lit, 9) && lit[256] > 0 && Begins(v, CodeBits(lit, 256))
    ensures Wanted(lit, dist, v) <= |CodeBits(lit, 256)| + 8
  {
    hide Begins, CodeBits, Decode, Look, Close, LExtra;
    CloseIs(lit, 9);
    ReadsBack(lit, 256, v);
    LookClose(lit, 9, v, 256);
  }

  lemma {:induction false} SymClose(cl: seq<nat>, v: nat, pos: nat, acc: seq<nat>, total: nat)
    requires |cl| == 19 && ValidLens(cl) && ValidLens(acc) && |acc| < total && Longest(cl) <= 7 && Decode(cl, Shr(v, pos)).Some?
    ensures var r := NextLens(cl, Ample(v, pos), pos, acc, total); r.LensAre? ==> SymLook(cl, v, pos) <= r.pos + 8
  {
    hide Decode, Shr, Low, Times, ValidLens, RepBase, RepBits, Longest, NextLens;
    DecodedIn(cl, Shr(v, pos));
    NextIs(cl, v, pos, acc, total, Decode(cl, Shr(v, pos)).value);
  }

  lemma {:induction false} LensClose(cl: seq<nat>, v: nat, pos: nat, acc: seq<nat>, total: nat)
    requires |cl| == 19 && ValidLens(cl) && ValidLens(acc) && |acc| <= total && Longest(cl) <= 7
    requires var r := ReadLens(cl, v, pos, acc, total); r.LensGood? && |r.lens| == total
    ensures var r := ReadLens(cl, v, pos, acc, total); pos <= r.pos && LensLook(cl, v, pos, acc, total) <= r.pos + 8
    decreases total - |acc|
  {
    hide Decode, Shr, ValidLens, NextLens, ReadLens, SymLook, LensLook, Longest;
    if |acc| < total {
      ReadLensNext(cl, v, pos, acc, total);
      LensLookUnfold(cl, v, pos, acc, total);
      ReadSome(cl, v, pos, acc, total);
      SymClose(cl, v, pos, acc, total);
      var n := NextLens(cl, Ample(v, pos), pos, acc, total);
      LensClose(cl, v, n.pos, n.lens, total);
    } else {
      ReadLensDone(cl, v, pos, acc, total);
      LookOfNone(cl, v, pos, pos, acc, total);
    }
  }

  lemma {:induction false} ReadSome(cl: seq<nat>, v: nat, pos: nat, acc: seq<nat>, total: nat)
    requires |cl| == 19 && ValidLens(acc) && |acc| < total && ReadLens(cl, v, pos, acc, total).LensGood?
    ensures Decode(cl, Shr(v, pos)).Some?
  {
    hide Decode, Shr, Low, Times, ReadLens;
    ReadLensUnfold(cl, v, pos, acc, total);
  }

  lemma {:induction false} HeaderClose(v: nat, pos: nat, h: Header)
    requires HeaderOk(h) && Begins(Shr(v, pos), HeaderBits(h))
    ensures HeaderLook(v, pos, h) <= pos + |HeaderBits(h)| + 8
  {
    hide Begins, Shr, Low, LsbBits, ClBits, OpsBits, Kraft, Pow2, ReadLens, OpsOk, ValidLens, LensLook;
    var b0, b1, b2, b3, b4 := LsbBits(|h.lit| - 257, 5), LsbBits(|h.dist| - 1, 5), LsbBits(h.hclen - 4, 4),
                              ClBits(h.cl, h.hclen), OpsBits(h.cl, [], h.ops, h.lit + h.dist);
    BeginsAppend(Shr(v, pos), b0, b1 + (b2 + (b3 + b4)));
    ShrShr(v, pos, 5);
    BeginsAppend(Shr(v, pos + 5), b1, b2 + (b3 + b4));
    ShrShr(v, pos + 5, 5);
    BeginsAppend(Shr(v, pos + 10), b2, b3 + b4);
    ShrShr(v, pos + 10, 4);
    BeginsAppend(Shr(v, pos + 14), b3, b4);
    ShrShr(v, pos + 14, 3 * h.hclen);
    NoneValid();
    OpsBack(h.cl, [], h.ops, h.lit + h.dist, v, pos + 14 + 3 * h.hclen);
    SmallLongest(h.cl);
    LensClose(h.cl, v, pos + 14 + 3 * h.hclen, [], |h.lit| + |h.dist|);
  }

  lemma {:induction false} SmallLongest(cl: seq<nat>)
    requires |cl| == 19 && forall i :: 0 <= i < 19 ==> cl[i] < 8
    ensures Longest(cl) <= 7
  {
    if Longest(cl) > 0 { assert Longest(cl) in cl; }
    hide Longest;
  }

  lemma {:induction false} BodyClose(v: nat, pos: nat, n: nat, b: Block)
    requires BlockOk(n, b) && Strict(b) && Begins(Shr(v, pos), BodyBits(pos, n, b))
    ensures BodyLook(v, pos, n, b) <= pos + |BodyBits(pos, n, b)| + 8
  {
    hide Begins, Shr, HeaderBits, ToksBits, Kraft, StoredBits, FixedLengths, FixedDistances, ToksOk, Accepted, OpsOk, Furthest, HeaderLook, Close;
    FixedOk();
    match b
    case Stored(bytes) =>
    case Fixed(toks) =>
      FixedKraft();
      FixedClose();
      FurthestClose(FixedLengths(), FixedDistances(), n, toks, v, pos);
    case Dynamic(h, toks) =>
      BeginsAppend(Shr(v, pos), HeaderBits(h), ToksBits(h.lit, h.dist, n, toks));
      ShrShr(v, pos, |HeaderBits(h)|);
      HeaderClose(v, pos, h);
      AcceptedClose(h.lit, 9);
      if Accepted(h.dist) { AcceptedClose(h.dist, 6); }
      FurthestClose(h.lit, h.dist, n, toks, v, pos + |HeaderBits(h)|);
  }

  /** Eight more bits are always enough. */
  lemma {:induction false} StreamClose(v: nat, pos: nat, out: seq<byte>, bs: seq<Block>)
    requires BlocksOk(out, bs) && Begins(Shr(v, pos), StreamBits(pos, out, bs)) && (forall b :: b in bs ==> Strict(b))
    ensures StreamLook(v, pos, out, bs) <= pos + |StreamBits(pos, out, bs)| + 8
    decreases |bs|
  {
    hide Begins, Shr, LsbBits, BodyBits, BlockOk, ExpandBlock, Strict, BodyLook, StreamLook;
    if bs != [] {
      var b := bs[0];
      var b0, b1, b2 := LsbBits(if |bs| == 1 then 1 else 0, 1), LsbBits(Kind(b), 2), BodyBits(pos + 3, |out|, b);
      var head := b0 + (b1 + b2);
      BeginsAppend(Shr(v, pos), head, StreamBits(pos + |head|, ExpandBlock(out, b), bs[1..]));
      BeginsAppend(Shr(v, pos), b0, b1 + b2);
      ShrShr(v, pos, 1);
      BeginsAppend(Shr(v, pos + 1), b1, b2);
      ShrShr(v, pos + 1, 2);
      ShrShr(v, pos, |head|);
      assert b in bs;
      BodyClose(v, pos + 3, |out|, b);
      LookUnfold(v, pos, out, bs);
      StreamClose(v, pos + |head|, ExpandBlock(out, b), bs[1..]);
    } else {
      NothingLooked(v, pos, out, bs);
    }
  }

  lemma {:induction false} NothingLooked(v: nat, pos: nat, out: seq<byte>, bs: seq<Block>)
    requires bs == [] && BlocksOk(out, bs)
    ensures StreamLook(v, pos, out, bs) == 0
  {
  }

  // ---------------------------------------------------------------- and no bits are not

  /** Five literals of nine bits in a block of fixed codes. */
  function FiveLits(): seq<Block>
  {
    [Fixed([Lit(144), Lit(144), Lit(144), Lit(144), Lit(144)])]
  }

  lemma {:induction false} LitTokOk()
    ensures TokOk(FixedLengths(), FixedDistances(), Lit(144))
  {
    assert FixedLengths()[144] == 9;
  }

  lemma {:induction false} FiveToks(n: nat, k: nat, toks: seq<Tok>, v: nat, pos: nat)
    requires |toks| == k && forall i :: 0 <= i < k ==> toks[i] == Lit(144)
    requires ToksOk(FixedLengths(), FixedDistances(), n, toks) && |FixedLengths()| == 288 && |FixedDistances()| == 32
    requires Begins(Shr(v, pos), ToksBits(FixedLengths(), FixedDistances(), n, toks))
    ensures |ToksBits(FixedLengths(), FixedDistances(), n, toks)| == 9 * k + 7
    ensures Furthest(FixedLengths(), FixedDistances(), n, toks, v, pos) >= pos + 9 * k + 9
    decreases k
  {
    hide FixedLengths, FixedDistances, Begins, Kraft, Decode, Shr, Wanted, ValidLens, CodeBits, Look;
    LitTokOk();
    FixedCode(144);
    FixedCode(256);
    FixedKraft();
    if k == 0 {
      FixedLooks(Shr(v, pos));
      EndLooks(Shr(v, pos));
    } else {
      LitBits(toks[0]);
      BeginsAppend(Shr(v, pos), TokBits(FixedLengths(), FixedDistances(), toks[0]), ToksBits(FixedLengths(), FixedDistances(), n + 1, toks[1..]));
      ShrShr(v, pos, 9);
      FiveToks(n + 1, k - 1, toks[1..], v, pos + 9);
    }
  }

  lemma {:induction false} LitBits(t: Tok)
    requires t == Lit(144) && TokOk(FixedLengths(), FixedDistances(), t)
    ensures |TokBits(FixedLengths(), FixedDistances(), t)| == 9
  {
    FixedCode(144);
    hide FixedLengths, FixedDistances;
  }

  lemma {:induction false} EndLooks(w: nat)
    requires |FixedLengths()| == 288 && |FixedDistances()| == 32 && FixedLengths()[256] > 0 && Begins(w, CodeBits(FixedLengths(), 256))
    ensures Wanted(FixedLengths(), FixedDistances(), w) == 9
  {
    FixedKraft();
    FixedLooks(w);
    hide FixedLengths, FixedDistances, Begins, Kraft, Decode, ValidLens, CodeBits, Look;
    ReadsBack(FixedLengths(), 256, w);
  }

  lemma {:induction false} FiveOk()
    ensures BlocksOk([], FiveLits()) && forall b :: b in FiveLits() ==> Strict(b)
  {
    hide FixedLengths, FixedDistances;
    var toks := FiveLits()[0].toks;
    LitTokOk();
    FiveToksOk(0, toks);
  }

  lemma {:induction false} FiveToksOk(n: nat, toks: seq<Tok>)
    requires (forall i :: 0 <= i < |toks| ==> toks[i] == Lit(144)) && TokOk(FixedLengths(), FixedDistances(), Lit(144))
    ensures ToksOk(FixedLengths(), FixedDistances(), n, toks)
    decreases |toks|
  {
    hide FixedLengths, FixedDistances, TokOk;
    if toks != [] { FiveToksOk(n + 1, toks[1..]); }
  }

  /** Seven bytes hold all 55 bits of the stream; inflate_blocks asks for more. */
  lemma {:induction false} NoSpareByte(v: nat, before: seq<byte>)
    requires BlocksOk([], FiveLits()) && Begins(v, StreamBits(0, [], FiveLits()))
    ensures |StreamBits(0, [], FiveLits())| == 55 && FromType(Input(v, 7), 0, before).Starved?
  {
    hide Begins, Shr, LsbBits, FixedLengths, FixedDistances, Furthest, FromType, ToksBits;
    FiveOk();
    FixedOk();
    var bs := FiveLits();
    var toks := bs[0].toks;
    var body := ToksBits(FixedLengths(), FixedDistances(), 0, toks);
    var head := LsbBits(1, 1) + (LsbBits(1, 2) + body);
    EndOfStream(|head|, ExpandBlock([], bs[0]), bs[1..]);
    assert StreamBits(0, [], bs) == head;
    assert Shr(v, 0) == v by { LowNone(v); }
    BeginsAppend(v, LsbBits(1, 1), LsbBits(1, 2) + body);
    BeginsAppend(Shr(v, 1), LsbBits(1, 2), body);
    ShrShr(v, 1, 2);
    FiveToks(0, 5, toks, v, 3);
    LookUnfold(v, 0, [], bs);
    assert before + [] == before;
    StreamBackHere(Input(v, 7), 0, before, [], bs);
  }
}
