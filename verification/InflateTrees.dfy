/** inflate_trees_bits and inflate_trees_dynamic of DuiLib/XUnzip.cpp: for the sizes they ask for, the tables that huft_build makes
    decode every complete code. */
module InflateTrees {
  import opened Bits
  import opened Canonical
  import opened HuftSpec
  import opened HuftBuild
  import opened HuftSpace
  import opened Deflate
  import opened InflateSpec
  import opened InflateTokens

  const CPLENS: seq<nat> :=
    [3, 4, 5, 6, 7, 8, 9, 10, 11, 13, 15, 17, 19, 23, 27, 31, 35, 43, 51, 59, 67, 83, 99, 115, 131, 163, 195, 227, 258, 0, 0]
  const CPLEXT: seq<nat> :=  // 112: invalid
    [0, 0, 0, 0, 0, 0, 0, 0, 1, 1, 1, 1, 2, 2, 2, 2, 3, 3, 3, 3, 4, 4, 4, 4, 5, 5, 5, 5, 0, 112, 112]
  const CPDIST: seq<nat> :=
    [1, 2, 3, 4, 5, 7, 9, 13, 17, 25, 33, 49, 65, 97, 129, 193, 257, 385, 513, 769, 1025, 1537, 2049, 3073, 4097, 6145,
     8193, 12289, 16385, 24577]
  const CPDEXT: seq<nat> :=
    [0, 0, 0, 0, 1, 1, 2, 2, 3, 3, 4, 4, 5, 5, 6, 6, 7, 7, 8, 8, 9, 9, 10, 10, 11, 11, 12, 12, 13, 13]

  // ---------------------------------------------------------------- the sizes asked for are enough

  /** What a symbol adds beyond length k. */
  lemma {:induction false} TailBound(lens: seq<nat>, k: nat)
    requires k <= 15
    ensures End(lens, 15) <= End(lens, k) + |lens| * Pow2(15 - k)
  {
    if lens == [] {
      EndEmpty(15);
    } else {
      var x := lens[|lens| - 1];
      TailBound(lens[..|lens| - 1], k);
      EndAppend(lens, 15);
      EndAppend(lens, k);
      if k < x <= 15 { Pow2Mono(16 - x, 15 - k); }
      hide End, Pow2;
      Product(|lens|, Pow2(15 - k));
    }
  }

  lemma {:induction false} Product(n: nat, m: nat)
    requires n > 0
    ensures n * m == (n - 1) * m + m
  {
  }

  /** The codes accepted: complete, or a single code of one bit. */
  predicate Accepted(lens: seq<nat>)
    requires ValidLens(lens)
  {
    !NoCodes(lens) && Kraft(lens) <= SPACE && (Kraft(lens) == SPACE || Longest(lens) == 1)
  }

  lemma {:induction false} AcceptedEnd(lens: seq<nat>)
    requires ValidLens(lens) && Accepted(lens) && Longest(lens) > 1
    ensures End(lens, 15) == SPACE
  {
    EndIsKraft(lens);
  }

  /** A complete code of at most 288 symbols has a code of at most nine bits. */
  lemma {:induction false} ShortestBound(lens: seq<nat>)
    requires ValidLens(lens) && Accepted(lens) && |lens| <= 288
    ensures 1 <= Shortest(lens) <= 9
  {
    BoundsOk(lens, 1);
    if Shortest(lens) > 9 {
      AcceptedEnd(lens);
      EndZero(lens, 9);
      TailBound(lens, 9);
      Pow2Values();
    }
  }

  /** The tables for an accepted code are compact when the first one has at least nine bits to itself, or six for
      at most 30 symbols. */
  lemma {:induction false} AcceptedCompact(lens: seq<nat>, m: nat)
    requires ValidLens(lens) && Accepted(lens) && ((m == 9 && |lens| <= 288) || (m == 6 && |lens| <= 30) || (m == 7 && Longest(lens) <= 7))
    ensures 1 <= RootBits(lens, m) <= 9 && Longest(lens) <= 15 && Compact(lens, Longest(lens), RootBits(lens, m), 0)
  {
    BoundsOk(lens, m);
    if m != 7 { ShortestBound(lens); }
    var l, g := RootBits(lens, m), Longest(lens);
    if l < g {
      AcceptedEnd(lens);
      RootUsed(lens, m);
      Pow2Values();
      if 2 * l < g {
        TailBound(lens, 2 * l);
        EndMono(lens, 2 * l, 15);
        TailRoom(|lens|, l);
        hide End, Pow2;
        CompactTwo(lens, g, l);
      } else {
        hide End, Pow2;
        CompactOne(lens, g, l);
      }
    }
  }

  lemma {:induction false} RootUsed(lens: seq<nat>, m: nat)
    requires ValidLens(lens) && !NoCodes(lens)
    ensures RootBits(lens, m) <= 15 && End(lens, RootBits(lens, m)) > 0
  {
    BoundsOk(lens, m);
    var j := Shortest(lens);
    CountIn(lens, j);
    EndUnfold(lens, j);
    ShlMono(0, Count(lens, j), 16 - j);
    EndMono(lens, j, RootBits(lens, m));
  }

  lemma {:induction false} TailRoom(n: nat, l: nat)
    requires n <= 30 && 6 <= l <= 7
    ensures n * Pow2(15 - 2 * l) < Pow2(16 - l)
  {
    Pow2Values();
    assert Pow2(15 - 2 * l) == if l == 6 then 8 else 2;
  }

  lemma {:induction false} CompactOne(lens: seq<nat>, g: nat, l: nat)
    requires 1 <= l < g <= 15 && 2 * l >= g && End(lens, l) > 0 && Pow2(16) == SPACE
    ensures Compact(lens, g, l, 0)
  {
    hide End, Pow2;
    assert Compact(lens, g, l, l);
  }

  lemma {:induction false} CompactTwo(lens: seq<nat>, g: nat, l: nat)
    requires 6 <= l && 2 * l < g <= 15 && End(lens, l) > 0 && Pow2(16) == SPACE && End(lens, 2 * l) + Pow2(16 - l) > SPACE
    ensures Compact(lens, g, l, 0)
  {
    hide End, Pow2;
    assert Compact(lens, g, l, 2 * l);
    assert Compact(lens, g, l, l);
  }

  // ---------------------------------------------------------------- the table space is enough

  lemma {:induction false} AcceptedCfg(lens: seq<nat>, s: nat, d: seq<nat>, e: seq<nat>, m: nat)
    requires ValidLens(lens) && Accepted(lens) && ListsOk(|lens|, s, d, e)
    requires (m == 9 && |lens| <= 288) || (m == 6 && |lens| <= 30) || (m == 7 && Longest(lens) <= 7)
    ensures var cfg := CfgOf(lens, s, d, e, m);
            CfgOk(cfg) && Compact(lens, cfg.g, cfg.l, 0) && (cfg.l == cfg.g || (cfg.l == m && End(lens, cfg.g) == SPACE))
  {
    hide Kraft, End, Compact, ListsOk, Count;
    AcceptedCompact(lens, m);
    CfgIsOk(lens, s, d, e, m);
    BoundsOk(lens, m);
    KraftIsEnd(lens, Longest(lens));
    if m == 9 { ShortestBound(lens); }
    if m == 6 { ShortestSix(lens); }
  }

  lemma {:induction false} ShortestSix(lens: seq<nat>)
    requires ValidLens(lens) && Accepted(lens) && |lens| <= 30
    ensures 1 <= Shortest(lens) <= 6
  {
    BoundsOk(lens, 1);
    if Shortest(lens) > 6 {
      AcceptedEnd(lens);
      EndZero(lens, 6);
      TailBound(lens, 6);
      Pow2Values();
    }
  }

  /** 926 entries are enough for every complete literal/length code, 298 for every complete distance code, and 128
      for the code length code. */
  lemma {:induction false} AcceptedSpace(lens: seq<nat>, s: nat, d: seq<nat>, e: seq<nat>, m: nat)
    requires ValidLens(lens) && Accepted(lens) && ListsOk(|lens|, s, d, e)
    requires (m == 9 && |lens| <= 288) || (m == 6 && |lens| <= 30)
    ensures RootBits(lens, m) >= 1 && TableSpace(CfgOf(lens, s, d, e, m)) <= if m == 9 then 926 else 298
  {
    hide Kraft, End, Compact, ListsOk, Count, TableSpace, Extras, RootBits, Longest, Accepted, Pow2;
    AcceptedCfg(lens, s, d, e, m);
    var cfg := CfgOf(lens, s, d, e, m);
    AcceptedCompact(lens, m);
    Pow2Values();
    ExtrasAre();
    if cfg.l == cfg.g {
      OneSpace(cfg);
      if m == 9 { Pow2Mono(cfg.l, 9); } else { RootSix(lens); Pow2Mono(cfg.l, 6); }
    } else {
      WholeSpace(cfg);
    }
  }

  lemma {:induction false} RootSix(lens: seq<nat>)
    requires ValidLens(lens) && Accepted(lens) && |lens| <= 30
    ensures RootBits(lens, 6) <= 6
  {
    ShortestSix(lens);
  }

  lemma {:induction false} ClSpace(c: seq<nat>)
    requires |c| == 19 && ValidLens(c) && (forall i :: 0 <= i < 19 ==> c[i] <= 7) && !NoCodes(c) && Kraft(c) <= SPACE
    ensures RootBits(c, 7) >= 1 && TableSpace(CfgOf(c, 19, [], [], 7)) <= 128
  {
    ListsFit();
    hide Kraft, End, Compact, ListsOk, Count, TableSpace, Pow2;
    BoundsOk(c, 7);
    CfgIsOk(c, 19, [], [], 7);
    OneSpace(CfgOf(c, 19, [], [], 7));
    Pow2Mono(Longest(c), 7);
    Pow2Values();
  }

  // ---------------------------------------------------------------- from tables to tokens

  lemma {:induction false} ListsFit()
    ensures ListsOk(288, 257, CPLENS, CPLEXT) && ListsOk(30, 0, CPDIST, CPDEXT) && ListsOk(19, 19, [], [])
  {
    ExtraLists();
    forall i | 0 <= i < |CPLEXT| ensures (CPLEXT[i] + 16 + 64) / 64 % 2 == 1 && CPLEXT[i] + 16 + 64 < 256 { LeafMark(CPLEXT[i]); }
    forall i | 0 <= i < |CPDEXT| ensures (CPDEXT[i] + 16 + 64) / 64 % 2 == 1 && CPDEXT[i] + 16 + 64 < 256 { LeafMark(CPDEXT[i]); }
    hide CPLENS, CPLEXT, CPDIST, CPDEXT;
  }

  lemma {:induction false} ExtraLists()
    ensures |CPLENS| == |CPLEXT| == 31 && |CPDIST| == |CPDEXT| == 30
    ensures forall i :: 0 <= i < 31 ==> CPLEXT[i] <= 13 || CPLEXT[i] == 112
    ensures forall i :: 0 <= i < 30 ==> CPDEXT[i] <= 13
  {
  }

  lemma {:induction false} LeafMark(e: nat)
    requires e <= 13 || e == 112
    ensures (e + 16 + 64) / 64 % 2 == 1 && e + 16 + 64 < 256
  {
  }

  lemma {:induction false} ListsShrink(n: nat, m: nat, s: nat, d: seq<nat>, e: seq<nat>)
    requires ListsOk(n, s, d, e) && m <= n
    ensures ListsOk(m, s, d, e)
  {
  }

  lemma {:induction false} LitExop(cfg: Cfg, i: nat)
    requires cfg.s == 257 && cfg.d == CPLENS && cfg.e == CPLEXT && i < 288
    ensures i < 256 ==> Exop(cfg, i) == 0 && Base(cfg, i) == i
    ensures i == 256 ==> Exop(cfg, i) == 96
    ensures 257 <= i < 286 ==> Exop(cfg, i) == 80 + LExtra(i - 257) && Base(cfg, i) == LBase(i - 257)
    ensures i >= 286 ==> Exop(cfg, i) == INVALID
  {
    if i >= 257 { LengthLists(i - 257); }
    hide CPLENS, CPLEXT, LExtra, LBase;
  }

  lemma {:induction false} LengthLists(i: nat)
    requires i < 31
    ensures CPLENS[i] == LBase(i) && CPLEXT[i] == if i < 29 then LExtra(i) else 112
  {
  }

  lemma {:induction false} DistLists(i: nat)
    requires i < 30
    ensures CPDIST[i] == DBase(i) && CPDEXT[i] == DExtra(i)
  {
  }

  lemma {:induction false} DecodedIn(lens: seq<nat>, b: nat)
    ensures Decode(lens, b).Some? ==> Decode(lens, b).value < |lens|
  {
  }

  lemma {:induction false} GrowSame(cfg: Cfg, cfg2: Cfg, w: nat, p: nat, j: nat)
    requires cfg.lens == cfg2.lens && cfg.g == cfg2.g && cfg.l == cfg2.l
    ensures GrowBits(cfg, w, p, j) == GrowBits(cfg2, w, p, j)
    decreases 16 - j
  {
    hide Rest, Pow2;
    assert EndX(cfg, w + j) == EndX(cfg2, w + j);
    hide EndX;
    if j < 15 { GrowSame(cfg, cfg2, w, p, j + 1); }
  }

  lemma {:induction false} CodeLenSame(cfg: Cfg, cfg2: Cfg, p: nat, k: nat)
    requires cfg.lens == cfg2.lens && cfg.g == cfg2.g
    ensures CodeLen(cfg, p, k) == CodeLen(cfg2, p, k)
    decreases 16 - k
  {
    assert EndX(cfg, k) == EndX(cfg2, k);
    hide EndX;
    if k < 15 { CodeLenSame(cfg, cfg2, p, k + 1); }
  }

  lemma {:induction false} TabSame(cfg: Cfg, cfg2: Cfg, w: nat, p: nat)
    requires cfg.lens == cfg2.lens && cfg.g == cfg2.g && cfg.l == cfg2.l
    ensures TabBits(cfg, w, p) == TabBits(cfg2, w, p)
  {
    hide GrowBits, CodeLen;
    CodeLenSame(cfg, cfg2, p, 1);
    var k := CodeLen(cfg, p, 1);
    GrowSame(cfg, cfg2, w, p, if k >= w then k - w else 0);
  }

  /** What lookups ask for depends on the code lengths and index sizes alone. */
  lemma {:induction false} ReachSame(cfg: Cfg, cfg2: Cfg, q: nat, w: nat)
    requires cfg.lens == cfg2.lens && cfg.g == cfg2.g && cfg.l == cfg2.l
    ensures ReachOf(cfg, q, w) == ReachOf(cfg2, q, w)
    decreases 16 - w
  {
    hide Rest, Low, TabBits, CodeLen;
    CodeLenSame(cfg, cfg2, q, 1);
    TabSame(cfg, cfg2, w, q - Low(q, Rest(w)));
    if cfg.l > 0 && w + cfg.l <= 16 { ReachSame(cfg, cfg2, q, w + cfg.l); }
  }

  lemma {:induction false} LitFrom(cfg: Cfg, r: WalkResult, b: nat)
    requires DecodesAs(cfg, r, b) && cfg.s == 257 && cfg.d == CPLENS && cfg.e == CPLEXT && |cfg.lens| <= 288
    requires cfg.l == RootBits(cfg.lens, 9) <= 9 && cfg.g == Longest(cfg.lens) <= MAXBITS
    ensures LitEntry(cfg.lens, r, b)
  {
    ReachSame(cfg, CfgOf(cfg.lens, |cfg.lens|, [], [], 9), Rev(b, 16), 0);
    DecodedIn(cfg.lens, b);
    hide Decode, Exop, Base, CPLENS, CPLEXT, LExtra, LBase, IsLink, ReachOf, Stale, Longest, RootBits;
    if Decode(cfg.lens, b).Some? { LitExop(cfg, Decode(cfg.lens, b).value); }
  }

  lemma {:induction false} DistFrom(cfg: Cfg, r: WalkResult, b: nat)
    requires DecodesAs(cfg, r, b) && cfg.s == 0 && cfg.d == CPDIST && cfg.e == CPDEXT && |cfg.lens| <= 30
    requires cfg.l == RootBits(cfg.lens, 6) <= 9 && cfg.g == Longest(cfg.lens) <= MAXBITS
    ensures DistEntry(cfg.lens, r, b)
  {
    ReachSame(cfg, CfgOf(cfg.lens, |cfg.lens|, [], [], 6), Rev(b, 16), 0);
    DecodedIn(cfg.lens, b);
    if Decode(cfg.lens, b).Some? { DistLists(Decode(cfg.lens, b).value); }
    hide Decode, CPDIST, CPDEXT, DExtra, DBase, IsLink, ReachOf, Stale, Longest, RootBits;
  }

  lemma {:induction false} LitBuilt(cfg: Cfg, h: seq<Huft>, lo: nat, hi: nat, h2: seq<Huft>, b: nat)
    requires Built(cfg, h, lo, hi) && |h2| >= hi && forall i :: lo <= i < hi ==> h2[i] == h[i]
    requires cfg.s == 257 && cfg.d == CPLENS && cfg.e == CPLEXT && |cfg.lens| <= 288
    requires cfg.l == RootBits(cfg.lens, 9) <= 9 && cfg.g == Longest(cfg.lens) <= MAXBITS
    ensures LitEntry(cfg.lens, Walk(h2, lo, cfg.l, b), b)
  {
    hide DecodesAs, LitEntry, Walk;
    LitFrom(cfg, Walk(h2, lo, cfg.l, b), b);
  }

  lemma {:induction false} DistBuilt(cfg: Cfg, h: seq<Huft>, lo: nat, hi: nat, b: nat)
    requires Built(cfg, h, lo, hi)
    requires cfg.s == 0 && cfg.d == CPDIST && cfg.e == CPDEXT && |cfg.lens| <= 30
    requires cfg.l == RootBits(cfg.lens, 6) <= 9 && cfg.g == Longest(cfg.lens) <= MAXBITS
    ensures DistEntry(cfg.lens, Walk(h, lo, cfg.l, b), b)
  {
    hide DecodesAs, DistEntry, Walk;
    DistFrom(cfg, Walk(h, lo, cfg.l, b), b);
  }

  /** What one lookup in the table of the code length code finds for the stream b. */
  ghost predicate ClSlot(h: seq<Huft>, t: nat, m: nat, cl: seq<nat>, b: nat)
  {
    var a := t + Low(b, m);
    a < |h| && 1 <= h[a].bits <= m && h[a].base < 19
    && match Decode(cl, b)
       case Some(i) => i < |cl| && h[a].bits == cl[i] && h[a].base == i
       case None => h[a].bits == Longest(cl) && IsLast(cl, h[a].base)
  }

  /** i is the last symbol of the code. */
  ghost predicate IsLast(cl: seq<nat>, i: nat)
  {
    i < |cl| && cl[i] > 0 && Slot(cl, i) == Below(cl, Longest(cl) + 1) - 1
  }

  /** Nothing in the table of the code length code is longer than the index. */
  ghost predicate ClTable(h: seq<Huft>, t: nat, m: nat, cl: seq<nat>)
  {
    1 <= m <= 7 && forall b: nat :: ClSlot(h, t, m, cl, b)
  }

  lemma {:induction false} HasLast(lens: seq<nat>)
    requires !NoCodes(lens)
    ensures Below(lens, Longest(lens) + 1) > 0
  {
    var g := Longest(lens);
    CountIn(lens, g);
  }

  lemma {:induction false} ClFrom(cfg: Cfg, h: seq<Huft>, lo: nat, hi: nat, b: nat)
    requires Built(cfg, h, lo, hi) && cfg.l == cfg.g == Longest(cfg.lens) <= 7 && !NoCodes(cfg.lens) && cfg.s == 19 == |cfg.lens| && cfg.d == cfg.e == []
    requires forall i :: 0 <= i < 19 ==> cfg.lens[i] <= cfg.g
    ensures ClSlot(h, lo, cfg.l, cfg.lens, b)
  {
    HasLast(cfg.lens);
    hide Walk, Low, Shr, Decode, IsLink, ReachOf, Slot, Below, Longest;
    var r := Walk(h, lo, cfg.l, b);
    assert DecodesAs(cfg, r, b);
    WalkStep(h, lo, cfg.l, b);
    DecodedIn(cfg.lens, b);
    var a := lo + Low(b, cfg.l);
    if IsLink(h[a]) {
      assert false;
    }
  }

  /** The contract of huft_build. */
  ghost predicate Made(b: seq<nat>, s: nat, d: seq<nat>, e: seq<nat>, m0: nat, hn: nat, h: seq<Huft>, r: int, t: nat, m: nat, hn': nat)
    requires ValidLens(b)
  {
    |h| == MANY
    && if NoCodes(b) then r == Z_OK && m == 0 && hn' == hn
       else m == RootBits(b, m0) >= 1
            && if Kraft(b) > SPACE then r == Z_DATA_ERROR
               else if hn + TableSpace(CfgOf(b, s, d, e, m0)) > MANY then r == Z_MEM_ERROR
               else r == (if Kraft(b) < SPACE && Longest(b) != 1 then Z_BUF_ERROR else Z_OK) && t == hn
                    && hn' == hn + TableSpace(CfgOf(b, s, d, e, m0)) <= MANY
                    && Longest(b) <= 15 && (Compact(b, Longest(b), m, 0) ==> Built(CfgOf(b, s, d, e, m0), h, hn, hn'))
  }

  lemma {:induction false} BitsDone(c: seq<nat>, h: seq<Huft>, r: int, tb: nat, bb: nat, hn: nat)
    requires |c| == 19 && (forall i :: 0 <= i < 19 ==> c[i] <= 7) && ValidLens(c) && Made(c, 19, [], [], 7, 0, h, r, tb, bb, hn)
    ensures r == Z_OK && bb != 0 <==> Accepted(c)
    ensures Accepted(c) ==> ClTable(h, tb, bb, c) && bb == Longest(c)
    ensures r == Z_OK || r == Z_DATA_ERROR || r == Z_BUF_ERROR
  {
    ErrorCodes();
    hide Kraft, TableSpace, Compact, Built, ClSlot;
    if !NoCodes(c) {
      BoundsOk(c, 7);
      if Kraft(c) <= SPACE { ClSpace(c); }
    }
    if r == Z_OK && bb != 0 {
      AcceptedCompact(c, 7);
      var cfg := CfgOf(c, 19, [], [], 7);
      forall b: nat ensures ClSlot(h, tb, bb, c, b) {
        ClFrom(cfg, h, 0, hn, b);
      }
    }
  }

  /** inflate_trees_bits: c are the 19 lengths of the code length code. */
  method TreesBits(c: seq<nat>, hufts: array<Huft>) returns (r: int, tb: nat, bb: nat)
    requires |c| == 19 && (forall i :: 0 <= i < 19 ==> c[i] <= 7) && ValidLens(c) && hufts.Length == MANY
    modifies hufts
    ensures r == if Accepted(c) then Z_OK else Z_DATA_ERROR
    ensures r == Z_OK ==> ClTable(hufts[..], tb, bb, c) && bb == Longest(c)
  {
    ListsFit();
    ErrorCodes();
    hide Kraft, TableSpace, Compact, Built, Longest, RootBits, CfgOf, NoCodes, Accepted, ListsOk, CPLENS, CPLEXT, CPDIST, CPDEXT, ValidLens, ClTable, Agree, BothAccepted, Walk, LitEntry, DistEntry;
    var hn := 0;
    r, tb, bb, hn := Build(c, 19, [], [], 7, hufts, 0);
    BitsDone(c, hufts[..], r, tb, bb, hn);
    if r != Z_DATA_ERROR && (r == Z_BUF_ERROR || bb == 0) { r := Z_DATA_ERROR; }
  }

  /** What is made of a pair of codes: tables, an error, or nothing for want of table space. */
  datatype Verdict = TreesOk | TreesBad | TreesFull

  ghost function LitSpace(lit: seq<nat>): nat
    requires ValidLens(lit) && !NoCodes(lit)
  {
    BoundsOk(lit, 9);
    TableSpace(CfgOf(lit, 257, CPLENS, CPLEXT, 9))
  }

  ghost function DistSpace(dist: seq<nat>): nat
    requires ValidLens(dist) && !NoCodes(dist)
  {
    BoundsOk(dist, 6);
    TableSpace(CfgOf(dist, 0, CPDIST, CPDEXT, 6))
  }

  /** The first code that cannot be used decides; only an incomplete code can run out of space. */
  ghost function TreesVerdict(lit: seq<nat>, dist: seq<nat>): Verdict
    requires ValidLens(lit) && ValidLens(dist)
  {
    if !Accepted(lit) then
      if !NoCodes(lit) && Kraft(lit) <= SPACE && LitSpace(lit) > MANY then TreesFull else TreesBad
    else if NoCodes(dist) then (if |lit| > 257 then TreesBad else TreesOk)
    else if Accepted(dist) then TreesOk
    else if Kraft(dist) <= SPACE && LitSpace(lit) + DistSpace(dist) > MANY then TreesFull
    else TreesBad
  }

  lemma {:induction false} LitDone(c: seq<nat>, h: seq<Huft>, r: int, t: nat, m: nat, hn: nat)
    requires 257 <= |c| <= 288 && ValidLens(c) && Made(c, 257, CPLENS, CPLEXT, 9, 0, h, r, t, m, hn)
    ensures r == Z_OK && m != 0 <==> Accepted(c)
    ensures r == Z_MEM_ERROR <==> !NoCodes(c) && Kraft(c) <= SPACE && LitSpace(c) > MANY
    ensures Accepted(c) ==>
              1 <= m <= 9 && t == 0 && hn == LitSpace(c) <= MANY
              && Built(CfgOf(c, 257, CPLENS, CPLEXT, 9), h, 0, hn) && CfgOf(c, 257, CPLENS, CPLEXT, 9).l == m
    ensures r == Z_OK || r == Z_DATA_ERROR || r == Z_MEM_ERROR || r == Z_BUF_ERROR
  {
    ErrorCodes();
    ListsFit();
    ListsShrink(288, |c|, 257, CPLENS, CPLEXT);
    hide Kraft, TableSpace, Compact, Built, CPLENS, CPLEXT, ListsOk;
    if !NoCodes(c) { BoundsOk(c, 9); }
    if Accepted(c) {
      AcceptedSpace(c, 257, CPLENS, CPLEXT, 9);
      AcceptedCompact(c, 9);
    }
  }

  lemma {:induction false} DistDone(c: seq<nat>, h: seq<Huft>, r: int, t: nat, m: nat, hn: nat, hn': nat)
    requires 1 <= |c| <= 30 && ValidLens(c) && Made(c, 0, CPDIST, CPDEXT, 6, hn, h, r, t, m, hn') && hn <= 926
    ensures r == Z_OK && m != 0 <==> Accepted(c)
    ensures Accepted(c) ==> 1 <= m <= 9 && t == hn && forall b: nat :: DistEntry(c, Walk(h, t, m, b), b)
    ensures r == Z_OK && m == 0 <==> NoCodes(c)
    ensures r == Z_MEM_ERROR <==> !NoCodes(c) && Kraft(c) <= SPACE && hn + DistSpace(c) > MANY
    ensures r == Z_OK || r == Z_DATA_ERROR || r == Z_MEM_ERROR || r == Z_BUF_ERROR
  {
    ErrorCodes();
    ListsFit();
    ListsShrink(30, |c|, 0, CPDIST, CPDEXT);
    hide Kraft, TableSpace, Compact, Built, CPDIST, CPDEXT, Walk, DistEntry, ListsOk;
    NoneAccepted(c);
    if !NoCodes(c) { BoundsOk(c, 6); }
    if Accepted(c) {
      AcceptedSpace(c, 0, CPDIST, CPDEXT, 6);
      AcceptedCompact(c, 6);
      forall b: nat ensures DistEntry(c, Walk(h, t, m, b), b) {
        DistBuilt(CfgOf(c, 0, CPDIST, CPDEXT, 6), h, hn, hn', b);
      }
    }
  }

  /** The literal/length tables still stand after the distance tables have been built behind them. */
  lemma {:induction false} LitStands(c: seq<nat>, h: seq<Huft>, hn: nat, h2: seq<Huft>, m: nat)
    requires |c| <= 288 && ValidLens(c) && CfgOf(c, 257, CPLENS, CPLEXT, 9).l == m <= 9 && CfgOf(c, 257, CPLENS, CPLEXT, 9).g <= 15
    requires Built(CfgOf(c, 257, CPLENS, CPLEXT, 9), h, 0, hn) && |h2| >= hn && forall i :: 0 <= i < hn ==> h2[i] == h[i]
    ensures forall b: nat :: LitEntry(c, Walk(h2, 0, m, b), b)
  {
    hide Walk, LitEntry, Built, CPLENS, CPLEXT, Longest, RootBits;
    forall b: nat ensures LitEntry(c, Walk(h2, 0, m, b), b) {
      LitBuilt(CfgOf(c, 257, CPLENS, CPLEXT, 9), h, 0, hn, h2, b);
    }
  }

  /** The two codes of a dynamic block are acceptable. */
  predicate BothAccepted(lit: seq<nat>, dist: seq<nat>)
    requires ValidLens(lit) && ValidLens(dist)
  {
    Accepted(lit) && (Accepted(dist) || (NoCodes(dist) && |lit| == 257))
  }

  lemma {:induction false} PiecesValid(c: seq<nat>, nl: nat, nd: nat)
    requires ValidLens(c) && nl + nd <= |c|
    ensures ValidLens(c[..nl]) && ValidLens(c[nl..nl + nd])
  {
  }

  lemma {:induction false} BothAgree(t: Tables, lit: seq<nat>, dist: seq<nat>)
    requires |lit| <= 288 && |dist| <= 32 && ValidLens(lit) && ValidLens(dist)
    requires 1 <= t.lbits <= 9 && forall b: nat :: LitEntry(lit, Walk(t.h, t.ltree, t.lbits, b), b)
    requires |lit| <= 257 || (1 <= t.dbits <= 9 && forall b: nat :: DistEntry(dist, Walk(t.h, t.dtree, t.dbits, b), b))
    ensures Agree(t, lit, dist)
  {
    hide Walk, LitEntry, DistEntry, ValidLens;
    if |lit| <= 257 {
      assert NoLengths(lit);
    } else {
      forall b: nat ensures DistEntry(dist, Walk(t.h, t.dtree, t.dbits, b), b) { assert DistEntry(dist, Walk(t.h, t.dtree, t.dbits, b), b); }
      assert 1 <= t.dbits <= 9;
      assert DistTables(t, dist);
    }
  }

  /** The first half of inflate_trees_dynamic. */
  method LitTree(lit: seq<nat>, hufts: array<Huft>) returns (r: int, tl: nat, bl: nat, hn: nat)
    requires 257 <= |lit| <= 288 && ValidLens(lit) && hufts.Length == MANY
    modifies hufts
    ensures r == if Accepted(lit) then Z_OK
                 else if !NoCodes(lit) && Kraft(lit) <= SPACE && LitSpace(lit) > MANY then Z_MEM_ERROR else Z_DATA_ERROR
    ensures r == Z_OK ==>
              1 <= bl <= 9 && tl == 0 && hn == LitSpace(lit) <= 926
              && Built(CfgOf(lit, 257, CPLENS, CPLEXT, 9), hufts[..], 0, hn) && CfgOf(lit, 257, CPLENS, CPLEXT, 9).l == bl
  {
    ListsFit();
    ErrorCodes();
    ListsShrink(288, |lit|, 257, CPLENS, CPLEXT);
    hide Kraft, TableSpace, Compact, Built, Longest, RootBits, CfgOf, NoCodes, Accepted, ListsOk, CPLENS, CPLEXT, CPDIST, CPDEXT, ValidLens, ClTable, Agree, BothAccepted, Walk, LitEntry, DistEntry, LitSpace, DistSpace;
    r, tl, bl, hn := Build(lit, 257, CPLENS, CPLEXT, 9, hufts, 0);
    LitDone(lit, hufts[..], r, tl, bl, hn);
    LitSmall(lit);
    if (r != Z_OK || bl == 0) && r != Z_MEM_ERROR { r := Z_DATA_ERROR; }
  }

  lemma {:induction false} LitSmall(lit: seq<nat>)
    requires 257 <= |lit| <= 288 && ValidLens(lit)
    ensures Accepted(lit) ==> LitSpace(lit) <= 926
  {
    ListsFit();
    ListsShrink(288, |lit|, 257, CPLENS, CPLEXT);
    hide Kraft, TableSpace, CPLENS, CPLEXT, ListsOk, RootBits, Longest;
    if Accepted(lit) { AcceptedSpace(lit, 257, CPLENS, CPLEXT, 9); }
  }

  /** The second half; long is whether there are codes for lengths. */
  method DistTree(dist: seq<nat>, long: bool, hufts: array<Huft>, hn: nat) returns (r: int, td: nat, bd: nat)
    requires 1 <= |dist| <= 30 && ValidLens(dist) && hufts.Length == MANY && hn <= 926
    modifies hufts
    ensures forall i :: 0 <= i < hn ==> hufts[i] == old(hufts[i])
    ensures r == if NoCodes(dist) then (if long then Z_DATA_ERROR else Z_OK)
                 else if Accepted(dist) then Z_OK
                 else if Kraft(dist) <= SPACE && hn + DistSpace(dist) > MANY then Z_MEM_ERROR else Z_DATA_ERROR
    ensures r == Z_OK && long ==> 1 <= bd <= 9 && forall b: nat :: DistEntry(dist, Walk(hufts[..], td, bd, b), b)
  {
    ListsFit();
    ErrorCodes();
    ListsShrink(30, |dist|, 0, CPDIST, CPDEXT);
    hide Kraft, TableSpace, Compact, Built, Longest, RootBits, CfgOf, NoCodes, Accepted, ListsOk, CPLENS, CPLEXT, CPDIST, CPDEXT, ValidLens, ClTable, Agree, BothAccepted, Walk, LitEntry, DistEntry, LitSpace, DistSpace;
    var hn2;
    r, td, bd, hn2 := Build(dist, 0, CPDIST, CPDEXT, 6, hufts, hn);
    DistDone(dist, hufts[..], r, td, bd, hn, hn2);
    NoneAccepted(dist);
    if (r != Z_OK || (bd == 0 && long)) && r != Z_MEM_ERROR { r := Z_DATA_ERROR; }
  }

  function CodeFor(x: Verdict): int
  {
    match x case TreesOk => Z_OK case TreesBad => Z_DATA_ERROR case TreesFull => Z_MEM_ERROR
  }

  /** inflate_trees_dynamic: c are nl literal/length code lengths, then nd distance code lengths. */
  method TreesDynamic(nl: nat, nd: nat, c: seq<nat>, hufts: array<Huft>) returns (r: int, t: Tables)
    requires 257 <= nl <= 288 && 1 <= nd <= 30 && |c| >= nl + nd && ValidLens(c) && hufts.Length == MANY
    modifies hufts
    ensures ValidLens(c[..nl]) && ValidLens(c[nl..nl + nd]) && r == CodeFor(TreesVerdict(c[..nl], c[nl..nl + nd]))
    ensures r == Z_OK ==> t.h == hufts[..] && Agree(t, c[..nl], c[nl..nl + nd])
  {
    PiecesValid(c, nl, nd);
    ErrorCodes();
    t := Tables([], 0, 0, 0, 0);
    hide Kraft, TableSpace, Compact, Built, Longest, RootBits, CfgOf, NoCodes, Accepted, ListsOk, CPLENS, CPLEXT, CPDIST, CPDEXT, ValidLens, ClTable, Agree, Walk, LitEntry, DistEntry, LitSpace, DistSpace;
    var tl, bl, hn, td, bd;
    NoneAccepted(c[nl..nl + nd]);
    r, tl, bl, hn := LitTree(c[..nl], hufts);
    if r != Z_OK { return; }
    ghost var h := hufts[..];
    CfgBits(c[..nl]);
    r, td, bd := DistTree(c[nl..nl + nd], nl > 257, hufts, hn);
    if r != Z_OK { return; }
    LitStands(c[..nl], h, hn, hufts[..], bl);
    t := Tables(hufts[..], bl, bd, tl, td);
    BothAgree(t, c[..nl], c[nl..nl + nd]);
  }

  /** Tables are made exactly for two acceptable codes. */
  lemma {:induction false} VerdictOk(lit: seq<nat>, dist: seq<nat>)
    requires ValidLens(lit) && ValidLens(dist) && |lit| >= 257
    ensures TreesVerdict(lit, dist) == TreesOk <==> BothAccepted(lit, dist)
  {
    hide Kraft, LitSpace, DistSpace, Longest;
    NoneAccepted(dist);
  }

  /** Only symbol i has a code, and it has one bit. */
  ghost predicate Alone(lens: seq<nat>, i: nat)
  {
    i < |lens| && lens[i] == 1 && forall j :: 0 <= j < |lens| && j != i ==> lens[j] == 0
  }

  /** The codes accepted, by what they are: those that fill the code space, and single ones of one bit. */
  lemma {:induction false} AcceptedIs(lens: seq<nat>)
    requires ValidLens(lens)
    ensures Accepted(lens) <==> Kraft(lens) == 65536 || exists i :: Alone(lens, i)
  {
    hide Kraft, Longest, Count;
    if exists i :: Alone(lens, i) {
      var i :| Alone(lens, i);
      AloneKraft(lens, i);
    } else if Longest(lens) == 1 && Kraft(lens) < SPACE && !NoCodes(lens) {
      OnesKraft(lens);
      var i: nat :| i < |lens| && lens[i] == 1;
      forall j | 0 <= j < |lens| && j != i ensures lens[j] == 0 { OnlyOne(lens, i, j); }
      assert Alone(lens, i);
    }
    if NoCodes(lens) { ZeroKraft(lens); }
  }

  lemma {:induction false} ZeroKraft(lens: seq<nat>)
    requires ValidLens(lens) && NoCodes(lens)
    ensures Kraft(lens) == 0
  {
    assert Kraft([]) == 0;
    KraftPad([], lens);
    assert [] + lens == lens;
  }

  lemma {:induction false} AloneKraft(lens: seq<nat>, i: nat)
    requires ValidLens(lens) && Alone(lens, i)
    ensures Longest(lens) == 1 && !NoCodes(lens) && Kraft(lens) <= SPACE
  {
    hide Longest, Kraft, Count;
    assert lens[i] <= Longest(lens);
    assert Longest(lens) in lens;
    OnesKraft(lens);
    if Count(lens, 1) > 1 {
      var k := RankSurjective(lens, 1, 0);
      var j := RankSurjective(lens, 1, 1);
    }
  }

  lemma {:induction false} OnesKraft(lens: seq<nat>)
    requires ValidLens(lens) && forall j :: 0 <= j < |lens| ==> lens[j] <= 1
    ensures Kraft(lens) == 32768 * Count(lens, 1)
  {
    if lens != [] {
      OnesKraft(lens[..|lens| - 1]);
      MorePowers();
      hide Pow2;
    }
  }

  lemma {:induction false} OnlyOne(lens: seq<nat>, i: nat, j: nat)
    requires i < |lens| && j < |lens| && i != j && lens[i] == 1 && lens[j] <= 1 && Count(lens, 1) <= 1
    ensures lens[j] == 0
  {
    hide Count;
    if lens[j] == 1 {
      RankInjective(lens, if i < j then i else j, if i < j then j else i);
      RankBelowCount(lens, i);
      RankBelowCount(lens, j);
      assert false;
    }
  }

  /** Tables are made exactly if the literal/length code fills the code space or is a single one of one bit, and so for the distance
      code, which may be missing if the literal/length code has no length symbols. */
  lemma {:induction false} VerdictIs(lit: seq<nat>, dist: seq<nat>)
    requires ValidLens(lit) && ValidLens(dist) && |lit| >= 257
    ensures TreesVerdict(lit, dist) == TreesOk <==>
            (Kraft(lit) == 65536 || exists i :: Alone(lit, i))
            && (Kraft(dist) == 65536 || (exists i :: Alone(dist, i)) || (|lit| == 257 && forall j :: 0 <= j < |dist| ==> dist[j] == 0))
  {
    VerdictOk(lit, dist);
    AcceptedIs(lit);
    AcceptedIs(dist);
    hide Kraft, TreesVerdict, Accepted, Alone;
  }

  /** Space runs out for incomplete codes only. */
  lemma {:induction false} VerdictFull(lit: seq<nat>, dist: seq<nat>)
    requires ValidLens(lit) && ValidLens(dist) && TreesVerdict(lit, dist) == TreesFull
    ensures Kraft(lit) < SPACE || Kraft(dist) < SPACE
  {
    hide LitSpace, DistSpace, Longest;
  }

  lemma {:induction false} NoneAccepted(lens: seq<nat>)
    requires ValidLens(lens)
    ensures NoCodes(lens) ==> !Accepted(lens)
  {
  }

  lemma {:induction false} CfgBits(lens: seq<nat>)
    requires ValidLens(lens)
    ensures CfgOf(lens, 257, CPLENS, CPLEXT, 9).g <= 15
  {
    hide CPLENS, CPLEXT;
    if Longest(lens) > 0 {
      assert Longest(lens) in lens;
    }
  }

  /** A code all of whose lengths are the same and too long for the space: its one table does not fit. */
  lemma {:induction false} LongCodesFull(lit: seq<nat>, dist: seq<nat>)
    requires ValidLens(lit) && ValidLens(dist) && 257 <= |lit| <= 288 && !NoCodes(lit) && Kraft(lit) < SPACE
    requires 11 <= Shortest(lit) == Longest(lit)
    ensures TreesVerdict(lit, dist) == TreesFull
  {
    BoundsOk(lit, 9);
    LitLists(lit);
    hide Kraft, Longest, Shortest, TableSpace, CPLENS, CPLEXT, NoCodes, RootBits, CfgOk, SPACE;
    var cfg := CfgOf(lit, 257, CPLENS, CPLEXT, 9);
    assert RootBits(lit, 9) == Longest(lit);
    OneTable(cfg);
    Pow2Mono(11, cfg.l);
    MorePowers();
  }

  lemma {:induction false} LitLists(lit: seq<nat>)
    requires ValidLens(lit) && 257 <= |lit| <= 288 && !NoCodes(lit) && Kraft(lit) <= SPACE
    ensures CfgOk(CfgOf(lit, 257, CPLENS, CPLEXT, 9))
  {
    hide Kraft, Longest, RootBits, CfgOf;
    CfgIsOk(lit, 257, CPLENS, CPLEXT, 9);
  }

  /** 257 literal/length codes, of which one has 15 bits and the others none. */
  function OneLong(): seq<nat>
  {
    [15] + Zeros(256)
  }

  /** With these lengths, the table space runs out. */
  lemma {:induction false} FullHappens(dist: seq<nat>)
    requires ValidLens(dist)
    ensures ValidLens(OneLong()) && |OneLong()| == 257 && TreesVerdict(OneLong(), dist) == TreesFull
  {
    var l := OneLong();
    assert l[0] == 15 && forall i :: 0 < i < 257 ==> l[i] == 0;
    OneLongKraft();
    hide OneLong, Longest, Shortest, Kraft, TreesVerdict;
    assert l[0] <= Longest(l);
    if Longest(l) > 0 { assert Longest(l) in l; }
    if Shortest(l) > 0 { assert Shortest(l) in l; }
    assert !NoCodes(l);
    BoundsOk(l, 9);
    LongCodesFull(l, dist);
  }

  lemma {:induction false} OneLongKraft()
    ensures ValidLens(OneLong()) && Kraft(OneLong()) == 2 < SPACE
  {
    assert Pow2(1) == 2;
    assert Kraft([15]) == 2 by { assert [15][..0] == []; }
    KraftPad([15], Zeros(256));
  }
}
