/** How much table space the tables of a complete code take: 1440 entries are enough for both codes of a dynamic block. */
module HuftSpace {
  import opened Bits
  import opened Canonical
  import opened HuftSpec
  import opened HuftTables
  import opened HuftBuild

  /** The depth of the table that holds the codes of length i. */
  function Home(l: nat, i: nat): (d: nat)
    ensures d <= i
  {
    if l == 0 || i <= l then 0 else l + Home(l, i - l)
  }

  lemma {:induction false} HomeAt(l: nat, d: nat, i: nat)
    requires OnGrid(l, d) && d < i <= d + l
    ensures Home(l, i) == d
  {
    if d > 0 { HomeAt(l, d - l, i - l); }
  }

  lemma {:induction false} HomeGrid(l: nat, i: nat)
    requires l > 0 && i > 0
    ensures OnGrid(l, Home(l, i)) && Home(l, i) < i <= Home(l, i) + l
  {
    if i > l { HomeGrid(l, i - l); }
  }

  /** The codes of length i from position s on. */
  ghost function CodesFrom(cfg: Cfg, i: nat, s: nat): nat
    requires 1 <= i <= 16
  {
    var lo := if s < EndX(cfg, i - 1) then EndX(cfg, i - 1) else s;
    if lo >= EndX(cfg, i) then 0 else Shr(EndX(cfg, i) - lo, 16 - i)
  }

  /** What the tables for codes of length i that start at s or later may cost: one entry for every code; one more table
      in which the length i is reached; and one more that goes on beyond i, if that is all a table of its depth can index. */
  ghost function Cost(cfg: Cfg, i: nat, s: nat): nat
    requires 1 <= i <= 16
  {
    CodesFrom(cfg, i, s) + (if CodeLen(cfg, s, 1) < i then Pow2(i - Home(cfg.l, i)) else 0)
    + if i == Home(cfg.l, i) + cfg.l && CodeLen(cfg, s, 1) <= i then Pow2(cfg.l) else 0
  }

  /** The end of the d-bit prefix at position p. */
  function Up(p: nat, d: nat): nat
  {
    p - Low(p, Rest(d)) + Pow2(Rest(d))
  }

  /** Where the next table of depth d can start, the open table being w bits deep. */
  function NextStart(p: nat, w: nat, d: nat): nat
  {
    if d > w then p else Up(p, d)
  }

  /** What all further tables may cost, for code lengths up to i. */
  ghost function Costs(cfg: Cfg, p: nat, w: nat, i: nat): nat
    requires i <= 16
  {
    if i <= cfg.l then 0 else Costs(cfg, p, w, i - 1) + Cost(cfg, i, NextStart(p, w, Home(cfg.l, i)))
  }

  lemma {:induction false} CodesFromLess(cfg: Cfg, i: nat, s: nat, s2: nat)
    requires 1 <= i <= 16 && s <= s2
    ensures CodesFrom(cfg, i, s2) <= CodesFrom(cfg, i, s)
  {
    hide EndX, Shr;
    var lo := if s < EndX(cfg, i - 1) then EndX(cfg, i - 1) else s;
    var lo2 := if s2 < EndX(cfg, i - 1) then EndX(cfg, i - 1) else s2;
    if lo2 < EndX(cfg, i) { ShrMono(EndX(cfg, i) - lo2, EndX(cfg, i) - lo, 16 - i); }
  }

  lemma {:induction false} CodeLenMono(cfg: Cfg, p: nat, p2: nat, k: nat)
    requires p <= p2
    ensures CodeLen(cfg, p, k) <= CodeLen(cfg, p2, k)
    decreases 16 - k
  {
    hide EndX;
    if k < 15 && p >= EndX(cfg, k) { CodeLenMono(cfg, p, p2, k + 1); }
  }

  lemma {:induction false} CostLess(cfg: Cfg, i: nat, s: nat, s2: nat)
    requires 1 <= i <= 16 && s <= s2
    ensures Cost(cfg, i, s2) <= Cost(cfg, i, s)
  {
    hide EndX, Shr, CodesFrom, CodeLen, Pow2;
    CodesFromLess(cfg, i, s, s2);
    CodeLenMono(cfg, s, s2, 1);
  }

  /** Cheaper everywhere, and by x at the length i0. */
  lemma {:induction false} CostsLess(cfg: Cfg, p: nat, w: nat, p2: nat, w2: nat, i: nat, i0: nat, x: nat)
    requires i <= 16 && (x > 0 ==> cfg.l < i0)
    requires forall n :: cfg.l < n <= i ==> NextStart(p, w, Home(cfg.l, n)) <= NextStart(p2, w2, Home(cfg.l, n))
    requires cfg.l < i0 <= 16 ==> Cost(cfg, i0, NextStart(p2, w2, Home(cfg.l, i0))) + x <= Cost(cfg, i0, NextStart(p, w, Home(cfg.l, i0)))
    ensures Costs(cfg, p2, w2, i) + (if i0 <= i then x else 0) <= Costs(cfg, p, w, i)
  {
    hide Cost, NextStart, Home;
    if i > cfg.l {
      CostsLess(cfg, p, w, p2, w2, i - 1, i0, x);
      CostLess(cfg, i, NextStart(p, w, Home(cfg.l, i)), NextStart(p2, w2, Home(cfg.l, i)));
    }
  }

  // ---------------------------------------------------------------- opening a table

  lemma {:induction false} CodeLenFacts(cfg: Cfg, p: nat, k: nat)
    requires CfgOk(cfg) && p < SPACE && 1 <= k <= 15 && (k == 1 || p >= EndX(cfg, k - 1))
    ensures var n := CodeLen(cfg, p, k); k <= n <= 15 && p < EndX(cfg, n) && (n == 1 || p >= EndX(cfg, n - 1)) && n <= cfg.g + (if k > cfg.g then 15 else 0)
    decreases 15 - k
  {
    if k < 15 && p >= EndX(cfg, k) { CodeLenFacts(cfg, p, k + 1); }
  }

  lemma {:induction false} ShrPlus(y: nat, m: nat, a: nat)
    ensures Shr(y + Shl(m, a), a) == Shr(y, a) + m
  {
    Split(y, a);
    ShlAdd(Shr(y, a), m, a);
    Join(Low(y, a), Shr(y, a) + m, a);
  }

  lemma {:induction false} PowParts(d: nat, k: nat)
    requires d <= k <= 16
    ensures Shl(Pow2(k - d), 16 - k) == Pow2(16 - d)
  {
    ShlOne(k - d);
    ShlShl(1, k - d, 16 - k);
    ShlOne(16 - d);
  }

  lemma {:induction false} CodesFromIs(cfg: Cfg, k: nat, s: nat)
    requires 1 <= k <= 16 && EndX(cfg, k - 1) <= s <= EndX(cfg, k)
    ensures CodesFrom(cfg, k, s) == Shr(EndX(cfg, k) - s, 16 - k)
  {
    hide EndX;
    if s == EndX(cfg, k) { ShrZero(0, 16 - k); }
  }

  /** A table that holds codes of one length only. */
  lemma {:induction false} EvenTable(cfg: Cfg, k: nat, d: nat, p: nat)
    requires CfgOk(cfg) && p < SPACE && CodeLen(cfg, p, 1) == k && d < k && EndX(cfg, k) >= p + Pow2(16 - d) && 1 <= k <= 15
    ensures CodesFrom(cfg, k, p + Pow2(16 - d)) + Pow2(k - d) <= CodesFrom(cfg, k, p)
  {
    hide EndX, CodeLen, Shr, Shl, Pow2, CodesFrom, CfgOk;
    CodeLenFacts(cfg, p, 1);
    FirstEnd(cfg);
    CodesFromIs(cfg, k, p);
    CodesFromIs(cfg, k, p + Pow2(16 - d));
    PowParts(d, k);
    ShrPlus(EndX(cfg, k) - (p + Pow2(16 - d)), Pow2(k - d), 16 - k);
  }

  lemma {:induction false} FirstEnd(cfg: Cfg)
    requires CfgOk(cfg)
    ensures EndX(cfg, 0) == 0
  {
  }

  /** A table in which a longer code length is reached. */
  lemma {:induction false} MixedTable(cfg: Cfg, k: nat, d: nat, i: nat, p: nat)
    requires CfgOk(cfg) && OnGrid(cfg.l, d) && p < SPACE && CodeLen(cfg, p, 1) == k && d < k < i <= d + cfg.l && i <= 15
    requires EndX(cfg, i - 1) < p + Pow2(16 - d)
    ensures Cost(cfg, i, p + Pow2(16 - d)) + Pow2(i - d) <= Cost(cfg, i, p)
  {
    hide EndX, Shr, CodesFrom, CodeLen, Pow2, ListsOk, ValidLens;
    HomeAt(cfg.l, d, i);
    CodesFromLess(cfg, i, p, p + Pow2(16 - d));
    CodeLenBeyond(cfg, p + Pow2(16 - d), i - 1, 1);
  }

  /** A table that can index codes of length k, but goes on to longer ones. */
  lemma {:induction false} FullTable(cfg: Cfg, k: nat, d: nat, p: nat)
    requires CfgOk(cfg) && OnGrid(cfg.l, d) && p < SPACE && CodeLen(cfg, p, 1) == k == d + cfg.l && d < k < 15
    requires EndX(cfg, k) < p + Pow2(16 - d)
    ensures Cost(cfg, k, p + Pow2(16 - d)) + Pow2(cfg.l) <= Cost(cfg, k, p)
  {
    hide EndX, Shr, CodesFrom, CodeLen, Pow2, ListsOk, ValidLens;
    HomeAt(cfg.l, d, k);
    CodesFromLess(cfg, k, p, p + Pow2(16 - d));
    CodeLenBeyond(cfg, p + Pow2(16 - d), k, 1);
  }

  lemma {:induction false} EvenCost(cfg: Cfg, k: nat, d: nat, p: nat)
    requires CfgOk(cfg) && OnGrid(cfg.l, d) && p < SPACE && CodeLen(cfg, p, 1) == k && d < k <= d + cfg.l && 1 <= k <= 15
    requires EndX(cfg, k) >= p + Pow2(16 - d)
    ensures Cost(cfg, k, p + Pow2(16 - d)) + Pow2(k - d) <= Cost(cfg, k, p)
  {
    hide EndX, CodesFrom, CodeLen, Pow2, ListsOk, ValidLens;
    HomeAt(cfg.l, d, k);
    EvenTable(cfg, k, d, p);
    CodeLenMono(cfg, p, p + Pow2(16 - d), 1);
  }

  /** How the size search ends. */
  lemma {:induction false} GrowEnds(cfg: Cfg, w: nat, p: nat, j: nat)
    requires CfgOk(cfg) && w + j <= cfg.g && j <= cfg.l
    ensures var r := GrowBits(cfg, w, p, j);
            j <= r <= cfg.l && w + r <= cfg.g
            && (r > j ==> EndX(cfg, w + r - 1) < p + Pow2(Rest(w)))
            && (w + r == cfg.g || r == cfg.l || EndX(cfg, w + r) >= p + Pow2(Rest(w)))
    decreases 16 - j
  {
    hide EndX, Pow2, ListsOk, ValidLens;
    if !(j >= 15 || w + j >= cfg.g || j >= cfg.l || EndX(cfg, w + j) >= p + Pow2(Rest(w))) {
      GrowEnds(cfg, w, p, j + 1);
    }
  }

  /** The length at which a new table is paid for. */
  lemma {:induction false} OpenCost(cfg: Cfg, k: nat, d: nat, p: nat) returns (i: nat)
    requires CfgOk(cfg) && OnGrid(cfg.l, d) && d < k <= d + cfg.l && k <= cfg.g && p + Pow2(16 - d) <= SPACE && CodeLen(cfg, p, 1) == k
    ensures d < i <= d + cfg.l && i <= cfg.g <= 15
    ensures Cost(cfg, i, p + Pow2(16 - d)) + Pow2(TabBits(cfg, d, p)) <= Cost(cfg, i, p)
  {
    hide EndX, CodesFrom, CodeLen, Pow2, Cost, GrowBits, ListsOk, ValidLens;
    GrowEnds(cfg, d, p, k - d);
    EndXLast(cfg);
    var j := TabBits(cfg, d, p);
    if j > k - d {
      i := d + j;
      MixedTable(cfg, k, d, i, p);
    } else {
      i := k;
      if EndX(cfg, k) >= p + Pow2(16 - d) { EvenCost(cfg, k, d, p); } else { FullTable(cfg, k, d, p); }
    }
  }

  // ---------------------------------------------------------------- all tables

  lemma {:induction false} LowFewer(v: nat, a: nat, b: nat)
    requires b <= a && Low(v, a) == 0
    ensures Low(v, b) == 0
  {
    LowLow(v, a, b);
  }

  /** Prefix ends, as multiples. */
  lemma {:induction false} UpIs(p: nat, d: nat)
    ensures Up(p, d) == Shl(Shr(p, Rest(d)) + 1, Rest(d)) > p
  {
    var n := Rest(d);
    Split(p, n);
    ShlAdd(Shr(p, n), 1, n);
    ShlOne(n);
  }

  lemma {:induction false} UpMono(p: nat, p2: nat, d: nat)
    requires p <= p2
    ensures Up(p, d) <= Up(p2, d)
  {
    hide Up, Shl, Shr, Rest;
    UpIs(p, d);
    UpIs(p2, d);
    ShrMono(p, p2, Rest(d));
    if Shr(p, Rest(d)) < Shr(p2, Rest(d)) { ShlMono(Shr(p, Rest(d)) + 1, Shr(p2, Rest(d)) + 1, Rest(d)); }
  }

  lemma {:induction false} UpNext(p: nat, p2: nat, d: nat)
    requires p < p2 && Low(p2, Rest(d)) == 0
    ensures Up(p, d) <= p2
  {
    hide Up, Shl, Shr, Rest, Low;
    UpIs(p, d);
    Split(p2, Rest(d));
    Split(p, Rest(d));
    ShrMono(p, p2, Rest(d));
    if Shr(p, Rest(d)) + 1 < Shr(p2, Rest(d)) { ShlMono(Shr(p, Rest(d)) + 1, Shr(p2, Rest(d)), Rest(d)); }
  }

  lemma {:induction false} WholeFits(p: nat, d: nat)
    requires p < SPACE && d <= 16 && Low(p, 16 - d) == 0
    ensures p + Pow2(16 - d) <= SPACE
  {
    WholeLow(d);
    RestIs(d);
    UpNext(p, SPACE, d);
  }

  lemma {:induction false} LeaveClosed(cfg: Cfg, w: nat, p: nat, h: nat)
    requires 0 < cfg.l && OnGrid(cfg.l, w) && OnGrid(cfg.l, h) && Leave(cfg, w, p) < h <= w
    ensures Low(p, Rest(h)) == 0
    decreases w
  {
    hide Low, Rest;
    if h < w {
      GridStep(cfg.l, h, w);
      LeaveClosed(cfg, w - cfg.l, p, h);
    }
  }

  lemma {:induction false} GridStep(l: nat, h: nat, w: nat)
    requires OnGrid(l, h) && OnGrid(l, w) && h < w
    ensures h + l <= w
  {
    if h > 0 { GridStep(l, h - l, w - l); }
  }

  lemma {:induction false} LeaveGrid(cfg: Cfg, w: nat, p: nat)
    requires OnGrid(cfg.l, w)
    ensures OnGrid(cfg.l, Leave(cfg, w, p))
  {
    hide Low, Rest;
    if 0 < cfg.l <= w && Low(p, Rest(w)) == 0 { LeaveGrid(cfg, w - cfg.l, p); }
  }

  lemma {:induction false} LeaveUp(cfg: Cfg, w: nat, p: nat)
    requires 0 < cfg.l && OnGrid(cfg.l, w) && Leave(cfg, w, p) < w
    ensures Leave(cfg, w, p) + cfg.l <= w && OnGrid(cfg.l, Leave(cfg, w, p) + cfg.l)
  {
    LeaveGrid(cfg, w, p);
    GridStep(cfg.l, Leave(cfg, w, p), w);
    hide Leave;
  }

  /** Where huft_build can be between two codes. */
  ghost predicate Between(cfg: Cfg, p: nat, w: nat)
  {
    CfgOk(cfg) && Compact(cfg.lens, cfg.g, cfg.l, 0) && OnGrid(cfg.l, w) && p <= SPACE
    && Low(p, Rest(w + cfg.l)) == 0 && (p < SPACE ==> Low(p, Rest(CodeLen(cfg, p, 1))) == 0)
  }

  /** After one more code. */
  lemma {:induction false} BetweenNext(cfg: Cfg, p: nat, w: nat, k: nat)
    requires Between(cfg, p, w) && p < SPACE && k == CodeLen(cfg, p, 1) && 1 <= k <= w + cfg.l && k <= 15
    ensures var p2 := p + Pow2(16 - k); Between(cfg, p2, Leave(cfg, w, p2))
  {
    hide CodeLen, Low, Pow2, Leave, CfgOk, Compact;
    assert cfg.l >= 1 by { Positive(cfg); }
    var p2 := p + Pow2(16 - k);
    WholeFits(p, k);
    ShlOne(16 - k);
    SumLow(p, 1, 16 - k);
    CodeLenMono(cfg, p, p2, 1);
    LowFewer(p2, 16 - k, Rest(CodeLen(cfg, p2, 1)));
    LeaveGrid(cfg, w, p2);
    if Leave(cfg, w, p2) < w {
      LeaveUp(cfg, w, p2);
      LeaveClosed(cfg, w, p2, Leave(cfg, w, p2) + cfg.l);
    } else {
      LowFewer(p2, 16 - k, Rest(w + cfg.l));
    }
  }

  lemma {:induction false} Positive(cfg: Cfg)
    requires CfgOk(cfg)
    ensures 1 <= cfg.l <= cfg.g <= 15
  {
  }

  lemma {:induction false} NextCosts(cfg: Cfg, p: nat, w: nat, p2: nat)
    requires CfgOk(cfg) && OnGrid(cfg.l, w) && p < p2
    ensures Costs(cfg, p2, Leave(cfg, w, p2), cfg.g) <= Costs(cfg, p, w, cfg.g)
  {
    hide CfgOk, Low, Rest, Up, Leave, Home, Costs, Cost;
    Positive(cfg);
    var w2 := Leave(cfg, w, p2);
    forall n | cfg.l < n <= cfg.g ensures NextStart(p, w, Home(cfg.l, n)) <= NextStart(p2, w2, Home(cfg.l, n)) {
      var h := Home(cfg.l, n);
      HomeGrid(cfg.l, n);
      UpMono(p, p2, h);
      if w2 < h <= w {
        LeaveClosed(cfg, w, p2, h);
        UpNext(p, p2, h);
      }
    }
    CostsLess(cfg, p, w, p2, w2, cfg.g, 17, 0);
  }

  /** A new table, from depth w to d. */
  lemma {:induction false} OpenCosts(cfg: Cfg, p: nat, w: nat, d: nat, k: nat)
    requires CfgOk(cfg) && OnGrid(cfg.l, d) && w < d < k <= d + cfg.l && k <= cfg.g && p < SPACE && Low(p, 16 - d) == 0 && CodeLen(cfg, p, 1) == k
    ensures Costs(cfg, p, d, cfg.g) + Pow2(TabBits(cfg, d, p)) <= Costs(cfg, p, w, cfg.g)
  {
    hide CfgOk, Low, Up, Home, Costs, Cost, TabBits, CodeLen, Pow2;
    Positive(cfg);
    WholeFits(p, d);
    var i := OpenCost(cfg, k, d, p);
    HomeAt(cfg.l, d, i);
    forall n | cfg.l < n <= cfg.g ensures NextStart(p, w, Home(cfg.l, n)) <= NextStart(p, d, Home(cfg.l, n)) {
      UpIs(p, Home(cfg.l, n));
    }
    RestIs(d);
    UpWhole(p, d);
    GridStep(cfg.l, 0, d);
    CostsLess(cfg, p, w, p, d, cfg.g, i, Pow2(TabBits(cfg, d, p)));
  }

  lemma {:induction false} UpWhole(p: nat, d: nat)
    requires Low(p, Rest(d)) == 0
    ensures Up(p, d) == p + Pow2(Rest(d))
  {
  }

  /** No table needs to go on before it holds a code. */
  lemma {:induction false} OpenReach(cfg: Cfg, p: nat, d: nat)
    requires CfgOk(cfg) && Compact(cfg.lens, cfg.g, cfg.l, 0) && OnGrid(cfg.l, d) && d < 16 && p < SPACE && Low(p, 16 - d) == 0
    ensures CodeLen(cfg, p, 1) <= d + cfg.l
  {
    hide CodeLen, Low, Pow2, Compact, OnGrid, End;
    Positive(cfg);
    WholeFits(p, d);
    CompactAt(cfg.lens, cfg.g, cfg.l, 0, d);
    CompactUnfold(cfg.lens, cfg.g, cfg.l, d);
    CodeLenAtMost(cfg, p, d + cfg.l, 1);
  }

  lemma {:induction false} SpaceBound(cfg: Cfg, p: nat, w: nat)
    requires Between(cfg, p, w)
    ensures cfg.l >= 1 && cfg.g <= 16 && Space(cfg, p, w) <= Costs(cfg, p, w, cfg.g)
    decreases SPACE - p, 20 - w
  {
    hide CodeLen, Low, Pow2, Leave, CfgOk, Compact, Costs, TabBits, EndX, OnGrid;
    Positive(cfg);
    if p < SPACE {
      CodeLenFacts(cfg, p, 1);
      var k := CodeLen(cfg, p, 1);
      if k > w + cfg.l {
        var d := w + cfg.l;
        GridOn(cfg.l, w);
        OpenReach(cfg, p, d);
        OpenCosts(cfg, p, w, d, k);
        LowFewer(p, Rest(d), Rest(d + cfg.l));
        SpaceBound(cfg, p, d);
      } else {
        var p2 := p + Pow2(16 - k);
        BetweenNext(cfg, p, w, k);
        NextCosts(cfg, p, w, p2);
        SpaceBound(cfg, p2, Leave(cfg, w, p2));
      }
    }
  }

  lemma {:induction false} GridOn(l: nat, w: nat)
    requires OnGrid(l, w) && l > 0
    ensures OnGrid(l, w + l)
  {
  }

  // ---------------------------------------------------------------- the bound

  /** What Costs grants beyond one entry for every code. */
  function Extras(l: nat, i: nat): nat
  {
    if i <= l then 0
    else Extras(l, i - 1) + Pow2(i - Home(l, i)) + if i == Home(l, i) + l then Pow2(l) else 0
  }

  /** No dummy codes are needed. */
  ghost predicate Whole(cfg: Cfg)
  {
    CfgOk(cfg) && End(cfg.lens, cfg.g) == SPACE
  }

  lemma {:induction false} CodesAre(cfg: Cfg, i: nat)
    requires Whole(cfg) && 1 <= i <= cfg.g
    ensures CodesFrom(cfg, i, 0) == Count(cfg.lens, i)
  {
    Positive(cfg);
    assert EndX(cfg, i) == End(cfg.lens, i) && EndX(cfg, i - 1) == End(cfg.lens, i - 1);
    EndUnfold(cfg.lens, i);
    hide EndX, End, Shr, Count, Shl, CfgOk;
    CodesFromIs(cfg, i, EndX(cfg, i - 1));
    ShrOfShl(Count(cfg.lens, i), 16 - i);
  }

  lemma {:induction false} CostsBound(cfg: Cfg, i: nat)
    requires Whole(cfg) && cfg.l <= i <= cfg.g
    ensures Costs(cfg, 0, 0, i) + Below(cfg.lens, cfg.l + 1) <= Below(cfg.lens, i + 1) + Extras(cfg.l, i)
  {
    hide CodesFrom, CodeLen, Count, Pow2, Whole;
    WholeOk(cfg);
    if i > cfg.l {
      CostsBound(cfg, i - 1);
      CodesAre(cfg, i);
      HomeGrid(cfg.l, i);
      HomePositive(cfg.l, i);
    }
  }

  lemma {:induction false} WholeOk(cfg: Cfg)
    requires Whole(cfg)
    ensures CfgOk(cfg) && 1 <= cfg.l <= cfg.g <= 15
  {
  }

  lemma {:induction false} HomePositive(l: nat, i: nat)
    requires 0 < l < i
    ensures Home(l, i) > 0
  {
  }

  lemma {:induction false} RootSpace(cfg: Cfg)
    requires CfgOk(cfg) && Compact(cfg.lens, cfg.g, cfg.l, 0)
    ensures cfg.l >= 1 && cfg.g <= 16 && TableSpace(cfg) <= Pow2(cfg.l) + Costs(cfg, 0, 0, cfg.g)
  {
    hide CodeLen, Low, Leave, CfgOk, Compact, Costs, EndX, GrowBits, Pow2;
    Positive(cfg);
    LowOfZero(Rest(cfg.l));
    LowOfZero(16);
    LowOfZero(Rest(CodeLen(cfg, 0, 1)));
    CodeLenFacts(cfg, 0, 1);
    OpenReach(cfg, 0, 0);
    GrowEnds(cfg, 0, 0, CodeLen(cfg, 0, 1));
    Pow2Mono(TabBits(cfg, 0, 0), cfg.l);
    SpaceBound(cfg, 0, 0);
    hide Space;
    SpaceFirst(cfg);
  }

  lemma {:induction false} SpaceFirst(cfg: Cfg)
    requires CfgOk(cfg) && CodeLen(cfg, 0, 1) <= 15
    ensures cfg.l >= 1 && TableSpace(cfg) == Pow2(TabBits(cfg, 0, 0)) + Space(cfg, 0, 0)
  {
    hide CodeLen, TabBits, Pow2, Leave;
  }

  lemma {:induction false} ExtrasNine()
    ensures Extras(9, 15) == 126
  {
    assert Extras(9, 11) == 6;
    assert Extras(9, 13) == 30;
  }

  lemma {:induction false} ExtrasSix()
    ensures Extras(6, 15) == 204
  {
    assert Extras(6, 8) == 6;
    assert Extras(6, 10) == 30;
    assert Extras(6, 12) == 190;
  }

  lemma {:induction false} ExtrasAre()
    ensures Extras(9, 15) == 126 && Extras(6, 15) == 204
  {
    hide Extras;
    ExtrasNine();
    ExtrasSix();
  }

  lemma {:induction false} ExtrasMono(l: nat, i: nat, n: nat)
    requires i <= n
    ensures Extras(l, i) <= Extras(l, n)
    decreases n
  {
    hide Pow2, Home;
    if i < n { ExtrasMono(l, i, n - 1); }
  }

  /** One entry for every code beyond the first table, the first table, and the extras. */
  lemma {:induction false} WholeSpace(cfg: Cfg)
    requires Whole(cfg) && Compact(cfg.lens, cfg.g, cfg.l, 0)
    ensures cfg.l >= 1 && cfg.g <= 16 && TableSpace(cfg) <= Pow2(cfg.l) + |cfg.lens| + Extras(cfg.l, 15)
  {
    hide TableSpace, Costs, Compact, Whole, Extras, Below, Pow2;
    WholeOk(cfg);
    RootSpace(cfg);
    CostsBound(cfg, cfg.g);
    ExtrasMono(cfg.l, cfg.g, 15);
    BelowBound(cfg.lens, cfg.g + 1);
  }

  /** One table is all, if it indexes the longest code. */
  lemma {:induction false} OneSpace(cfg: Cfg)
    requires CfgOk(cfg) && cfg.l == cfg.g
    ensures cfg.l >= 1 && TableSpace(cfg) <= Pow2(cfg.l)
  {
    hide TableSpace, CfgOk;
    Positive(cfg);
    RootSpace(cfg);
  }

  /** And it takes its whole size. */
  lemma {:induction false} OneTable(cfg: Cfg)
    requires CfgOk(cfg) && cfg.l == cfg.g && Count(cfg.lens, cfg.g) > 0
    ensures cfg.l >= 1 && TableSpace(cfg) >= Pow2(cfg.l)
  {
    hide CfgOk, Space, TabBits, CodeLen, Count, Low;
    Positive(cfg);
    CodeLenFacts(cfg, 0, 1);
    RootBitsAre(cfg, 0);
    LowOfZero(Rest(0));
    SpaceFirst(cfg);
  }

  // ---------------------------------------------------------------- how far lookups look

  lemma {:induction false} PrefixAt(q: nat, w: nat)
    requires q < SPACE && w <= 16
    ensures var p := q - Low(q, Rest(w)); Low(p, 16 - w) == 0 && p <= q < p + Pow2(16 - w)
  {
    RestIs(w);
    Split(q, 16 - w);
    ShrOfShl(Shr(q, 16 - w), 16 - w);
  }

  /** The table size at depth w, for a code at position q. */
  lemma {:induction false} SizeStops(cfg: Cfg, q: nat, w: nat)
    requires CfgOk(cfg) && Compact(cfg.lens, cfg.g, cfg.l, 0) && OnGrid(cfg.l, w) && w < CodeLen(cfg, q, 1) && q < SPACE
    ensures w < cfg.g && var j := TabBits(cfg, w, q - Low(q, Rest(w)));
            j <= cfg.l && w + j <= cfg.g && (j < cfg.l ==> CodeLen(cfg, q, 1) <= w + j)
  {
    hide CodeLen, Low, Pow2, Compact, OnGrid, GrowBits, EndX, CfgOk;
    Positive(cfg);
    CodeLenFacts(cfg, q, 1);
    PrefixAt(q, w);
    var p := q - Low(q, Rest(w));
    CodeLenFacts(cfg, p, 1);
    OpenReach(cfg, p, w);
    var k := CodeLen(cfg, p, 1);
    RestIs(w);
    GrowEnds(cfg, w, p, if k >= w then k - w else 0);
    var j := TabBits(cfg, w, p);
    if j < cfg.l {
      if w + j < cfg.g { CodeLenAtMost(cfg, q, w + j, 1); }
    }
  }

  /** No lookup looks further than l - 1 bits past the code. */
  lemma {:induction false} ReachClose(cfg: Cfg, q: nat, w: nat)
    requires CfgOk(cfg) && Compact(cfg.lens, cfg.g, cfg.l, 0) && OnGrid(cfg.l, w) && w < CodeLen(cfg, q, 1) && q < SPACE
    ensures ReachOf(cfg, q, w) < CodeLen(cfg, q, 1) + cfg.l
    decreases 16 - w
  {
    hide CodeLen, Low, Pow2, Compact, TabBits, CfgOk, Rest, OnGrid;
    Positive(cfg);
    SizeStops(cfg, q, w);
    GridOn(cfg.l, w);
    if CodeLen(cfg, q, 1) > w + cfg.l && w + cfg.l <= 16 { ReachClose(cfg, q, w + cfg.l); }
  }

  /** A lookup in a single table looks at its index bits. */
  lemma {:induction false} OneReach(cfg: Cfg, q: nat)
    requires CfgOk(cfg) && cfg.l == cfg.g && Count(cfg.lens, cfg.g) > 0 && q < SPACE
    ensures ReachOf(cfg, q, 0) == cfg.l
  {
    hide CodeLen, Low, Pow2, TabBits, CfgOk, EndX, Count;
    Positive(cfg);
    CodeLenFacts(cfg, q, 1);
    SizeStops(cfg, q, 0);
    RootBitsAre(cfg, q);
  }

  lemma {:induction false} RootBitsAre(cfg: Cfg, q: nat)
    requires CfgOk(cfg) && cfg.l == cfg.g && Count(cfg.lens, cfg.g) > 0 && q < SPACE
    ensures TabBits(cfg, 0, q - Low(q, Rest(0))) == cfg.l
  {
    hide CodeLen, Low, Pow2, GrowBits, CfgOk, EndX, Count;
    Positive(cfg);
    Pow2Values();
    LowWhole(q);
    CodeLenFacts(cfg, 0, 1);
    var k := CodeLen(cfg, 0, 1);
    GrowEnds(cfg, 0, 0, k);
    var j := GrowBits(cfg, 0, 0, k);
    if j < cfg.g { BelowLast(cfg, j); }
  }

  lemma {:induction false} LowWhole(q: nat)
    requires q < SPACE
    ensures Rest(0) == 16 && Low(q, 16) == q
  {
    Pow2Values();
    ShrZero(q, 16);
  }
}
