/** The multi-level lookup tables of DuiLib/XUnzip.cpp: what an entry is, how a decoder walks
    them, and what it means for a table to agree with the canonical code. */
module HuftSpec {
  import opened Bits
  import opened Canonical

  /** struct inflate_huft_s. */
  datatype Huft = Huft(exop: nat, bits: nat, base: nat)

  /** The decoders take an entry as "next table" when it is not a literal and has neither 16 nor 64 set. */
  predicate IsLink(e: Huft)
  {
    e.exop != 0 && e.exop / 16 % 2 == 0 && e.exop / 64 % 2 == 0
  }

  /** A leaf, the bits used up to and with it, the widest index on the way and the last bit looked at; or no way to
      go on. */
  datatype WalkResult = Leaf(entry: Huft, used: nat, widest: nat, reach: nat) | Stray

  /** The table walk of inflate_codes over the stream b, started at table t with an index of need bits.
      No entry may use more bits than it was found by, and a link uses all of them. */
  ghost function Walk(h: seq<Huft>, t: nat, need: nat, b: nat): WalkResult
    decreases |h| - t
  {
    var a := t + Low(b, need);
    if a >= |h| || h[a].bits > need then Stray
    else if !IsLink(h[a]) then Leaf(h[a], h[a].bits, need, need)
    else if h[a].base == 0 || h[a].bits != need || need == 0 || h[a].exop > MAXBITS then Stray
    else match Walk(h, a + h[a].base, h[a].exop, Shr(b, h[a].bits))
      case Leaf(e, u, n, m) => Leaf(e, u + h[a].bits, Max(n, need), Max(m + h[a].bits, need))
      case Stray => Stray
  }

  function Max(a: nat, b: nat): nat { if a < b then b else a }

  /** What huft_build is asked for: lengths, number of simple symbols, base and extra-bit lists
      for the others; the longest code g and the index size l of the first table. */
  datatype Cfg = Cfg(lens: seq<nat>, s: nat, d: seq<nat>, e: seq<nat>, g: nat, l: nat)

  ghost predicate CfgOk(cfg: Cfg)
  {
    ValidLens(cfg.lens) && 1 <= cfg.l <= cfg.g <= MAXBITS
    && (forall i :: 0 <= i < |cfg.lens| ==> cfg.lens[i] <= cfg.g)
    && End(cfg.lens, cfg.g) <= SPACE
    && ListsOk(|cfg.lens|, cfg.s, cfg.d, cfg.e)
  }

  /** The caller's lists cover the symbols from s on, and their entries are marked as leaves. */
  ghost predicate ListsOk(n: nat, s: nat, d: seq<nat>, e: seq<nat>)
  {
    n <= s + |d| && |d| == |e| && forall i :: 0 <= i < |e| ==> (e[i] + 16 + 64) / 64 % 2 == 1 && e[i] + 16 + 64 < 256
  }

  function Exop(cfg: Cfg, i: nat): nat
    requires cfg.s <= i ==> i - cfg.s < |cfg.e|
  {
    if i < cfg.s then (if i < 256 then 0 else 32 + 64) else cfg.e[i - cfg.s] + 16 + 64
  }

  function Base(cfg: Cfg, i: nat): nat
    requires cfg.s <= i ==> i - cfg.s < |cfg.d|
  {
    if i < cfg.s then i else cfg.d[i - cfg.s]
  }

  const INVALID: nat := 128 + 64

  /** The symbol that owns position q. */
  ghost function SymAt(lens: seq<nat>, q: nat): (r: Option<nat>)
    ensures r.Some? ==> Covers(lens, r.value, q)
    ensures r.None? ==> forall i :: !Covers(lens, i, q)
  {
    if exists i :: Covers(lens, i, q) then
      var i :| Covers(lens, i, q);
      Some(i)
    else None
  }

  /** Codes of length at most k, with the unused tail of the code space given to length g. */
  ghost function EndX(cfg: Cfg, k: nat): nat
  {
    if k >= cfg.g || k > 16 then SPACE else End(cfg.lens, k)
  }

  /** An entry made when n symbols have been given out keeps the base field of the entry made before it: the last
      symbol given out, if all symbols are simple and there is one table only. */
  ghost predicate StaleAt(cfg: Cfg, n: nat, base: nat)
  {
    cfg.l == cfg.g && cfg.s >= |cfg.lens| && n > 0 ==>
      base < |cfg.lens| && cfg.lens[base] > 0 && Slot(cfg.lens, base) == n - 1
  }

  /** The base field of an entry for no code. */
  ghost predicate Stale(cfg: Cfg, base: nat)
  {
    StaleAt(cfg, Below(cfg.lens, cfg.g + 1), base)
  }

  /** Entry e of a table w bits deep is right for the positions around q. */
  ghost predicate LeafFor(cfg: Cfg, e: Huft, w: nat, q: nat)
  {
    match SymAt(cfg.lens, q)
    case Some(i) =>
      i < |cfg.lens| && (cfg.s <= i ==> i - cfg.s < |cfg.d| && i - cfg.s < |cfg.e|)
      && w + e.bits == cfg.lens[i] && e.exop == Exop(cfg, i) && e.base == Base(cfg, i)
    case None => w + e.bits == cfg.g && e.exop == INVALID && Stale(cfg, e.base)
  }

  /** A table: how many bits precede it, how many bits index it, and the w-bit prefix it decodes under. */
  datatype Tab = Tab(w: nat, j: nat, c: nat)

  function Min(a: nat, b: nat): nat { if a < b then a else b }

  /** The index bits that lead anywhere: a deeper table hangs below exactly l bits. */
  function Width(cfg: Cfg, t: Tab): nat
  {
    Min(t.j, cfg.l)
  }

  /** The prefix an index of table t stands for. */
  function EntryCode(cfg: Cfg, t: Tab, x: nat): nat
  {
    Shl(t.c, Width(cfg, t)) + Rev(x, Width(cfg, t))
  }

  /** The position bits after the first n. */
  function Rest(n: nat): nat { if n <= 16 then 16 - n else 0 }

  /** The first position with that prefix. */
  function EntryPos(cfg: Cfg, t: Tab, x: nat): nat
  {
    Shl(EntryCode(cfg, t, x), Rest(t.w + Width(cfg, t)))
  }

  /** The first position with the prefix of table t. */
  function TabStart(t: Tab): nat
  {
    Shl(t.c, Rest(t.w))
  }

  /** The first position past the prefix of table t. */
  function TabEnd(t: Tab): nat
  {
    TabStart(t) + Pow2(Rest(t.w))
  }

  // ---------------------------------------------------------------- the size of a table

  /** The length of the code at position p, sought from k on. */
  ghost function CodeLen(cfg: Cfg, p: nat, k: nat): (n: nat)
    ensures n >= k
    decreases 16 - k
  {
    if k >= 15 || p < EndX(cfg, k) then k else CodeLen(cfg, p, k + 1)
  }

  /** The index size of the table opened at position p and depth w: from j bits on, the first size that
      the codes of that length and less fill, but no more than l bits or than the longest code needs. */
  ghost function GrowBits(cfg: Cfg, w: nat, p: nat, j: nat): nat
    decreases 16 - j
  {
    if j >= 15 || w + j >= cfg.g || j >= cfg.l || EndX(cfg, w + j) >= p + Pow2(Rest(w)) then j
    else GrowBits(cfg, w, p, j + 1)
  }

  ghost function TabBits(cfg: Cfg, w: nat, p: nat): nat
  {
    var k := CodeLen(cfg, p, 1);
    GrowBits(cfg, w, p, if k >= w then k - w else 0)
  }

  /** The last bit looked at, from depth w on, when the code at position q is looked up. */
  ghost function ReachOf(cfg: Cfg, q: nat, w: nat): nat
    decreases 16 - w
  {
    var j := TabBits(cfg, w, q - Low(q, Rest(w)));
    if CodeLen(cfg, q, 1) <= w + j || cfg.l == 0 || w + cfg.l > 16 then w + j else ReachOf(cfg, q, w + cfg.l)
  }

  ghost predicate TabOk(cfg: Cfg, t: Tab)
  {
    cfg.g <= 15 && 1 <= t.j && t.w + t.j <= cfg.g && t.c < Pow2(t.w)
    && (t.j >= cfg.l || EndX(cfg, t.w + t.j) >= TabEnd(t))
    && (t.j > cfg.l <==> TabStart(t) >= EndX(cfg, t.w + cfg.l))
    && OnGrid(cfg.l, t.w) && TabStart(t) >= EndX(cfg, t.w) && t.j == TabBits(cfg, t.w, TabStart(t))
  }

  /** A table depth: a multiple of l. */
  predicate OnGrid(l: nat, w: nat)
  {
    w == 0 || (0 < l <= w && OnGrid(l, w - l))
  }

  /** Entry a + x of table a points at table a2. */
  ghost predicate Linked(cfg: Cfg, h: seq<Huft>, tabs: map<nat, Tab>, a: nat, x: nat, a2: nat)
  {
    a in tabs && a2 in tabs && a + x < |h| && a + x < a2
    && tabs[a].j >= cfg.l && tabs[a].w + cfg.l <= 16
    && h[a + x] == Huft(tabs[a2].j, cfg.l, a2 - (a + x))
    && tabs[a2].w == tabs[a].w + cfg.l && tabs[a2].c == EntryCode(cfg, tabs[a], x)
  }

  /** Entry x of table a decodes every stream that reaches it. */
  ghost predicate Good(cfg: Cfg, h: seq<Huft>, tabs: map<nat, Tab>, a: nat, x: nat)
  {
    a in tabs && a + x < |h|
    && ((!IsLink(h[a + x]) && 1 <= h[a + x].bits <= tabs[a].j && LeafFor(cfg, h[a + x], tabs[a].w, EntryPos(cfg, tabs[a], x)))
        || Linked(cfg, h, tabs, a, x, a + x + h[a + x].base))
  }

  /** The codes longer than d + l bits take less room than one d-bit prefix, for every table depth
      d = n, n + l, n + 2l and so on. */
  predicate Compact(lens: seq<nat>, g: nat, l: nat, n: nat)
    requires l >= 1 && g <= 16
    decreases g - n
  {
    n + l >= g || (End(lens, n + l) + Pow2(16 - n) > SPACE && Compact(lens, g, l, n + l))
  }

  // ---------------------------------------------------------------- facts about positions

  lemma {:induction false} SymAtIs(lens: seq<nat>, i: nat, q: nat)
    requires Covers(lens, i, q)
    ensures SymAt(lens, q) == Some(i)
  {
    CoverUnique(lens, i, SymAt(lens, q).value, q);
  }

  lemma {:induction false} SymAtNone(lens: seq<nat>, q: nat)
    requires ValidLens(lens) && q >= End(lens, 15)
    ensures SymAt(lens, q) == None
  {
    if SymAt(lens, q).Some? {
      var i := SymAt(lens, q).value;
      CoverBelowEnd(lens, i, q);
      EndMono(lens, lens[i], 15);
      assert false;
    }
  }

  lemma {:induction false} SymAtNoneEnd(lens: seq<nat>, q: nat)
    requires ValidLens(lens) && SymAt(lens, q) == None
    ensures q >= End(lens, 15)
  {
    if q < End(lens, 15) {
      var i := CoverExists(lens, 15, q);
      assert false;
    }
  }

  lemma {:induction false} DecodeIsSymAt(lens: seq<nat>, b: nat)
    requires ValidLens(lens)
    ensures Decode(lens, b) == SymAt(lens, Rev(b, 16))
  {
    var q := Rev(b, 16);
    if Decode(lens, b).Some? {
      ReadsIsCovers(lens, Decode(lens, b).value, b);
      SymAtIs(lens, Decode(lens, b).value, q);
    } else if SymAt(lens, q).Some? {
      ReadsIsCovers(lens, SymAt(lens, q).value, b);
    }
  }

  /** A symbol that owns the first position of a prefix at least as long as its code owns all of it. */
  lemma {:induction false} CoversPrefix(lens: seq<nat>, i: nat, d: nat, c: nat, q: nat)
    requires d <= 16 && Covers(lens, i, Shl(c, 16 - d)) && lens[i] <= d && Shr(q, 16 - d) == c
    ensures Covers(lens, i, q)
  {
    var n := lens[i];
    ShrInterval(Shl(c, 16 - d), Code(lens, i), 16 - n);
    ShrOfShl(c, 16 - d);
    ShrShr(Shl(c, 16 - d), 16 - d, d - n);
    ShrShr(q, 16 - d, d - n);
    ShrInterval(q, Code(lens, i), 16 - n);
  }

  // ---------------------------------------------------------------- a finished set of tables decodes

  ghost predicate AllGood(cfg: Cfg, h: seq<Huft>, tabs: map<nat, Tab>)
  {
    forall a :: a in tabs ==>
      TabOk(cfg, tabs[a]) && tabs[a].j <= cfg.l
      && forall x :: 0 <= x < Pow2(tabs[a].j) ==> Good(cfg, h, tabs, a, x)
  }

  lemma {:induction false} IndexPrefix(cfg: Cfg, t: Tab, b: nat)
    requires t.j <= cfg.l && t.w + t.j <= 16 && Rev(b, t.w) == t.c
    ensures EntryCode(cfg, t, Low(Shr(b, t.w), t.j)) == Rev(b, t.w + t.j)
  {
    RevAppend(b, t.w, t.j);
    RevLow(Shr(b, t.w), t.j, t.j);
  }

  lemma {:induction false} EndXMono(cfg: Cfg, a: nat, b: nat)
    requires CfgOk(cfg) && a <= b
    ensures EndX(cfg, a) <= EndX(cfg, b)
  {
    if b < cfg.g {
      EndMono(cfg.lens, a, b);
    } else if a < cfg.g {
      EndMono(cfg.lens, a, cfg.g);
    }
  }

  lemma {:induction false} TabHolds(t: Tab, p: nat)
    ensures TabStart(t) <= p < TabEnd(t) <==> Shr(p, Rest(t.w)) == t.c
  {
    ShrInterval(p, t.c, Rest(t.w));
  }

  lemma {:induction false} CodeLenAtMost(cfg: Cfg, q: nat, k: nat, from: nat)
    requires from <= k && q < EndX(cfg, k)
    ensures CodeLen(cfg, q, from) <= k
    decreases k - from
  {
    hide EndX;
    if from < k { CodeLenAtMost(cfg, q, k, from + 1); }
  }

  lemma {:induction false} CodeLenBeyond(cfg: Cfg, q: nat, w: nat, from: nat)
    requires CfgOk(cfg) && EndX(cfg, w) <= q && from <= w + 1 && w < 15
    ensures CodeLen(cfg, q, from) > w
    decreases w + 1 - from
  {
    hide EndX, CfgOk;
    if from <= w {
      EndXMono(cfg, from, w);
      CodeLenBeyond(cfg, q, w, from + 1);
    }
  }

  lemma {:induction false} PrefixStart(t: Tab, q: nat)
    requires Shr(q, Rest(t.w)) == t.c
    ensures q - Low(q, Rest(t.w)) == TabStart(t) <= q
  {
    Split(q, Rest(t.w));
  }

  /** The code at q ends in table t. */
  lemma {:induction false} ReachLeaf(cfg: Cfg, t: Tab, q: nat)
    requires TabOk(cfg, t) && Shr(q, Rest(t.w)) == t.c && CodeLen(cfg, q, 1) <= t.w + t.j
    ensures ReachOf(cfg, q, t.w) == t.w + t.j
  {
    hide EndX, CodeLen, TabBits, TabStart, TabEnd, OnGrid, Shr, Low, Pow2, Shl;
    PrefixStart(t, q);
  }

  /** The code at q goes on in table t2 below table t. */
  lemma {:induction false} ReachLink(cfg: Cfg, t: Tab, t2: Tab, q: nat)
    requires CfgOk(cfg) && TabOk(cfg, t) && t.j == cfg.l && Shr(q, Rest(t.w)) == t.c
    requires TabOk(cfg, t2) && t2.w == t.w + cfg.l && Shr(q, Rest(t2.w)) == t2.c
    ensures ReachOf(cfg, q, t.w) == ReachOf(cfg, q, t2.w)
  {
    hide EndX, CodeLen, TabBits, TabStart, TabEnd, OnGrid, Shr, Low, Pow2, Shl, ListsOk, ValidLens;
    PrefixStart(t, q);
    PrefixStart(t2, q);
    CodeLenBeyond(cfg, q, t2.w, 1);
  }

  /** A leaf is for a code no longer than its bits. */
  lemma {:induction false} LeafLen(cfg: Cfg, e: Huft, w: nat, q: nat)
    requires CfgOk(cfg) && LeafFor(cfg, e, w, q) && q < SPACE && w + e.bits >= 1
    ensures CodeLen(cfg, q, 1) <= w + e.bits
  {
    hide Exop, Base, CodeLen;
    match SymAt(cfg.lens, q)
    case Some(i) =>
      CoverBelowEnd(cfg.lens, i, q);
      if cfg.lens[i] < cfg.g { assert EndX(cfg, cfg.lens[i]) == End(cfg.lens, cfg.lens[i]); }
      CodeLenAtMost(cfg, q, w + e.bits, 1);
    case None =>
      CodeLenAtMost(cfg, q, w + e.bits, 1);
  }

  /** Walking from table a, under whose prefix the stream b lies. */
  lemma {:induction false} WalkGood(cfg: Cfg, h: seq<Huft>, tabs: map<nat, Tab>, a: nat, b: nat)
    requires CfgOk(cfg) && AllGood(cfg, h, tabs) && a in tabs && Rev(b, tabs[a].w) == tabs[a].c
    ensures var r := Walk(h, a, tabs[a].j, Shr(b, tabs[a].w));
            r.Leaf? && !IsLink(r.entry) && r.entry.bits >= 1 && r.widest <= cfg.l && tabs[a].w + r.reach == ReachOf(cfg, Rev(b, 16), tabs[a].w) <= cfg.g
              && LeafFor(cfg, Huft(r.entry.exop, r.used, r.entry.base), tabs[a].w, Rev(b, 16))
    decreases |h| - a
  {
    hide Pow2, Rev, Shr, Shl, Low, SymAt, EntryCode, EndX, OnGrid, TabStart, TabEnd, Exop, Base, TabBits, ReachOf, CodeLen, Stale, LeafFor, CfgOk, Walk, IsLink;
    var t := tabs[a];
    var x := Low(Shr(b, t.w), t.j);
    assert Good(cfg, h, tabs, a, x);
    IndexPrefix(cfg, t, b);
    var e := h[a + x];
    WalkOne(h, a, t.j, Shr(b, t.w));
    var d := t.w + t.j;
    TopOfRev(b, d, 16);
    TopOfRev(b, t.w, 16);
    PositionBound(b);
    if IsLink(e) {
      var a2 := a + x + e.base;
      assert Linked(cfg, h, tabs, a, x, a2);
      WalkGood(cfg, h, tabs, a2, b);
      ShrShr(b, t.w, cfg.l);
      TopOfRev(b, tabs[a2].w, 16);
      ReachLink(cfg, t, tabs[a2], Rev(b, 16));
      var r2 := Walk(h, a2, tabs[a2].j, Shr(b, tabs[a2].w));
      LeafDeeper(cfg, r2, t.w, Rev(b, 16));
    } else {
      if Linked(cfg, h, tabs, a, x, a + x + e.base) {
        LinkIsLink(e);
        assert false;
      }
      LeafCovers(cfg, e, t.w, d, Rev(b, d), Rev(b, 16));
      LeafLen(cfg, e, t.w, Rev(b, 16));
      ReachLeaf(cfg, t, Rev(b, 16));
    }
  }

  lemma {:induction false} WalkOne(h: seq<Huft>, t: nat, need: nat, b: nat)
    requires t + Low(b, need) < |h| && h[t + Low(b, need)].bits <= need
    ensures var a := t + Low(b, need);
            Walk(h, t, need, b) ==
            if !IsLink(h[a]) then Leaf(h[a], h[a].bits, need, need)
            else if h[a].base == 0 || h[a].bits != need || need == 0 || h[a].exop > MAXBITS then Stray
            else match Walk(h, a + h[a].base, h[a].exop, Shr(b, h[a].bits))
              case Leaf(e, u, n, m) => Leaf(e, u + h[a].bits, Max(n, need), Max(m + h[a].bits, need))
              case Stray => Stray
  {
    hide Low, Shr, IsLink;
  }

  lemma {:induction false} LeafDeeper(cfg: Cfg, r: WalkResult, w: nat, q: nat)
    requires r.Leaf? && LeafFor(cfg, Huft(r.entry.exop, r.used, r.entry.base), w + cfg.l, q)
    ensures LeafFor(cfg, Huft(r.entry.exop, r.used + cfg.l, r.entry.base), w, q)
  {
    hide Exop, Base, Stale;
  }

  lemma {:induction false} PositionBound(b: nat)
    ensures Rev(b, 16) < SPACE
  {
    Pow2Values();
  }

  lemma {:induction false} LinkIsLink(e: Huft)
    requires 1 <= e.exop <= 15
    ensures IsLink(e)
  {
  }

  /** A leaf that is right at the first position of a d-bit prefix is right at all of them. */
  lemma {:induction false} LeafCovers(cfg: Cfg, e: Huft, w: nat, d: nat, c: nat, q: nat)
    requires CfgOk(cfg) && d <= 16 && w + e.bits <= d && Shr(q, 16 - d) == c
    requires LeafFor(cfg, e, w, Shl(c, 16 - d))
    ensures LeafFor(cfg, e, w, q)
  {
    ShrInterval(q, c, 16 - d);
    match SymAt(cfg.lens, Shl(c, 16 - d))
    case Some(i) =>
      CoversPrefix(cfg.lens, i, d, c, q);
      SymAtIs(cfg.lens, i, q);
    case None =>
      SymAtNoneEnd(cfg.lens, Shl(c, 16 - d));
      SymAtNone(cfg.lens, q);
  }

  /** What the root walk of a finished set of tables yields, against the canonical code. */
  ghost predicate DecodesAs(cfg: Cfg, r: WalkResult, b: nat)
  {
    r.Leaf? && r.entry.bits >= 1 && r.widest <= cfg.l && r.reach == ReachOf(cfg, Rev(b, 16), 0) <= MAXBITS && !IsLink(r.entry) && match Decode(cfg.lens, b)
    case Some(i) =>
      i < |cfg.lens| && (cfg.s <= i ==> i - cfg.s < |cfg.d| && i - cfg.s < |cfg.e|)
      && r.used == cfg.lens[i] && r.entry.exop == Exop(cfg, i) && r.entry.base == Base(cfg, i)
    case None => r.used == cfg.g && r.entry.exop == INVALID && Stale(cfg, r.entry.base)
  }

  lemma {:induction false} RootDecodes(cfg: Cfg, h: seq<Huft>, tabs: map<nat, Tab>, a: nat, b: nat)
    requires CfgOk(cfg) && AllGood(cfg, h, tabs) && a in tabs && tabs[a].w == 0
    ensures DecodesAs(cfg, Walk(h, a, tabs[a].j, b), b)
  {
    hide Walk, AllGood, Good, CfgOk, Exop, Base, Pow2, Shr, Rev, IsLink, Decode, ReachOf, Stale, TabBits, SymAt, ValidLens;
    RootPrefix(cfg, h, tabs, a, b);
    WalkGood(cfg, h, tabs, a, b);
    DecodeIsSymAt(cfg.lens, b);
  }

  lemma {:induction false} RootPrefix(cfg: Cfg, h: seq<Huft>, tabs: map<nat, Tab>, a: nat, b: nat)
    requires CfgOk(cfg) && AllGood(cfg, h, tabs) && a in tabs && tabs[a].w == 0
    ensures tabs[a].c == 0 && Rev(b, 0) == 0 && Shr(b, 0) == b && ValidLens(cfg.lens) && cfg.g <= MAXBITS
  {
    hide Good, ListsOk, Walk;
    assert TabOk(cfg, tabs[a]);
  }

  /** The tables in h between lo and hi decode every stream as the canonical code does, whatever else
      the table space holds. */
  ghost predicate Built(cfg: Cfg, h: seq<Huft>, lo: nat, hi: nat)
  {
    lo <= hi <= |h|
    && forall h2: seq<Huft>, b: nat :: |h2| >= hi && (forall i :: lo <= i < hi ==> h2[i] == h[i]) ==>
         DecodesAs(cfg, Walk(h2, lo, cfg.l, b), b)
  }
}
