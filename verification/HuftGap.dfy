/** When huft_build's tables do not decode: some table had to be indexed by more than l bits. */
module HuftGap {
  import opened Bits
  import opened Canonical
  import opened HuftSpec
  import opened HuftTables

  /** The codes longer than d + l bits leave room for a whole d-bit prefix. */
  ghost predicate Loose(cfg: Cfg, d: nat)
  {
    cfg.g <= 15 && OnGrid(cfg.l, d) && d + cfg.l < cfg.g && End(cfg.lens, d + cfg.l) + Pow2(16 - d) <= SPACE
  }

  /** d is the least depth that is too loose. */
  ghost predicate FirstLoose(cfg: Cfg, d: nat)
  {
    Loose(cfg, d) && forall w :: 0 <= w < d ==> !Loose(cfg, w)
  }

  lemma {:induction false} FindLoose(cfg: Cfg, n: nat) returns (d: nat)
    requires CfgOk(cfg) && !Compact(cfg.lens, cfg.g, cfg.l, n) && OnGrid(cfg.l, n)
    ensures Loose(cfg, d)
    decreases cfg.g - n
  {
    if End(cfg.lens, n + cfg.l) + Pow2(16 - n) <= SPACE {
      d := n;
    } else {
      d := FindLoose(cfg, n + cfg.l);
    }
  }

  lemma {:induction false} LeastLoose(cfg: Cfg, n: nat) returns (d: nat)
    requires Loose(cfg, n)
    ensures FirstLoose(cfg, d)
    decreases n
  {
    if exists w :: 0 <= w < n && Loose(cfg, w) {
      var w :| 0 <= w < n && Loose(cfg, w);
      d := LeastLoose(cfg, w);
    } else {
      d := n;
    }
  }

  /** A stream of d ones, l zeros and a one. */
  function Probe(d: nat, l: nat): nat
  {
    Pow2(d) - 1 + Shl(Pow2(l), d)
  }

  lemma {:induction false} OnesLow(d: nat, w: nat)
    requires w <= d
    ensures Low(Pow2(d) - 1, w) == Pow2(w) - 1
  {
    if w > 0 {
      OnesLow(d - 1, w - 1);
      assert (Pow2(d) - 1) / 2 == Pow2(d - 1) - 1;
    }
  }

  lemma {:induction false} OnesRev(w: nat)
    ensures Rev(Pow2(w) - 1, w) == Pow2(w) - 1
  {
    if w > 0 {
      OnesRev(w - 1);
      RevPrepend(1, Pow2(w - 1) - 1, w - 1);
      assert Pow2(w) - 1 == 1 + 2 * (Pow2(w - 1) - 1);
    }
  }

  lemma {:induction false} ProbeBits(d: nat, l: nat, w: nat)
    requires w <= d
    ensures Rev(Probe(d, l), w) == Pow2(w) - 1
    ensures Shr(Probe(d, l), d) == Pow2(l)
  {
    hide Rev, Low, Shr, Shl, Pow2;
    Join(Pow2(d) - 1, Pow2(l), d);
    LowLow(Probe(d, l), d, w);
    OnesLow(d, w);
    RevLow(Probe(d, l), w, w);
    OnesRev(w);
  }

  /** The all-ones prefix of w bits starts one prefix before the end of the code space. */
  lemma {:induction false} OnesStart(w: nat)
    requires w <= 16
    ensures Shl(Pow2(w) - 1, 16 - w) + Pow2(16 - w) == SPACE
  {
    hide Shl, Pow2;
    ShlAdd(Pow2(w) - 1, 1, 16 - w);
    ShlOne(16 - w);
    ShlMul(Pow2(w), 16 - w);
    Pow2Add(w, 16 - w);
    Pow2Values();
  }

  /** No code of length at most n is all ones so far, if codes up to n + l leave a whole prefix free. */
  lemma {:induction false} NoShortOnes(cfg: Cfg, d: nat, n: nat, e: Huft, w: nat, q: nat)
    requires CfgOk(cfg) && Loose(cfg, d) && n <= d && Shr(q, 16 - d) == Pow2(d) - 1 && w + e.bits <= n
    ensures !LeafFor(cfg, e, w, q)
  {
    OnesStart(d);
    ShrInterval(q, Pow2(d) - 1, 16 - d);
    EndMono(cfg.lens, n, d + cfg.l);
    if LeafFor(cfg, e, w, q) {
      var i := SymAt(cfg.lens, q).value;
      CoverBelowEnd(cfg.lens, i, q);
      EndMono(cfg.lens, cfg.lens[i], n);
      assert false;
    }
  }

  /** The final state of a build over zeroed table space, with a least loose depth d. */
  ghost predicate LooseEnd(cfg: Cfg, h0: seq<Huft>, hn0: nat, st: St, d: nat)
  {
    Inv(cfg, h0, hn0, st) && st.p == SPACE && FirstLoose(cfg, d) && 0 < d
    && forall i :: hn0 <= i < |h0| ==> h0[i] == Huft(0, 0, 0)
  }

  lemma {:induction false} TableFacts(cfg: Cfg, h0: seq<Huft>, hn0: nat, st: St, d: nat, a: nat, b: nat)
    requires LooseEnd(cfg, h0, hn0, st, d) && a in st.tabs && st.tabs[a].w <= d && st.tabs[a].c == Rev(b, st.tabs[a].w)
    requires b == Probe(d, cfg.l)
    ensures TabOk(cfg, st.tabs[a]) && hn0 <= a && a + Pow2(st.tabs[a].j) <= |st.h| && cfg.l >= 1
    ensures st.tabs[a].w == d <==> st.tabs[a].j > cfg.l
  {
    hide Gaps, Filled, Stack, Closed, Aligned, Shl, Pow2, Rev, End, Probe;
    var t := st.tabs[a];
    assert TabOk(cfg, t);
    hide Mem;
    ProbeBits(d, cfg.l, t.w);
    OnesStart(t.w);
    RestIs(t.w);
    if t.w < d {
      GridBetween(cfg.l, t.w, d);
      assert !Loose(cfg, t.w);
    }
  }

  lemma {:induction false} GridBetween(l: nat, w: nat, d: nat)
    requires l >= 1 && OnGrid(l, w) && OnGrid(l, d) && w < d
    ensures w + l <= d
    decreases d
  {
    if w > 0 { GridBetween(l, w - l, d - l); }
  }

  /** The probe follows the links down to the too-wide table and there reads a slot never written. */
  lemma {:induction false} ProbeWalk(cfg: Cfg, h0: seq<Huft>, hn0: nat, st: St, d: nat, a: nat, b: nat)
    requires LooseEnd(cfg, h0, hn0, st, d) && a in st.tabs && st.tabs[a].w <= d && st.tabs[a].c == Rev(b, st.tabs[a].w)
    requires b == Probe(d, cfg.l)
    ensures var r := Walk(st.h, a, st.tabs[a].j, Shr(b, st.tabs[a].w)); r.Leaf? && st.tabs[a].w + r.used == d
    decreases d - st.tabs[a].w
  {
    hide LooseEnd, Low, Shr, Rev, Shl, Pow2, EntryCode, TabOk, EntryPos, Probe;
    var t := st.tabs[a];
    TableFacts(cfg, h0, hn0, st, d, a, b);
    if t.w == d {
      ProbeGap(cfg, h0, hn0, st, d, a);
      ProbeBits(d, cfg.l, d);
    } else {
      ProbeLink(cfg, h0, hn0, st, d, a, b);
      var x := Low(Shr(b, t.w), t.j);
      var a2 := a + x + st.h[a + x].base;
      LinkIsLink(st.h[a + x]);
      ShrShr(b, t.w, cfg.l);
      ProbeWalk(cfg, h0, hn0, st, d, a2, b);
    }
  }

  lemma {:induction false} ProbeGap(cfg: Cfg, h0: seq<Huft>, hn0: nat, st: St, d: nat, a: nat)
    requires LooseEnd(cfg, h0, hn0, st, d) && a in st.tabs && st.tabs[a].j > cfg.l
    ensures var x := Low(Pow2(cfg.l), st.tabs[a].j); a + x < |st.h| && st.h[a + x] == Huft(0, 0, 0)
  {
    hide Filled, Stack, Closed, Aligned, Low, Pow2, TabOk, FirstLoose;
    GapIndex(cfg.l, st.tabs[a].j);
    assert Kept(h0, st.h, a, Pow2(cfg.l));
  }

  lemma {:induction false} GapIndex(l: nat, j: nat)
    requires l < j
    ensures Low(Pow2(l), j) == Pow2(l) && Pow2(l) < Pow2(j)
  {
    Pow2Mono(l + 1, j);
    ShrZero(Pow2(l), j);
  }

  /** Above the too-wide table the probe meets links only. */
  lemma {:induction false} ProbeLink(cfg: Cfg, h0: seq<Huft>, hn0: nat, st: St, d: nat, a: nat, b: nat)
    requires LooseEnd(cfg, h0, hn0, st, d) && a in st.tabs && st.tabs[a].w < d && st.tabs[a].c == Rev(b, st.tabs[a].w)
    requires b == Probe(d, cfg.l)
    ensures var t := st.tabs[a]; var x := Low(Shr(b, t.w), t.j);
            a + x < |st.h| && t.j == cfg.l && t.w + cfg.l <= d
            && Linked(cfg, st.h, st.tabs, a, x, a + x + st.h[a + x].base)
            && EntryCode(cfg, t, x) == Rev(b, t.w + cfg.l)
            && 1 <= st.h[a + x].exop <= 15
  {
    hide Shl, Pow2, Rev, Low, Shr, Mem, Gaps, Stack, Closed, Aligned, Probe, End, LeafFor, Loose, EntryPos, TabStart, TabEnd, EndX,
         Filled, Good, EntryCode, FirstLoose, ListsOk;
    var t := st.tabs[a];
    var x := Low(Shr(b, t.w), t.j);
    TableFacts(cfg, h0, hn0, st, d, a, b);
    GridBelow(cfg, d, t.w);
    ProbeGood(cfg, h0, hn0, st, a, x);
    IndexPrefix(cfg, t, b);
    EntryPosIs(cfg, t, x);
    ProbeIsLink(cfg, st.h, st.tabs, d, a, x, b);
    MemTabs(cfg, h0, hn0, st, a + x + st.h[a + x].base);
  }

  lemma {:induction false} ProbeGood(cfg: Cfg, h0: seq<Huft>, hn0: nat, st: St, a: nat, x: nat)
    requires Inv(cfg, h0, hn0, st) && st.p == SPACE && a in st.tabs && st.tabs[a].j <= cfg.l && x < Pow2(st.tabs[a].j)
    ensures Good(cfg, st.h, st.tabs, a, x)
  {
    hide Shl, Pow2, Rev, Low, Gaps, Stack, Closed, Aligned, End, LeafFor, EntryPos, TabStart, TabEnd, EndX, Good, EntryCode, ListsOk;
    assert TabOk(cfg, st.tabs[a]);
    EntryAfterStart(cfg, st.tabs[a], x);
    TabInSpace(cfg, st.tabs[a]);
  }

  lemma {:induction false} ProbeIsLink(cfg: Cfg, h: seq<Huft>, tabs: map<nat, Tab>, d: nat, a: nat, x: nat, b: nat)
    requires Good(cfg, h, tabs, a, x) && CfgOk(cfg) && FirstLoose(cfg, d) && b == Probe(d, cfg.l)
    requires tabs[a].j <= cfg.l && tabs[a].w + cfg.l <= d
    requires EntryPos(cfg, tabs[a], x) == Shl(Rev(b, tabs[a].w + tabs[a].j), 16 - tabs[a].w - tabs[a].j)
    ensures a + x < |h| && Linked(cfg, h, tabs, a, x, a + x + h[a + x].base)
  {
    hide Shl, Rev, EntryPos, Probe, FirstLoose, LeafFor, Linked, IsLink;
    if !Linked(cfg, h, tabs, a, x, a + x + h[a + x].base) {
      ProbeNotLeaf(cfg, d, tabs[a], x, b, h[a + x]);
    }
  }

  lemma {:induction false} MemTabs(cfg: Cfg, h0: seq<Huft>, hn0: nat, st: St, a: nat)
    requires Mem(cfg, h0, hn0, st) && a in st.tabs
    ensures 1 <= st.tabs[a].j <= 15
  {
  }

  lemma {:induction false} GridBelow(cfg: Cfg, d: nat, w: nat)
    requires CfgOk(cfg) && FirstLoose(cfg, d) && w < d && OnGrid(cfg.l, w)
    ensures w + cfg.l <= d <= 15
  {
    GridBetween(cfg.l, w, d);
  }

  lemma {:induction false} ProbeNotLeaf(cfg: Cfg, d: nat, t: Tab, x: nat, b: nat, e: Huft)
    requires CfgOk(cfg) && FirstLoose(cfg, d) && t.j <= cfg.l && t.w + cfg.l <= d && b == Probe(d, cfg.l)
    requires EntryPos(cfg, t, x) == Shl(Rev(b, t.w + t.j), 16 - t.w - t.j) && e.bits <= t.j
    ensures !LeafFor(cfg, e, t.w, EntryPos(cfg, t, x))
  {
    LooseDepth(cfg, d);
    hide *;
    var n := t.w + t.j;
    assert 16 - t.w - t.j == 16 - n;
    ProbeLeaf(cfg, d, t.w, n, b, e);
  }

  lemma {:induction false} ProbeLeaf(cfg: Cfg, d: nat, w: nat, n: nat, b: nat, e: Huft)
    requires CfgOk(cfg) && Loose(cfg, d) && n <= d <= 15 && b == Probe(d, cfg.l) && w + e.bits <= n
    ensures !LeafFor(cfg, e, w, Shl(Rev(b, n), 16 - n))
  {
    hide *;
    var q := Shl(Pow2(d) - 1, 16 - d);
    ProbeBits(d, cfg.l, n);
    ProbeBits(d, cfg.l, d);
    ShrOfShl(Pow2(d) - 1, 16 - d);
    OnesTop(d, n);
    NoShortOnes(cfg, d, n, e, w, q);
    if LeafFor(cfg, e, w, Shl(Rev(b, n), 16 - n)) {
      LeafCovers(cfg, e, w, n, Rev(b, n), q);
      assert false;
    }
  }

  lemma {:induction false} LooseDepth(cfg: Cfg, d: nat)
    requires CfgOk(cfg) && FirstLoose(cfg, d)
    ensures d <= 15 && Loose(cfg, d)
  {
  }

  /** The first n bits of d ones are n ones. */
  lemma {:induction false} OnesTop(d: nat, n: nat)
    requires n <= d <= 16
    ensures Shr(Shl(Pow2(d) - 1, 16 - d), 16 - n) == Pow2(n) - 1
  {
    hide Shl, Pow2, Rev, Shr;
    ShrOfShl(Pow2(d) - 1, 16 - d);
    ShrShr(Shl(Pow2(d) - 1, 16 - d), 16 - d, d - n);
    OnesRev(d);
    TopOfRev(Pow2(d) - 1, n, d);
    OnesLow(d, n);
    RevLow(Pow2(d) - 1, n, n);
    OnesRev(n);
  }

  /** On zeroed table space, a loose depth makes the decoding of some stream wrong. */
  lemma {:induction false} LooseFails(cfg: Cfg, h0: seq<Huft>, hn0: nat, st: St)
    requires Inv(cfg, h0, hn0, st) && st.p == SPACE && !Compact(cfg.lens, cfg.g, cfg.l, 0)
    requires Count(cfg.lens, cfg.g) > 0 && EndX(cfg, cfg.l) > 0
    requires forall i :: hn0 <= i < |h0| ==> h0[i] == Huft(0, 0, 0)
    ensures !Built(cfg, st.h, hn0, st.hn)
  {
    hide Mem, Gaps, Filled, Stack, Closed, Aligned, Count, Shl, Shr, Rev, Pow2, Walk, End, Decode;
    var n := FindLoose(cfg, 0);
    var d := LeastLoose(cfg, n);
    RootIsFull(cfg, h0, hn0, st);
    NotLooseAtRoot(cfg, d);
    var b := Probe(d, cfg.l);
    RevNone(b);
    ProbeWalk(cfg, h0, hn0, st, d, hn0, b);
    ProbeUndecoded(cfg, d, Walk(st.h, hn0, cfg.l, b));
    if Built(cfg, st.h, hn0, st.hn) {
      BuiltAt(cfg, st.h, hn0, st.hn, b);
    }
  }

  lemma {:induction false} NotLooseAtRoot(cfg: Cfg, d: nat)
    requires Loose(cfg, d) && EndX(cfg, cfg.l) > 0
    ensures d > 0
  {
    Pow2Values();
  }

  lemma {:induction false} RevNone(b: nat)
    ensures Rev(b, 0) == 0 && Shr(b, 0) == b
  {
  }

  lemma {:induction false} BuiltAt(cfg: Cfg, h: seq<Huft>, lo: nat, hi: nat, b: nat)
    requires Built(cfg, h, lo, hi)
    ensures DecodesAs(cfg, Walk(h, lo, cfg.l, b), b)
  {
  }

  lemma {:induction false} ProbeUndecoded(cfg: Cfg, d: nat, r: WalkResult)
    requires CfgOk(cfg) && FirstLoose(cfg, d) && r.Leaf? && r.used == d
    ensures !DecodesAs(cfg, r, Probe(d, cfg.l))
  {
    var b := Probe(d, cfg.l);
    hide Shl, Shr, Rev, Pow2, End, Probe;
    if DecodesAs(cfg, r, b) && Decode(cfg.lens, b).Some? {
      var i := Decode(cfg.lens, b).value;
      ReadsIsCovers(cfg.lens, i, b);
      CoverBelowEnd(cfg.lens, i, Rev(b, 16));
      ProbeBits(d, cfg.l, d);
      TopOfRev(b, d, 16);
      OnesStart(d);
      ShrInterval(Rev(b, 16), Pow2(d) - 1, 16 - d);
      EndMono(cfg.lens, d, d + cfg.l);
      assert false;
    }
  }
}
