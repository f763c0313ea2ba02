/** The invariant of huft_build's main loop and the lemmas that one step of it keeps the invariant. */
module HuftTables {
  import opened Bits
  import opened Canonical
  import opened HuftSpec

  /** Table space, space used, tables made, the stack of open tables, and how much of the code
      space has been given out. */
  datatype St = St(h: seq<Huft>, hn: nat, tabs: map<nat, Tab>, stk: seq<nat>, p: nat)

  /** Bits before the open table; minus l before there is one. */
  ghost function Depth(cfg: Cfg, st: St): int
  {
    if |st.stk| == 0 then 0 - (cfg.l as int)
    else var a := st.stk[|st.stk| - 1]; if a in st.tabs then st.tabs[a].w else 0
  }

  ghost predicate Mem(cfg: Cfg, h0: seq<Huft>, hn0: nat, st: St)
  {
    hn0 <= st.hn <= |st.h| == |h0|
    && (forall a :: a in st.tabs ==> TabOk(cfg, st.tabs[a]) && hn0 <= a && a + Pow2(st.tabs[a].j) <= st.hn)
    && (forall a, a2 :: a in st.tabs && a2 in st.tabs && a < a2 ==> a + Pow2(st.tabs[a].j) <= a2)
    && (forall i :: 0 <= i < |h0| && (i < hn0 || st.hn <= i) ==> st.h[i] == h0[i])
  }

  ghost predicate Kept(h0: seq<Huft>, h: seq<Huft>, a: nat, x: nat)
  {
    a + x < |h0| && a + x < |h| && h[a + x] == h0[a + x]
  }

  /** The entries of a too-wide table that no prefix reaches are left as they were. */
  ghost predicate Gaps(cfg: Cfg, h0: seq<Huft>, st: St)
  {
    forall a, x :: a in st.tabs && Pow2(cfg.l) <= x < Pow2(st.tabs[a].j) ==> Kept(h0, st.h, a, x)
  }

  ghost predicate Filled(cfg: Cfg, st: St)
  {
    forall a, x :: a in st.tabs && 0 <= x < Pow2(Width(cfg, st.tabs[a])) && EntryPos(cfg, st.tabs[a], x) < st.p
      ==> Good(cfg, st.h, st.tabs, a, x)
  }

  function LinkIndex(cfg: Cfg, t: Tab): nat
  {
    Rev(Low(t.c, cfg.l), cfg.l)
  }

  ghost predicate Stack(cfg: Cfg, st: St)
  {
    (forall i :: 0 <= i < |st.stk| ==>
       st.stk[i] in st.tabs && i <= st.tabs[st.stk[i]].w
       && TabStart(st.tabs[st.stk[i]]) <= st.p <= TabEnd(st.tabs[st.stk[i]]))
    && (|st.stk| > 0 ==> st.tabs[st.stk[0]].w == 0)
    && (forall i :: 0 < i < |st.stk| ==>
          st.tabs[st.stk[i]].w == st.tabs[st.stk[i - 1]].w + cfg.l
          && Linked(cfg, st.h, st.tabs, st.stk[i - 1], LinkIndex(cfg, st.tabs[st.stk[i]]), st.stk[i]))
  }

  ghost predicate Closed(st: St)
  {
    forall a :: a in st.tabs ==> a in st.stk || TabEnd(st.tabs[a]) <= st.p
  }

  /** The position given out next is the start of a prefix of the length below the open table. */
  ghost predicate Aligned(cfg: Cfg, st: St)
  {
    Depth(cfg, st) + cfg.l >= 0 && Low(st.p, Rest(Depth(cfg, st) + cfg.l)) == 0
  }

  ghost predicate Inv(cfg: Cfg, h0: seq<Huft>, hn0: nat, st: St)
  {
    CfgOk(cfg) && st.p <= SPACE
    && Mem(cfg, h0, hn0, st) && Gaps(cfg, h0, st) && Filled(cfg, st) && Stack(cfg, st) && Closed(st) && Aligned(cfg, st)
    && (|st.stk| == 0 ==> st.tabs == map[] && st.p == 0 && st.hn == hn0)
    && (|st.stk| > 0 ==> st.stk[0] == hn0)
  }

  /** The next code lies in the open table. */
  ghost predicate Head(st: St)
  {
    |st.stk| > 0 && st.p < SPACE ==>
      st.stk[|st.stk| - 1] in st.tabs && st.p < TabEnd(st.tabs[st.stk[|st.stk| - 1]])
  }

  // ---------------------------------------------------------------- opening a table

  /** What the size computation promises about a table of j bits opened for a code of length k. */
  ghost predicate SizeOk(cfg: Cfg, w: nat, p: nat, k: nat, j: nat)
  {
    1 <= j && w + j <= cfg.g
    && (j >= cfg.l || EndX(cfg, w + j) >= p + Pow2(Rest(w)))
    && (j > cfg.l <==> k > w + cfg.l)
  }

  /** An open table that a longer code runs into has at least l index bits. */
  lemma {:induction false} TopIsFull(cfg: Cfg, h0: seq<Huft>, hn0: nat, st: St, k: nat)
    requires Inv(cfg, h0, hn0, st) && Head(st) && |st.stk| > 0 && st.p < SPACE
    requires k >= 1 && EndX(cfg, k - 1) <= st.p && k > Depth(cfg, st) + cfg.l
    ensures st.tabs[st.stk[|st.stk| - 1]].j >= cfg.l
  {
    hide Mem, Gaps, Filled, Stack, Closed, Aligned, EndX, Shl, Pow2, TabStart, OnGrid, ListsOk;
    TopKnown(cfg, h0, hn0, st);
    var t := st.tabs[st.stk[|st.stk| - 1]];
    if t.j < cfg.l {
      EndXMono(cfg, t.w + t.j, k - 1);
      assert false;
    }
  }

  /** The slot a new table at depth t.w + l is linked from: c is its prefix. */
  lemma {:induction false} LinkIndexIs(t: Tab, l: nat, p: nat, c: nat)
    requires t.w + l <= 16 && c == Shr(p, 16 - (t.w + l)) && Low(p, 16 - (t.w + l)) == 0
    requires TabStart(t) <= p < TabEnd(t)
    ensures p == Shl(c, 16 - (t.w + l))
    ensures Rev(p, 16) == Rev(c, t.w + l)
    ensures Shr(Rev(p, 16), t.w) == Rev(Low(c, l), l)
    ensures Shl(t.c, l) + Rev(Rev(Low(c, l), l), l) == c
  {
    var w2 := t.w + l;
    TabHolds(t, p);
    hide *;
    Split(p, 16 - w2);
    RevTrailing(c, 16 - w2, w2);
    TopOfRev(c, l, w2);
    RevLow(c, l, l);
    RevRev(Low(c, l), l);
    LowLow(c, l, l);
    SplitCode(c, l);
    assert Rest(t.w) == 16 - w2 + l by { RestIs(t.w); }
    ShrShr(p, 16 - w2, l);
  }

  lemma {:induction false} RestIs(n: nat)
    requires n <= 16
    ensures Rest(n) == 16 - n
  {
  }

  ghost function Top(st: St): nat
    requires |st.stk| > 0
  {
    st.stk[|st.stk| - 1]
  }

  /** Where the link to a new table goes. */
  ghost function LinkAt(st: St): nat
    requires |st.stk| > 0 && Top(st) in st.tabs
  {
    Top(st) + Shr(Rev(st.p, 16), st.tabs[Top(st)].w)
  }

  /** Everything known when a table of depth w with j index bits is opened for a code of length k. */
  ghost predicate OpenPre(cfg: Cfg, h0: seq<Huft>, hn0: nat, st: St, k: nat, w: nat, j: nat)
  {
    Inv(cfg, h0, hn0, st) && Head(st) && st.p < SPACE
    && w == Depth(cfg, st) + cfg.l && w < k <= cfg.g
    && EndX(cfg, k - 1) <= st.p < EndX(cfg, k)
    && SizeOk(cfg, w, st.p, k, j) && j == TabBits(cfg, w, st.p) && st.hn + Pow2(j) <= |st.h|
  }

  ghost function NewTab(st: St, w: nat, j: nat): (t: Tab)
    ensures t.w == w && t.j == j
  {
    Tab(w, j, Shr(st.p, Rest(w)))
  }

  lemma {:induction false} TopKnown(cfg: Cfg, h0: seq<Huft>, hn0: nat, st: St)
    requires Mem(cfg, h0, hn0, st) && Stack(cfg, st) && |st.stk| > 0
    ensures Top(st) in st.tabs && TabOk(cfg, st.tabs[Top(st)]) && Depth(cfg, st) == st.tabs[Top(st)].w
    ensures TabStart(st.tabs[Top(st)]) <= st.p <= TabEnd(st.tabs[Top(st)])
    ensures Top(st) + Pow2(st.tabs[Top(st)].j) <= st.hn <= |st.h| && hn0 <= Top(st)
  {
    hide TabOk, Linked, TabStart, TabEnd, LinkIndex, Pow2;
  }

  lemma {:induction false} NewTabOk(cfg: Cfg, h0: seq<Huft>, hn0: nat, st: St, k: nat, w: nat, j: nat)
    requires OpenPre(cfg, h0, hn0, st, k, w, j)
    ensures TabOk(cfg, NewTab(st, w, j)) && TabStart(NewTab(st, w, j)) == st.p
  {
    hide Mem, Gaps, Filled, Stack, Closed, EndX, Shl, Pow2, Shr, Low, Head, TabBits;
    assert OnGrid(cfg.l, w) by {
      if |st.stk| > 0 { TopKnown(cfg, h0, hn0, st); }
    }
    assert Low(st.p, Rest(w)) == 0;
    Split(st.p, Rest(w));
    Pow2Values();
    ShrBound(st.p, w, Rest(w));
    EndXMono(cfg, w, k - 1);
    if k > w + cfg.l { EndXMono(cfg, w + cfg.l, k - 1); } else { EndXMono(cfg, k, w + cfg.l); }
  }

  /** The link slot: inside the open table, at the position given out next. */
  lemma {:induction false} LinkSlot(cfg: Cfg, h0: seq<Huft>, hn0: nat, st: St, k: nat, w: nat, j: nat)
    requires OpenPre(cfg, h0, hn0, st, k, w, j) && |st.stk| > 0
    ensures Top(st) in st.tabs && st.tabs[Top(st)].j >= cfg.l && st.tabs[Top(st)].w + cfg.l == w
    ensures LinkAt(st) == Top(st) + LinkIndex(cfg, NewTab(st, w, j)) < Top(st) + Pow2(cfg.l)
    ensures LinkAt(st) < st.hn && LinkAt(st) < |st.h|
    ensures EntryCode(cfg, st.tabs[Top(st)], LinkIndex(cfg, NewTab(st, w, j))) == NewTab(st, w, j).c
    ensures EntryPos(cfg, st.tabs[Top(st)], LinkIndex(cfg, NewTab(st, w, j))) == st.p
  {
    hide Mem, Gaps, Filled, Stack, Closed, EndX, Shl, Pow2, Shr, Low, Rev, TabStart, ListsOk, OnGrid;
    TopKnown(cfg, h0, hn0, st);
    var t := st.tabs[Top(st)];
    TopIsFull(cfg, h0, hn0, st, k);
    Pow2Mono(cfg.l, t.j);
    LinkIndexIs(t, cfg.l, st.p, Shr(st.p, 16 - w));
  }

  lemma {:induction false} GoodMono(cfg: Cfg, h: seq<Huft>, tabs: map<nat, Tab>, h': seq<Huft>, tabs': map<nat, Tab>, a: nat, x: nat)
    requires Good(cfg, h, tabs, a, x) && a + x < |h'| && h'[a + x] == h[a + x]
    requires forall a2 :: a2 in tabs ==> a2 in tabs' && tabs'[a2] == tabs[a2]
    ensures Good(cfg, h', tabs', a, x)
  {
  }

  /** Two different tables share no slot. */
  lemma {:induction false} Apart(cfg: Cfg, h0: seq<Huft>, hn0: nat, st: St, a: nat, x: nat, a2: nat, x2: nat)
    requires Mem(cfg, h0, hn0, st) && a in st.tabs && a2 in st.tabs
    requires x < Pow2(st.tabs[a].j) && x2 < Pow2(st.tabs[a2].j) && a + x == a2 + x2
    ensures a == a2 && x == x2
  {
    hide Pow2, TabOk;
  }

  /** What opening a table changes: one link slot of the open table, and the table list. */
  ghost predicate OpenStep(cfg: Cfg, st: St, st': St, w: nat, j: nat)
  {
    st'.p == st.p && st'.hn == st.hn + Pow2(j) && st.hn !in st.tabs
    && st'.tabs == st.tabs[st.hn := NewTab(st, w, j)] && st'.stk == st.stk + [st.hn]
    && |st'.h| == |st.h|
    && if |st.stk| == 0 then st'.h == st.h
       else
         Top(st) in st.tabs
         && var x := LinkIndex(cfg, NewTab(st, w, j));
            x < Pow2(cfg.l) <= Pow2(st.tabs[Top(st)].j) && Top(st) + x < st.hn && Top(st) + x < |st.h|
            && EntryPos(cfg, st.tabs[Top(st)], x) == st.p
            && st'.h == st.h[Top(st) + x := Huft(j, cfg.l, st.hn - (Top(st) + x))]
  }

  lemma {:induction false} OpenMem(cfg: Cfg, h0: seq<Huft>, hn0: nat, st: St, st': St, w: nat, j: nat)
    requires Mem(cfg, h0, hn0, st) && OpenStep(cfg, st, st', w, j) && st'.hn <= |st.h|
    requires TabOk(cfg, NewTab(st, w, j))
    requires |st.stk| > 0 ==> hn0 <= Top(st)
    ensures Mem(cfg, h0, hn0, st')
  {
    hide NewTab, TabOk, LinkIndex, EntryPos, Pow2;
  }

  /** Opening a table changes no slot of another table, and only the link slot of the open one. */
  lemma {:induction false} OpenOther(cfg: Cfg, h0: seq<Huft>, hn0: nat, st: St, st': St, w: nat, j: nat, a: nat, x: nat)
    requires Mem(cfg, h0, hn0, st) && OpenStep(cfg, st, st', w, j) && a in st.tabs && x < Pow2(st.tabs[a].j)
    requires |st.stk| > 0 ==> a != Top(st) || x != LinkIndex(cfg, NewTab(st, w, j))
    ensures a + x < |st.h| && st'.h[a + x] == st.h[a + x]
  {
    hide NewTab, TabOk, LinkIndex, EntryPos, Pow2;
  }

  lemma {:induction false} WidthBound(cfg: Cfg, t: Tab)
    ensures Pow2(Width(cfg, t)) <= Pow2(t.j) && Pow2(Width(cfg, t)) <= Pow2(cfg.l)
  {
    Pow2Mono(Width(cfg, t), t.j);
    Pow2Mono(Width(cfg, t), cfg.l);
  }

  lemma {:induction false} OpenGaps(cfg: Cfg, h0: seq<Huft>, hn0: nat, st: St, st': St, w: nat, j: nat)
    requires Mem(cfg, h0, hn0, st) && Gaps(cfg, h0, st) && OpenStep(cfg, st, st', w, j) && st'.hn <= |st.h|
    ensures Gaps(cfg, h0, st')
  {
    forall a, x | a in st'.tabs && Pow2(cfg.l) <= x < Pow2(st'.tabs[a].j) ensures Kept(h0, st'.h, a, x) {
      if a in st.tabs {
        assert Kept(h0, st.h, a, x);
        OpenOther(cfg, h0, hn0, st, st', w, j, a, x);
      }
    }
    hide NewTab, TabOk, LinkIndex, EntryPos, Pow2;
  }

  lemma {:induction false} OpenFilled(cfg: Cfg, h0: seq<Huft>, hn0: nat, st: St, st': St, w: nat, j: nat)
    requires Mem(cfg, h0, hn0, st) && Filled(cfg, st) && OpenStep(cfg, st, st', w, j)
    requires TabStart(NewTab(st, w, j)) >= st.p && TabOk(cfg, NewTab(st, w, j))
    ensures Filled(cfg, st')
  {
    forall a, x | a in st'.tabs && 0 <= x < Pow2(Width(cfg, st'.tabs[a])) && EntryPos(cfg, st'.tabs[a], x) < st'.p
      ensures Good(cfg, st'.h, st'.tabs, a, x)
    {
      if a in st.tabs {
        WidthBound(cfg, st.tabs[a]);
        OpenOther(cfg, h0, hn0, st, st', w, j, a, x);
        GoodMono(cfg, st.h, st.tabs, st'.h, st'.tabs, a, x);
      } else {
        EntryAfterStart(cfg, NewTab(st, w, j), x);
        assert false;
      }
    }
  }

  lemma {:induction false} EntryAfterStart(cfg: Cfg, t: Tab, x: nat)
    requires t.w + t.j <= 16
    ensures EntryPos(cfg, t, x) >= TabStart(t)
    ensures EntryPos(cfg, t, x) + Pow2(16 - t.w - Width(cfg, t)) <= TabEnd(t)
  {
    var n := Width(cfg, t);
    hide Shl, Pow2, Rev;
    ShlAdd(Shl(t.c, n), Rev(x, n), 16 - t.w - n);
    ShlShl(t.c, n, 16 - t.w - n);
    ShlBound(Rev(x, n), n, 16 - t.w - n);
  }

  lemma {:induction false} StkDistinct(cfg: Cfg, st: St, i: nat, k: nat)
    requires Stack(cfg, st) && cfg.l >= 1 && i < k < |st.stk|
    ensures st.tabs[st.stk[i]].w < st.tabs[st.stk[k]].w
    decreases k
  {
    hide Linked, LinkIndex, TabStart, TabEnd;
    if i < k - 1 { StkDistinct(cfg, st, i, k - 1); }
  }

  lemma {:induction false} LinkedMono(cfg: Cfg, h: seq<Huft>, tabs: map<nat, Tab>, h': seq<Huft>, tabs': map<nat, Tab>, a: nat, x: nat, a2: nat)
    requires Linked(cfg, h, tabs, a, x, a2) && a + x < |h'| && h'[a + x] == h[a + x]
    requires forall b :: b in tabs ==> b in tabs' && tabs'[b] == tabs[b]
    ensures Linked(cfg, h', tabs', a, x, a2)
  {
  }

  /** The links between open tables stay. */
  lemma {:induction false} OpenLinks(cfg: Cfg, h0: seq<Huft>, hn0: nat, st: St, st': St, w: nat, j: nat, i: nat)
    requires CfgOk(cfg) && Mem(cfg, h0, hn0, st) && Stack(cfg, st) && OpenStep(cfg, st, st', w, j) && 0 < i < |st.stk|
    ensures Linked(cfg, st'.h, st'.tabs, st'.stk[i - 1], LinkIndex(cfg, st'.tabs[st'.stk[i]]), st'.stk[i])
  {
    hide Shl, Pow2, Rev, Low, Shr, EntryCode, EntryPos, EndX, ListsOk, TabStart, TabEnd;
    var a := st.stk[i - 1];
    var x := LinkIndex(cfg, st.tabs[st.stk[i]]);
    assert Linked(cfg, st.h, st.tabs, a, x, st.stk[i]);
    StkDistinct(cfg, st, i - 1, |st.stk| - 1);
    Pow2Mono(cfg.l, st.tabs[a].j);
    hide Stack;
    OpenOther(cfg, h0, hn0, st, st', w, j, a, x);
    LinkedMono(cfg, st.h, st.tabs, st'.h, st'.tabs, a, x, st.stk[i]);
  }

  lemma {:induction false} OpenNewLink(cfg: Cfg, h0: seq<Huft>, hn0: nat, st: St, st': St, k: nat, w: nat, j: nat)
    requires OpenPre(cfg, h0, hn0, st, k, w, j) && OpenStep(cfg, st, st', w, j) && |st.stk| > 0
    ensures Linked(cfg, st'.h, st'.tabs, Top(st), LinkIndex(cfg, NewTab(st, w, j)), st.hn)
    ensures w == st.tabs[Top(st)].w + cfg.l
  {
    LinkSlot(cfg, h0, hn0, st, k, w, j);
    hide TabStart, TabEnd, LinkIndex, EntryPos, EntryCode, NewTab, Filled, Gaps, EndX, Pow2, Stack, Mem, Closed, Aligned;
  }

  /** The stack with one more table on it, given the links. */
  lemma {:induction false} OpenStackGlue(cfg: Cfg, st: St, st': St, t: Tab)
    requires Stack(cfg, st) && st.hn !in st.tabs && st'.tabs == st.tabs[st.hn := t] && st'.stk == st.stk + [st.hn] && st'.p == st.p
    requires TabStart(t) <= st.p <= TabEnd(t) && cfg.l >= 1
    requires |st.stk| == 0 ==> t.w == 0
    requires |st.stk| > 0 ==> Top(st) in st.tabs && t.w == st.tabs[Top(st)].w + cfg.l
                              && Linked(cfg, st'.h, st'.tabs, Top(st), LinkIndex(cfg, t), st.hn)
    requires forall i :: 0 < i < |st.stk| ==>
               Linked(cfg, st'.h, st'.tabs, st'.stk[i - 1], LinkIndex(cfg, st'.tabs[st'.stk[i]]), st'.stk[i])
    ensures Stack(cfg, st')
  {
    hide Linked, TabStart, TabEnd, LinkIndex;
    var n := |st.stk|;
    forall i | 0 < i < |st'.stk|
      ensures st'.tabs[st'.stk[i]].w == st'.tabs[st'.stk[i - 1]].w + cfg.l
      ensures Linked(cfg, st'.h, st'.tabs, st'.stk[i - 1], LinkIndex(cfg, st'.tabs[st'.stk[i]]), st'.stk[i])
    {
      if i == n { assert st'.stk[n - 1] == Top(st); }
    }
  }

  lemma {:induction false} OpenStack(cfg: Cfg, h0: seq<Huft>, hn0: nat, st: St, st': St, k: nat, w: nat, j: nat)
    requires OpenPre(cfg, h0, hn0, st, k, w, j) && OpenStep(cfg, st, st', w, j)
    ensures Stack(cfg, st')
  {
    NewTabOk(cfg, h0, hn0, st, k, w, j);
    if |st.stk| > 0 {
      OpenNewLink(cfg, h0, hn0, st, st', k, w, j);
    }
    forall i | 0 < i < |st.stk|
      ensures Linked(cfg, st'.h, st'.tabs, st'.stk[i - 1], LinkIndex(cfg, st'.tabs[st'.stk[i]]), st'.stk[i])
    {
      OpenLinks(cfg, h0, hn0, st, st', w, j, i);
    }
    hide Linked, TabStart, LinkIndex, TabOk, EntryPos, NewTab, Filled, Gaps, EndX, Pow2, Stack, Mem, Closed, Aligned;
    OpenStackGlue(cfg, st, st', NewTab(st, w, j));
  }

  lemma {:induction false} OpenAligned(cfg: Cfg, h0: seq<Huft>, hn0: nat, st: St, st': St, k: nat, w: nat, j: nat)
    requires OpenPre(cfg, h0, hn0, st, k, w, j) && OpenStep(cfg, st, st', w, j)
    ensures Aligned(cfg, st')
  {
    hide Low, Linked, TabStart, TabEnd, LinkIndex, EntryPos, NewTab, Filled, Gaps, EndX, Pow2, Stack, Mem, Closed;
    assert Low(st.p, Rest(w)) == 0;
    LowLow(st.p, Rest(w), Rest(w + cfg.l));
    LowOfZero(Rest(w + cfg.l));
  }

  lemma {:induction false} LowOfZero(n: nat)
    ensures Low(0, n) == 0
  {
    if n > 0 { LowOfZero(n - 1); }
  }

  /** Opening a table keeps the invariant. */
  lemma {:induction false} OpenKeeps(cfg: Cfg, h0: seq<Huft>, hn0: nat, st: St, st': St, k: nat, w: nat, j: nat)
    requires OpenPre(cfg, h0, hn0, st, k, w, j) && OpenStep(cfg, st, st', w, j)
    ensures Inv(cfg, h0, hn0, st') && Head(st') && Depth(cfg, st') == w
  {
    NewTabOk(cfg, h0, hn0, st, k, w, j);
    OpenStack(cfg, h0, hn0, st, st', k, w, j);
    OpenAligned(cfg, h0, hn0, st, st', k, w, j);
    assert |st.stk| > 0 ==> hn0 <= Top(st);
    hide TabOk;
    OpenMem(cfg, h0, hn0, st, st', w, j);
    OpenGaps(cfg, h0, hn0, st, st', w, j);
    OpenFilled(cfg, h0, hn0, st, st', w, j);
    hide Mem, Gaps, Filled, Stack, Aligned, NewTab, EndX;
  }

  // ---------------------------------------------------------------- entering a code

  /** Entry r is right for the code of length k that starts at position p, in a table w bits deep. */
  ghost predicate EntryFor(cfg: Cfg, r: Huft, w: nat, p: nat, k: nat)
  {
    !IsLink(r) && w + r.bits == k && forall q :: p <= q < p + Pow2(Rest(k)) ==> LeafFor(cfg, r, w, q)
  }

  ghost predicate FillPre(cfg: Cfg, h0: seq<Huft>, hn0: nat, st: St, k: nat, r: Huft)
  {
    Inv(cfg, h0, hn0, st) && Head(st) && st.p < SPACE && |st.stk| > 0
    && Depth(cfg, st) < k <= Depth(cfg, st) + cfg.l && k <= cfg.g
    && EndX(cfg, k - 1) <= st.p < EndX(cfg, k) && Low(st.p, Rest(k)) == 0
    && EntryFor(cfg, r, Depth(cfg, st), st.p, k)
  }

  /** Whether the fill loop reaches index x. */
  ghost predicate InCode(w: nat, p: nat, k: nat, x: nat)
    requires w <= k
  {
    Low(x, k - w) == Shr(Rev(p, 16), w)
  }

  ghost predicate FillStep(cfg: Cfg, st: St, st': St, k: nat, r: Huft)
  {
    |st.stk| > 0 && Top(st) in st.tabs && st.tabs[Top(st)].w <= k
    && var a := Top(st); var t := st.tabs[a];
       st'.p == st.p + Pow2(Rest(k)) && st'.hn == st.hn && st'.tabs == st.tabs && st'.stk == st.stk && |st'.h| == |st.h|
       && a + Pow2(t.j) <= |st.h|
       && (forall x :: 0 <= x < Pow2(t.j) ==> st'.h[a + x] == if InCode(t.w, st.p, k, x) then r else st.h[a + x])
       && (forall i :: 0 <= i < |st.h| && (i < a || a + Pow2(t.j) <= i) ==> st'.h[i] == st.h[i])
  }

  /** The open table indexes at least as many bits as the next code has left. */
  lemma {:induction false} TopFits(cfg: Cfg, h0: seq<Huft>, hn0: nat, st: St, k: nat, r: Huft)
    requires FillPre(cfg, h0, hn0, st, k, r)
    ensures Top(st) in st.tabs && TabOk(cfg, st.tabs[Top(st)])
    ensures var t := st.tabs[Top(st)];
            t.j <= cfg.l && t.w < k <= t.w + t.j <= 16 && TabStart(t) <= st.p < TabEnd(t) && Top(st) + Pow2(t.j) <= |st.h|
  {
    hide Mem, Gaps, Filled, Stack, Closed, Aligned, EndX, Shl, Pow2, TabStart, EntryFor, ListsOk;
    TopKnown(cfg, h0, hn0, st);
    var t := st.tabs[Top(st)];
    if t.j > cfg.l {
      EndXMono(cfg, k, t.w + cfg.l);
      assert false;
    }
    if t.w + t.j < k {
      EndXMono(cfg, t.w + t.j, k - 1);
      assert false;
    }
  }

  /** The indices the fill loop reaches are those whose prefix lies in the code's positions. */
  lemma {:induction false} InCodeIs(cfg: Cfg, t: Tab, p: nat, k: nat, x: nat)
    requires t.j <= cfg.l && t.w < k <= t.w + t.j <= 16
    requires TabStart(t) <= p < TabEnd(t) && Low(p, 16 - k) == 0
    ensures InCode(t.w, p, k, x) <==> p <= EntryPos(cfg, t, x) < p + Pow2(16 - k)
  {
    hide *;
    var n := k - t.w;
    var ck := Shr(p, 16 - k);
    TabHolds(t, p);
    EntryPosIs(cfg, t, x);
    Split(p, 16 - k);
    ShrShr(p, 16 - k, n);
    SplitCode(ck, n);
    InPrefix(t.c, t.j, n, x, 16 - t.w - t.j, 16 - k, ck);
    InCodeBits(t.w, p, k, x, ck);
  }

  lemma {:induction false} EntryPosIs(cfg: Cfg, t: Tab, x: nat)
    requires t.w + t.j <= 16
    ensures EntryPos(cfg, t, x) == Shl(EntryCode(cfg, t, x), 16 - t.w - Width(cfg, t))
    ensures t.j <= cfg.l ==> EntryPos(cfg, t, x) == Shl(Shl(t.c, t.j) + Rev(x, t.j), 16 - t.w - t.j)
    ensures Rest(t.w) == 16 - t.w
  {
  }

  lemma {:induction false} InPrefix(c: nat, j: nat, n: nat, x: nat, e: nat, a: nat, ck: nat)
    requires n <= j && e + (j - n) == a
    ensures Shl(ck, a) <= Shl(Shl(c, j) + Rev(x, j), e) < Shl(ck, a) + Pow2(a) <==> Shl(c, n) + Rev(x, n) == ck
  {
    hide *;
    var ec := Shl(c, j) + Rev(x, j);
    ShrInterval(Shl(ec, e), ck, a);
    ShrOfShl(ec, e);
    ShrShr(Shl(ec, e), e, j - n);
    ShrSum(c, Rev(x, j), j, j - n);
    TopOfRev(x, n, j);
  }

  lemma {:induction false} InCodeBits(w: nat, p: nat, k: nat, x: nat, ck: nat)
    requires w < k <= 16 && p == Shl(ck, 16 - k)
    ensures InCode(w, p, k, x) <==> Rev(x, k - w) == Low(ck, k - w)
  {
    var n := k - w;
    hide Shl, Shr, Low, Rev, Pow2;
    RevTrailing(ck, 16 - k, k);
    TopOfRev(ck, n, k);
    RevLow(ck, n, n);
    assert Shr(Rev(p, 16), w) == Rev(Low(ck, n), n);
    RevLow(x, n, n);
    RevRev(x, n);
    RevRev(Low(ck, n), n);
    LowLow(ck, n, n);
  }

  /** A code that starts inside a table ends inside it. */
  lemma {:induction false} EndsInside(t: Tab, p: nat, k: nat)
    requires t.w <= k <= 16 && TabStart(t) <= p < TabEnd(t) && Low(p, 16 - k) == 0
    ensures p + Pow2(16 - k) <= TabEnd(t)
  {
    hide *;
    var n := k - t.w;
    var a := 16 - k;
    var ck := Shr(p, a);
    TabHolds(t, p);
    TabEndIs(t);
    Split(p, a);
    ShlAdd(t.c, 1, a + n);
    ShlOne(a + n);
    ShlShl(t.c + 1, n, a);
    PrefixBelow(ck, t.c, n, a, p);
    ShlMono(ck, Shl(t.c + 1, n), a);
  }

  lemma {:induction false} TabEndIs(t: Tab)
    requires t.w <= 16
    ensures Rest(t.w) == 16 - t.w && TabStart(t) == Shl(t.c, 16 - t.w) && TabEnd(t) == Shl(t.c, 16 - t.w) + Pow2(16 - t.w)
  {
  }

  lemma {:induction false} PrefixBelow(ck: nat, c: nat, n: nat, a: nat, p: nat)
    requires p == Shl(ck, a) && Shr(p, a + n) == c
    ensures ck < Shl(c + 1, n)
  {
    hide *;
    ShrOfShl(ck, a);
    ShrShr(p, a, n);
    ShrInterval(ck, c, n);
    ShlAdd(c, 1, n);
    ShlOne(n);
  }

  /** The fill loop changes only slots of the open table. */
  lemma {:induction false} FillOther(cfg: Cfg, h0: seq<Huft>, hn0: nat, st: St, st': St, k: nat, r: Huft, a: nat, x: nat)
    requires Mem(cfg, h0, hn0, st) && FillStep(cfg, st, st', k, r)
    requires a in st.tabs && x < Pow2(st.tabs[a].j)
    ensures a + x < |st.h|
    ensures a != Top(st) || !InCode(st.tabs[a].w, st.p, k, x) ==> st'.h[a + x] == st.h[a + x]
    ensures a == Top(st) && InCode(st.tabs[a].w, st.p, k, x) ==> st'.h[a + x] == r
  {
    hide TabOk, InCode, Pow2;
  }

  lemma {:induction false} FillMem(cfg: Cfg, h0: seq<Huft>, hn0: nat, st: St, st': St, k: nat, r: Huft)
    requires Mem(cfg, h0, hn0, st) && FillStep(cfg, st, st', k, r)
    ensures Mem(cfg, h0, hn0, st')
  {
    hide TabOk, InCode, Pow2;
  }

  lemma {:induction false} FillGaps(cfg: Cfg, h0: seq<Huft>, hn0: nat, st: St, st': St, k: nat, r: Huft)
    requires Mem(cfg, h0, hn0, st) && Gaps(cfg, h0, st) && FillStep(cfg, st, st', k, r) && st.tabs[Top(st)].j <= cfg.l
    ensures Gaps(cfg, h0, st')
  {
    forall a, x | a in st'.tabs && Pow2(cfg.l) <= x < Pow2(st'.tabs[a].j) ensures Kept(h0, st'.h, a, x) {
      assert Kept(h0, st.h, a, x);
      if a == Top(st) {
        Pow2Mono(st.tabs[a].j, cfg.l);
        assert false;
      }
      FillOther(cfg, h0, hn0, st, st', k, r, a, x);
    }
  }

  lemma {:induction false} FillLinks(cfg: Cfg, h0: seq<Huft>, hn0: nat, st: St, st': St, k: nat, r: Huft, i: nat)
    requires cfg.l >= 1 && Mem(cfg, h0, hn0, st) && Stack(cfg, st) && FillStep(cfg, st, st', k, r) && 0 < i < |st.stk|
    ensures Linked(cfg, st'.h, st'.tabs, st'.stk[i - 1], LinkIndex(cfg, st'.tabs[st'.stk[i]]), st'.stk[i])
  {
    hide Shl, Pow2, Rev, Low, Shr, EntryCode, EntryPos, EndX, TabStart, TabEnd, TabOk, InCode;
    var a := st.stk[i - 1];
    var x := LinkIndex(cfg, st.tabs[st.stk[i]]);
    assert Linked(cfg, st.h, st.tabs, a, x, st.stk[i]);
    StkDistinct(cfg, st, i - 1, |st.stk| - 1);
    Pow2Mono(cfg.l, st.tabs[a].j);
    hide Stack;
    FillOther(cfg, h0, hn0, st, st', k, r, a, x);
    LinkedMono(cfg, st.h, st.tabs, st'.h, st'.tabs, a, x, st.stk[i]);
  }

  /** A linked table's positions are those of the slot it hangs from. */
  lemma {:induction false} ChildRange(cfg: Cfg, h: seq<Huft>, tabs: map<nat, Tab>, a: nat, x: nat, a2: nat)
    requires Linked(cfg, h, tabs, a, x, a2) && TabOk(cfg, tabs[a])
    ensures EntryPos(cfg, tabs[a], x) == TabStart(tabs[a2])
    ensures TabEnd(tabs[a2]) <= TabEnd(tabs[a])
  {
    EntryAfterStart(cfg, tabs[a], x);
    TabEndIs(tabs[a2]);
    EntryPosIs(cfg, tabs[a], x);
    hide Shl, Pow2, Rev, EntryCode, EntryPos, TabStart, TabEnd;
  }

  /** An open table ends no later than the open tables above it. */
  lemma {:induction false} NestEnd(cfg: Cfg, h0: seq<Huft>, hn0: nat, st: St, i: nat, k: nat)
    requires Mem(cfg, h0, hn0, st) && Stack(cfg, st) && i <= k < |st.stk|
    ensures TabEnd(st.tabs[st.stk[k]]) <= TabEnd(st.tabs[st.stk[i]])
    decreases k
  {
    hide Shl, Pow2, Rev, Low, TabEnd, TabStart, EndX, EntryCode, EntryPos, LinkIndex, Linked, TabOk;
    if i < k {
      NestEnd(cfg, h0, hn0, st, i, k - 1);
      assert Linked(cfg, st.h, st.tabs, st.stk[k - 1], LinkIndex(cfg, st.tabs[st.stk[k]]), st.stk[k]);
      assert TabOk(cfg, st.tabs[st.stk[k - 1]]);
      hide Stack, Mem;
      ChildRange(cfg, st.h, st.tabs, st.stk[k - 1], LinkIndex(cfg, st.tabs[st.stk[k]]), st.stk[k]);
    }
  }

  lemma {:induction false} FillStack(cfg: Cfg, h0: seq<Huft>, hn0: nat, st: St, st': St, k: nat, r: Huft)
    requires FillPre(cfg, h0, hn0, st, k, r) && FillStep(cfg, st, st', k, r)
    ensures Stack(cfg, st')
  {
    hide Shl, Pow2, Rev, Low, Shr, EntryCode, EntryPos, EndX, TabStart, TabEnd, TabOk, InCode, Gaps, Filled, Closed, EntryFor, ListsOk, Linked, LinkIndex;
    TopFits(cfg, h0, hn0, st, k, r);
    EndsInside(st.tabs[Top(st)], st.p, k);
    RestIs(k);
    forall i | 0 <= i < |st.stk| ensures st'.p <= TabEnd(st.tabs[st.stk[i]]) {
      NestEnd(cfg, h0, hn0, st, i, |st.stk| - 1);
    }
    forall i | 0 < i < |st.stk|
      ensures Linked(cfg, st'.h, st'.tabs, st'.stk[i - 1], LinkIndex(cfg, st'.tabs[st'.stk[i]]), st'.stk[i])
    {
      FillLinks(cfg, h0, hn0, st, st', k, r, i);
    }
  }

  /** A slot whose positions lie in an open table hung from the same table is the link to it. */
  lemma {:induction false} OnlyLinkInside(cfg: Cfg, h: seq<Huft>, tabs: map<nat, Tab>, a: nat, x: nat, y: nat, a2: nat)
    requires Linked(cfg, h, tabs, a, y, a2) && y == Rev(Low(tabs[a2].c, cfg.l), cfg.l)
    requires x < Pow2(cfg.l) && TabStart(tabs[a2]) <= EntryPos(cfg, tabs[a], x) < TabEnd(tabs[a2])
    ensures x == y
  {
    var t, t2 := tabs[a], tabs[a2];
    var p := EntryPos(cfg, t, x);
    TabHolds(t2, p);
    assert p == Shl(Shl(t.c, cfg.l) + Rev(x, cfg.l), 16 - t2.w);
    assert t2.c == Shl(t.c, cfg.l) + Rev(y, cfg.l);
    hide *;
    RestIs(t2.w);
    ShrOfShl(Shl(t.c, cfg.l) + Rev(x, cfg.l), 16 - t2.w);
    RevInjective(x, y, cfg.l);
  }

  /** Slots of the tables above the open one, at positions in the open one, are its links. */
  lemma {:induction false} FillAncestor(cfg: Cfg, h0: seq<Huft>, hn0: nat, st: St, st': St, k: nat, r: Huft, i: nat, x: nat)
    requires FillPre(cfg, h0, hn0, st, k, r) && FillStep(cfg, st, st', k, r) && i + 1 < |st.stk|
    requires x < Pow2(Width(cfg, st.tabs[st.stk[i]])) && st.p <= EntryPos(cfg, st.tabs[st.stk[i]], x) < st'.p
    ensures Good(cfg, st'.h, st'.tabs, st.stk[i], x)
  {
    hide *;
    FillStack(cfg, h0, hn0, st, st', k, r);
    FillParts(cfg, h0, hn0, st, st', k, r);
    AncestorLink(cfg, st, st', i, x);
  }

  lemma {:induction false} FillParts(cfg: Cfg, h0: seq<Huft>, hn0: nat, st: St, st': St, k: nat, r: Huft)
    requires FillPre(cfg, h0, hn0, st, k, r) && FillStep(cfg, st, st', k, r)
    ensures Stack(cfg, st) && Mem(cfg, h0, hn0, st) && Gaps(cfg, h0, st) && Closed(st) && Aligned(cfg, st)
    ensures st'.tabs == st.tabs && st'.stk == st.stk && st'.hn == st.hn && st'.p == st.p + Pow2(Rest(k))
    ensures CfgOk(cfg) && |st.stk| > 0
  {
    hide Shl, Pow2, Rev, Low, EndX, InCode, EntryFor, TabOk, TabStart, TabEnd, Mem, Gaps, Filled, Stack, Closed, Aligned;
  }

  lemma {:induction false} AncestorLink(cfg: Cfg, st: St, st': St, i: nat, x: nat)
    requires Stack(cfg, st) && Stack(cfg, st') && st'.tabs == st.tabs && st'.stk == st.stk && i + 1 < |st.stk|
    requires x < Pow2(Width(cfg, st.tabs[st.stk[i]])) && st.p <= EntryPos(cfg, st.tabs[st.stk[i]], x) < st'.p
    ensures Good(cfg, st'.h, st'.tabs, st.stk[i], x)
  {
    WidthBound(cfg, st.tabs[st.stk[i]]);
    hide Shl, Pow2, Rev, Low, TabEnd, TabStart, EntryCode, EntryPos, IsLink, LeafFor;
    var a, a2 := st.stk[i], st.stk[i + 1];
    assert TabStart(st.tabs[a2]) <= st.p && st'.p <= TabEnd(st.tabs[a2]);
    assert Linked(cfg, st'.h, st'.tabs, a, LinkIndex(cfg, st'.tabs[a2]), a2);
    hide Stack;
    OnlyLinkInside(cfg, st'.h, st'.tabs, a, x, LinkIndex(cfg, st'.tabs[a2]), a2);
  }

  /** The slots of the open table that the code owns. */
  lemma {:induction false} FillOpen(cfg: Cfg, h0: seq<Huft>, hn0: nat, st: St, st': St, k: nat, r: Huft, x: nat)
    requires FillPre(cfg, h0, hn0, st, k, r) && FillStep(cfg, st, st', k, r)
    requires x < Pow2(st.tabs[Top(st)].j) && st.p <= EntryPos(cfg, st.tabs[Top(st)], x) < st'.p
    ensures Good(cfg, st'.h, st'.tabs, Top(st), x)
  {
    TopFits(cfg, h0, hn0, st, k, r);
    RestIs(k);
    InCodeIs(cfg, st.tabs[Top(st)], st.p, k, x);
    FillOther(cfg, h0, hn0, st, st', k, r, Top(st), x);
    hide Shl, Pow2, Rev, Low, TabEnd, TabStart, EndX, EntryCode, EntryPos, Filled, Mem, Gaps, Closed, InCode, Stack, TabOk, LeafFor, IsLink;
  }

  /** The slots given out before keep their entries. */
  lemma {:induction false} FillEarlier(cfg: Cfg, h0: seq<Huft>, hn0: nat, st: St, st': St, k: nat, r: Huft, a: nat, x: nat)
    requires FillPre(cfg, h0, hn0, st, k, r) && FillStep(cfg, st, st', k, r)
    requires a in st.tabs && x < Pow2(Width(cfg, st.tabs[a])) && EntryPos(cfg, st.tabs[a], x) < st.p
    ensures Good(cfg, st'.h, st'.tabs, a, x)
  {
    hide Shl, Pow2, Rev, Low, TabEnd, TabStart, EndX, EntryCode, EntryPos, Gaps, Closed, InCode, Stack, TabOk, LeafFor, IsLink, Good, EntryFor;
    WidthBound(cfg, st.tabs[a]);
    TopFits(cfg, h0, hn0, st, k, r);
    RestIs(k);
    if a == Top(st) { InCodeIs(cfg, st.tabs[a], st.p, k, x); }
    FillOther(cfg, h0, hn0, st, st', k, r, a, x);
    GoodMono(cfg, st.h, st.tabs, st'.h, st'.tabs, a, x);
  }

  lemma {:induction false} FillFilled(cfg: Cfg, h0: seq<Huft>, hn0: nat, st: St, st': St, k: nat, r: Huft)
    requires FillPre(cfg, h0, hn0, st, k, r) && FillStep(cfg, st, st', k, r)
    ensures Filled(cfg, st')
  {
    hide Shl, Pow2, Rev, Low, EndX, EntryCode, EntryPos, Gaps, Filled, InCode, Stack, LeafFor, IsLink, Good, EntryFor;
    forall a, x | a in st'.tabs && 0 <= x < Pow2(Width(cfg, st'.tabs[a])) && EntryPos(cfg, st'.tabs[a], x) < st'.p
      ensures Good(cfg, st'.h, st'.tabs, a, x)
    {
      assert TabOk(cfg, st.tabs[a]);
      if EntryPos(cfg, st.tabs[a], x) < st.p {
        FillEarlier(cfg, h0, hn0, st, st', k, r, a, x);
      } else if a in st.stk {
        var i :| 0 <= i < |st.stk| && st.stk[i] == a;
        if i + 1 < |st.stk| {
          FillAncestor(cfg, h0, hn0, st, st', k, r, i, x);
        } else {
          WidthBound(cfg, st.tabs[a]);
          FillOpen(cfg, h0, hn0, st, st', k, r, x);
        }
      } else {
        EntryAfterStart(cfg, st.tabs[a], x);
        assert false;
      }
    }
    FilledIntro(cfg, st');
  }

  lemma {:induction false} FilledIntro(cfg: Cfg, st: St)
    requires forall a, x :: a in st.tabs && 0 <= x < Pow2(Width(cfg, st.tabs[a])) && EntryPos(cfg, st.tabs[a], x) < st.p
               ==> Good(cfg, st.h, st.tabs, a, x)
    ensures Filled(cfg, st)
  {
  }

  lemma {:induction false} LowSum(p: nat, k: nat, n: nat)
    requires Low(p, k) == 0 && n <= k
    ensures Low(p + Pow2(k), n) == 0 && Low(p + Pow2(k), k) == 0
  {
    Split(p, k);
    ShlOne(k);
    ShlAdd(Shr(p, k), 1, k);
    ShrOfShl(Shr(p, k) + 1, k);
    LowLow(p + Pow2(k), k, n);
    LowOfZero(n);
  }

  lemma {:induction false} FillAligned(cfg: Cfg, st: St, st': St, k: nat)
    requires Aligned(cfg, st) && Low(st.p, Rest(k)) == 0 && 0 < k <= Depth(cfg, st) + cfg.l && |st.stk| > 0
    requires st'.tabs == st.tabs && st'.stk == st.stk && st'.p == st.p + Pow2(Rest(k))
    ensures Aligned(cfg, st')
  {
    hide Low, Pow2;
    LowSum(st.p, Rest(k), Rest(Depth(cfg, st) + cfg.l));
  }

  /** Entering a code keeps the invariant. */
  lemma {:induction false} FillKeeps(cfg: Cfg, h0: seq<Huft>, hn0: nat, st: St, st': St, k: nat, r: Huft)
    requires FillPre(cfg, h0, hn0, st, k, r) && FillStep(cfg, st, st', k, r)
    ensures Inv(cfg, h0, hn0, st') && st'.p > st.p
  {
    hide Shl, Pow2, Rev, Low, EndX, EntryCode, EntryPos, InCode, LeafFor, IsLink, Good, EntryFor, TabOk, TabStart, TabEnd,
         Mem, Gaps, Filled, Stack, FillStep, Aligned, Head, ListsOk, ValidLens;
    TopFits(cfg, h0, hn0, st, k, r);
    FillStack(cfg, h0, hn0, st, st', k, r);
    FillFilled(cfg, h0, hn0, st, st', k, r);
    FillParts(cfg, h0, hn0, st, st', k, r);
    FillMem(cfg, h0, hn0, st, st', k, r);
    FillGaps(cfg, h0, hn0, st, st', k, r);
    FillAligned(cfg, st, st', k);
    RootEnd(cfg, h0, hn0, st');
  }

  lemma {:induction false} RootEnd(cfg: Cfg, h0: seq<Huft>, hn0: nat, st: St)
    requires Mem(cfg, h0, hn0, st) && Stack(cfg, st) && |st.stk| > 0
    ensures st.p <= SPACE
  {
    var t := st.tabs[st.stk[0]];
    assert TabOk(cfg, t);
    hide Linked, LinkIndex, EndX;
    assert t.c == 0;
    TabEndIs(t);
    ShlOne(16);
    Pow2Values();
  }

  // ---------------------------------------------------------------- leaving finished tables

  ghost function Popped(st: St): (r: St)
    requires |st.stk| > 0
    ensures r.p == st.p
  {
    st.(stk := st.stk[..|st.stk| - 1])
  }

  /** A finished table is left for the one above it. */
  lemma {:induction false} PopKeeps(cfg: Cfg, h0: seq<Huft>, hn0: nat, st: St)
    requires Inv(cfg, h0, hn0, st) && |st.stk| > 1 && st.p >= TabEnd(st.tabs[Top(st)])
    ensures Inv(cfg, h0, hn0, Popped(st))
    ensures Depth(cfg, Popped(st)) + cfg.l == Depth(cfg, st) >= 0
  {
    hide Shl, Pow2, Rev, Low, EndX, Good, TabOk, Gaps, Filled, Linked, LinkIndex, ListsOk, ValidLens;
    TopKnown(cfg, h0, hn0, st);
    assert TabEnd(st.tabs[Top(st)]) == st.p;
    TabEndLow(st.tabs[Top(st)]);
    hide TabStart, TabEnd;
    PopStack(cfg, st);
    hide Stack;
    PopRest(cfg, h0, hn0, st);
  }

  lemma {:induction false} PopStack(cfg: Cfg, st: St)
    requires Stack(cfg, st) && |st.stk| > 1
    ensures Stack(cfg, Popped(st)) && Depth(cfg, Popped(st)) + cfg.l == Depth(cfg, st)
  {
    hide TabStart, TabEnd, Linked, LinkIndex;
  }

  lemma {:induction false} PopRest(cfg: Cfg, h0: seq<Huft>, hn0: nat, st: St)
    requires Mem(cfg, h0, hn0, st) && Gaps(cfg, h0, st) && Filled(cfg, st) && Closed(st) && |st.stk| > 1
    requires Top(st) in st.tabs && st.p >= TabEnd(st.tabs[Top(st)])
    ensures Mem(cfg, h0, hn0, Popped(st)) && Gaps(cfg, h0, Popped(st)) && Filled(cfg, Popped(st)) && Closed(Popped(st))
  {
    hide TabStart, TabEnd, TabOk, Good, EntryPos, Pow2;
    forall a | a in st.tabs ensures a in Popped(st).stk || TabEnd(st.tabs[a]) <= st.p {
      if a in st.stk && a != Top(st) {
        var i :| 0 <= i < |st.stk| && st.stk[i] == a;
        assert Popped(st).stk[i] == a;
      }
    }
  }

  lemma {:induction false} TabEndLow(t: Tab)
    ensures Low(TabEnd(t), Rest(t.w)) == 0
  {
    hide Shl, Pow2, Low;
    ShlAdd(t.c, 1, Rest(t.w));
    ShlOne(Rest(t.w));
    ShrOfShl(t.c + 1, Rest(t.w));
  }

  // ---------------------------------------------------------------- all codes entered

  lemma {:induction false} CompactAt(lens: seq<nat>, g: nat, l: nat, n: nat, w: nat)
    requires l >= 1 && g <= 16 && Compact(lens, g, l, n) && n <= w && OnGrid(l, w - n)
    ensures Compact(lens, g, l, w)
    decreases w - n
  {
    if n < w && n + l < g {
      CompactAt(lens, g, l, n + l, w);
    }
  }

  lemma {:induction false} CompactIsNarrow(cfg: Cfg, t: Tab)
    requires CfgOk(cfg) && TabOk(cfg, t) && Compact(cfg.lens, cfg.g, cfg.l, 0)
    ensures t.j <= cfg.l
  {
    hide OnGrid, Shl, Pow2, End, TabBits, Compact;
    CompactAt(cfg.lens, cfg.g, cfg.l, 0, t.w);
    CompactUnfold(cfg.lens, cfg.g, cfg.l, t.w);
    TabInSpace(cfg, t);
  }

  lemma {:induction false} CompactUnfold(lens: seq<nat>, g: nat, l: nat, n: nat)
    requires l >= 1 && g <= 16 && Compact(lens, g, l, n)
    ensures n + l >= g || End(lens, n + l) + Pow2(16 - n) > SPACE
  {
  }

  /** When the code space is used up and no table was too wide, every slot is right. */
  lemma {:induction false} DoneIsGood(cfg: Cfg, h0: seq<Huft>, hn0: nat, st: St)
    requires Inv(cfg, h0, hn0, st) && st.p == SPACE && Compact(cfg.lens, cfg.g, cfg.l, 0)
    ensures AllGood(cfg, st.h, st.tabs)
  {
    hide Compact, Good, EndX, Stack, Gaps, Closed, Aligned, EntryPos;
    forall a | a in st.tabs
      ensures TabOk(cfg, st.tabs[a]) && st.tabs[a].j <= cfg.l
      ensures forall x :: 0 <= x < Pow2(st.tabs[a].j) ==> Good(cfg, st.h, st.tabs, a, x)
    {
      CompactIsNarrow(cfg, st.tabs[a]);
      forall x | 0 <= x < Pow2(st.tabs[a].j) ensures Good(cfg, st.h, st.tabs, a, x) {
        EntryAfterStart(cfg, st.tabs[a], x);
        TabInSpace(cfg, st.tabs[a]);
      }
    }
  }

  lemma {:induction false} TabInSpace(cfg: Cfg, t: Tab)
    requires TabOk(cfg, t)
    ensures TabEnd(t) <= SPACE
  {
    ShlBound(t.c, t.w, 16 - t.w);
    Pow2Values();
  }

  /** The first table is indexed by exactly l bits. */
  /** The longest codes fill what the others leave. */
  lemma {:induction false} BelowLast(cfg: Cfg, j: nat)
    requires CfgOk(cfg) && Count(cfg.lens, cfg.g) > 0 && j < cfg.g
    ensures EndX(cfg, j) < SPACE
  {
    EndMono(cfg.lens, j, cfg.g - 1);
    ShlMono(0, Count(cfg.lens, cfg.g), 16 - cfg.g);
    assert End(cfg.lens, cfg.g) == End(cfg.lens, cfg.g - 1) + Shl(Count(cfg.lens, cfg.g), 16 - cfg.g);
    hide End, Shl, Count;
  }

  lemma {:induction false} RootSpan(t: Tab)
    requires t.w == 0 && t.c < Pow2(0)
    ensures TabStart(t) == 0 && TabEnd(t) == SPACE
  {
    ShlOne(16);
    Pow2Values();
  }

  lemma {:induction false} FullRoot(cfg: Cfg, t: Tab)
    requires CfgOk(cfg) && TabOk(cfg, t) && t.w == 0 && Count(cfg.lens, cfg.g) > 0 && EndX(cfg, cfg.l) > 0
    ensures t == Tab(0, cfg.l, 0)
  {
    hide Count, End, EndX, TabStart, TabEnd;
    RootSpan(t);
    if t.j < cfg.l { BelowLast(cfg, t.j); }
  }

  lemma {:induction false} RootIsFull(cfg: Cfg, h0: seq<Huft>, hn0: nat, st: St)
    requires Inv(cfg, h0, hn0, st) && |st.stk| > 0
    requires Count(cfg.lens, cfg.g) > 0 && EndX(cfg, cfg.l) > 0
    ensures hn0 in st.tabs && st.tabs[hn0] == Tab(0, cfg.l, 0)
  {
    hide Gaps, Filled, Closed, Aligned, EndX, Count;
    FullRoot(cfg, st.tabs[hn0]);
  }

  lemma {:induction false} AllGoodFrame(cfg: Cfg, h0: seq<Huft>, hn0: nat, st: St, h: seq<Huft>)
    requires Mem(cfg, h0, hn0, st) && AllGood(cfg, st.h, st.tabs)
    requires |h| >= st.hn && forall i :: hn0 <= i < st.hn ==> h[i] == st.h[i]
    ensures AllGood(cfg, h, st.tabs)
  {
    hide TabOk;
    forall a, x | a in st.tabs && 0 <= x < Pow2(st.tabs[a].j) ensures Good(cfg, h, st.tabs, a, x) {
      assert Good(cfg, st.h, st.tabs, a, x);
      GoodMono(cfg, st.h, st.tabs, h, st.tabs, a, x);
    }
  }
}
