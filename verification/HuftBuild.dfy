/** huft_build of DuiLib/XUnzip.cpp. */
module HuftBuild {
  import opened Bits
  import opened Canonical
  import opened HuftSpec
  import opened HuftTables
  import opened HuftGap

  const Z_OK: int := 0
  const Z_DATA_ERROR: int := -3
  const Z_MEM_ERROR: int := -4
  const Z_BUF_ERROR: int := -5
  const MANY: nat := 1440

  // ---------------------------------------------------------------- the codes in order

  /** The number of dummy codes that fill the code space up, all of length g. */
  function Dummies(lens: seq<nat>, g: nat): nat
    requires g <= 16
  {
    if End(lens, g) <= SPACE then Shr(SPACE - End(lens, g), 16 - g) else 0
  }

  function CountX(cfg: Cfg, k: nat): nat
    requires cfg.g <= 16
  {
    Count(cfg.lens, k) + if k == cfg.g then Dummies(cfg.lens, cfg.g) else 0
  }

  lemma {:induction false} EndLow(lens: seq<nat>, k: nat)
    requires 1 <= k <= 16
    ensures Low(End(lens, k - 1), 16 - k) == 0 && Low(End(lens, k), 16 - k) == 0
  {
    NextCodeEnd(lens, k);
    ShrOfShl(NextCode(lens, k), 16 - k);
    ShlAdd(NextCode(lens, k), Count(lens, k), 16 - k);
    ShrOfShl(NextCode(lens, k) + Count(lens, k), 16 - k);
  }

  lemma {:induction false} EndXStep(cfg: Cfg, k: nat)
    requires CfgOk(cfg) && 1 <= k <= cfg.g
    ensures EndX(cfg, k) == EndX(cfg, k - 1) + Shl(CountX(cfg, k), 16 - k)
    ensures Low(EndX(cfg, k - 1), 16 - k) == 0
  {
    hide End, Low, Shl, Count, Dummies, ValidLens, ListsOk;
    EndLow(cfg.lens, k);
    EndUnfold(cfg.lens, k);
    if k == cfg.g {
      DummiesFill(cfg.lens, k);
      ShlAdd(Count(cfg.lens, k), Dummies(cfg.lens, k), 16 - k);
    }
  }

  lemma {:induction false} EndUnfold(lens: seq<nat>, k: nat)
    requires 1 <= k <= 16
    ensures End(lens, k) == End(lens, k - 1) + Shl(Count(lens, k), 16 - k)
  {
  }

  lemma {:induction false} DummiesFill(lens: seq<nat>, g: nat)
    requires 1 <= g <= 16 && End(lens, g) <= SPACE
    ensures End(lens, g) + Shl(Dummies(lens, g), 16 - g) == SPACE
  {
    hide End, Low, Shl, Shr;
    EndLow(lens, g);
    Split(End(lens, g), 16 - g);
    Split(SPACE, 16 - g);
    WholeLow(g);
    DiffLow(SPACE, End(lens, g), 16 - g);
    Split(SPACE - End(lens, g), 16 - g);
  }

  lemma {:induction false} WholeLow(g: nat)
    requires g <= 16
    ensures Low(SPACE, 16 - g) == 0
  {
    Pow2Values();
    Pow2Add(g, 16 - g);
    ShlMul(Pow2(g), 16 - g);
    ShrOfShl(Pow2(g), 16 - g);
  }

  lemma {:induction false} DiffLow(x: nat, y: nat, n: nat)
    requires y <= x && Low(x, n) == 0 && Low(y, n) == 0
    ensures Low(x - y, n) == 0
  {
    Split(x, n);
    Split(y, n);
    if Shr(x, n) < Shr(y, n) { ShlMono(Shr(x, n), Shr(y, n), n); }
    ShlAdd(Shr(x, n) - Shr(y, n), Shr(y, n), n);
    ShrOfShl(Shr(x, n) - Shr(y, n), n);
  }

  /** p is where code number r of length k starts. */
  ghost predicate At(cfg: Cfg, k: nat, r: nat, p: nat)
    requires 1 <= k <= 16 && cfg.g <= 16
  {
    k <= cfg.g && r <= CountX(cfg, k) && p == EndX(cfg, k - 1) + Shl(r, 16 - k)
  }

  lemma {:induction false} AtFacts(cfg: Cfg, k: nat, r: nat, p: nat)
    requires CfgOk(cfg) && 1 <= k <= cfg.g && At(cfg, k, r, p)
    ensures EndX(cfg, k - 1) <= p && Low(p, 16 - k) == 0
    ensures r < CountX(cfg, k) ==> p < EndX(cfg, k) && At(cfg, k, r + 1, p + Pow2(16 - k))
    ensures r == CountX(cfg, k) ==> p == EndX(cfg, k)
  {
    EndXStep(cfg, k);
    hide EndX, Low, Shl, CountX, Pow2;
    SumLow(EndX(cfg, k - 1), r, 16 - k);
    ShlAdd(r, 1, 16 - k);
    ShlOne(16 - k);
    if r < CountX(cfg, k) { ShlMono(r, CountX(cfg, k), 16 - k); }
  }

  lemma {:induction false} SumLow(x: nat, r: nat, n: nat)
    requires Low(x, n) == 0
    ensures Low(x + Shl(r, n), n) == 0
  {
    Split(x, n);
    ShlAdd(Shr(x, n), r, n);
    ShrOfShl(Shr(x, n) + r, n);
  }

  /** v lists the symbols that have codes, sorted by code length and then by number. */
  ghost predicate Values(lens: seq<nat>, v: seq<nat>)
  {
    forall i :: 0 <= i < |lens| && lens[i] > 0 ==> Slot(lens, i) < |v| && v[Slot(lens, i)] == i
  }

  function Smaller(a: nat, b: nat): nat { if a < b then a else b }

  /** The table entry for code number r of length k, taken from the value list at place pi. */
  function EntryOf(cfg: Cfg, v: seq<nat>, n: nat, pi: nat, bits: nat, base: nat): Huft
    requires n <= |v|
    requires pi < n && cfg.s <= v[pi] ==> v[pi] - cfg.s < |cfg.d| && v[pi] - cfg.s < |cfg.e|
  {
    if pi >= n then Huft(INVALID, bits, base) else Huft(Exop(cfg, v[pi]), bits, Base(cfg, v[pi]))
  }

  /** The place of code number r of length k in the value list holds the symbol that owns it. */
  lemma {:induction false} ValueAt(cfg: Cfg, v: seq<nat>, k: nat, r: nat)
    requires CfgOk(cfg) && 1 <= k <= cfg.g && Values(cfg.lens, v) && r < Count(cfg.lens, k)
    ensures var pi := Below(cfg.lens, k) + r; var n := Below(cfg.lens, cfg.g + 1);
            pi < n && pi < |v| && v[pi] < |cfg.lens| && cfg.lens[v[pi]] == k && Rank(cfg.lens, v[pi]) == r && Slot(cfg.lens, v[pi]) == pi
  {
    var i := RankSurjective(cfg.lens, k, r);
    BelowMono(cfg.lens, k + 1, cfg.g + 1);
    hide Count, Below;
  }

  lemma {:induction false} EntryReal(cfg: Cfg, v: seq<nat>, k: nat, r: nat, p: nat, w: nat, base: nat)
    requires CfgOk(cfg) && 1 <= k <= cfg.g && Values(cfg.lens, v) && Below(cfg.lens, cfg.g + 1) <= |v|
    requires At(cfg, k, r, p) && w < k && r < Count(cfg.lens, k)
    ensures var pi := Below(cfg.lens, k) + r; var n := Below(cfg.lens, cfg.g + 1);
            pi < n && v[pi] < |cfg.lens| && (cfg.s <= v[pi] ==> v[pi] - cfg.s < |cfg.d| && v[pi] - cfg.s < |cfg.e|)
            && cfg.lens[v[pi]] > 0 && Slot(cfg.lens, v[pi]) == pi
            && EntryFor(cfg, EntryOf(cfg, v, n, pi, k - w, base), w, p, k)
  {
    hide Count, Below, End, Shl, Pow2, Code, Rank, Slot, Values, CountX, ValidLens;
    ValueAt(cfg, v, k, r);
    var i := v[Below(cfg.lens, k) + r];
    StartAt(cfg.lens, i);
    hide Start;
    forall q | p <= q < p + Pow2(Rest(k)) ensures SymAt(cfg.lens, q) == Some(i) {
      SymAtIs(cfg.lens, i, q);
    }
  }

  lemma {:induction false} EntryDummy(cfg: Cfg, v: seq<nat>, k: nat, r: nat, p: nat, w: nat, base: nat)
    requires CfgOk(cfg) && 1 <= k <= cfg.g && Below(cfg.lens, cfg.g + 1) <= |v|
    requires At(cfg, k, r, p) && w < k && Count(cfg.lens, k) <= r < CountX(cfg, k) && Stale(cfg, base)
    ensures k == cfg.g && Below(cfg.lens, k) + r >= Below(cfg.lens, cfg.g + 1)
    ensures EntryFor(cfg, Huft(INVALID, k - w, base), w, p, k)
  {
    assert End(cfg.lens, k) == End(cfg.lens, k - 1) + Shl(Count(cfg.lens, k), 16 - k);
    EndTail(cfg.lens, cfg.g, 15);
    if Count(cfg.lens, k) < r { ShlMono(Count(cfg.lens, k), r, 16 - k); }
    hide End, Count, Below, Shl, Pow2;
    forall q | p <= q < p + Pow2(Rest(k)) ensures SymAt(cfg.lens, q) == None {
      SymAtNone(cfg.lens, q);
    }
  }

  lemma {:induction false} EndTail(lens: seq<nat>, g: nat, k: nat)
    requires g <= k <= 16 && forall i :: 0 <= i < |lens| ==> lens[i] <= g
    ensures End(lens, k) == End(lens, g)
    decreases k
  {
    if g < k {
      EndTail(lens, g, k - 1);
      CountNone(lens, k);
      ShlOne(16 - k);
    }
  }

  lemma {:induction false} CountNone(lens: seq<nat>, k: nat)
    requires forall i :: 0 <= i < |lens| ==> lens[i] != k
    ensures Count(lens, k) == 0
  {
    if lens != [] { CountNone(lens[..|lens| - 1], k); }
  }

  // ---------------------------------------------------------------- how much table space a code takes

  /** The depth of the innermost open table once the codes before position p are entered. */
  ghost function Leave(cfg: Cfg, w: nat, p: nat): (r: nat)
    ensures r <= w
  {
    if 0 < cfg.l <= w && Low(p, Rest(w)) == 0 then Leave(cfg, w - cfg.l, p) else w
  }

  /** The table entries needed for the codes from position p on, w bits deep (minus l: no table yet). */
  ghost function Space(cfg: Cfg, p: nat, w: int): nat
    requires cfg.l >= 1
    decreases SPACE - p, 20 - w
  {
    if p >= SPACE || CodeLen(cfg, p, 1) > 16 then 0
    else
      var k := CodeLen(cfg, p, 1);
      if w + cfg.l < 0 then 0
      else if k > w + cfg.l then Pow2(TabBits(cfg, w + cfg.l, p)) + Space(cfg, p, w + cfg.l)
      else if w < 0 then 0
      else Space(cfg, p + Pow2(Rest(k)), Leave(cfg, w, p + Pow2(Rest(k))))
  }

  lemma {:induction false} CodeLenIs(cfg: Cfg, p: nat, k: nat, from: nat)
    requires CfgOk(cfg) && 1 <= from <= k <= cfg.g && EndX(cfg, k - 1) <= p < EndX(cfg, k)
    ensures CodeLen(cfg, p, from) == k
    decreases k - from
  {
    if from < k {
      EndXMono(cfg, from, k - 1);
      CodeLenIs(cfg, p, k, from + 1);
    }
  }

  /** The c array of the main loop: code counts with the dummies added. */
  ghost predicate Counts(cfg: Cfg, c: seq<nat>)
  {
    cfg.g <= 15 && |c| == 16 && forall k :: 1 <= k <= cfg.g ==> c[k] == CountX(cfg, k)
  }

  lemma {:induction false} GrowFacts(cfg: Cfg, w: nat, p: nat, k: nat)
    requires CfgOk(cfg) && w < k <= cfg.g && EndX(cfg, k - 1) <= p < EndX(cfg, k) && p + Pow2(Rest(w)) <= SPACE
    ensures TabBits(cfg, w, p) == GrowBits(cfg, w, p, k - w) && SizeOk(cfg, w, p, k, TabBits(cfg, w, p))
  {
    CodeLenIs(cfg, p, k, 1);
    GrowSize(cfg, w, p, k, k - w);
  }

  lemma {:induction false} GrowSize(cfg: Cfg, w: nat, p: nat, k: nat, j: nat)
    requires CfgOk(cfg) && w < k <= w + j <= cfg.g && p + Pow2(Rest(w)) <= SPACE
    requires j > k - w ==> j <= cfg.l && w + j <= cfg.g
    ensures SizeOk(cfg, w, p, k, GrowBits(cfg, w, p, j))
    decreases 16 - j
  {
    hide Pow2;
    if !(j >= 15 || w + j >= cfg.g || j >= cfg.l || EndX(cfg, w + j) >= p + Pow2(Rest(w))) {
      GrowSize(cfg, w, p, k, j + 1);
    }
  }

  /** The size computation of huft_build; a counts the codes of length k still to come after this one. */
  method TableBits(c: seq<nat>, k: nat, w: nat, a: nat, g: nat, l: nat, ghost cfg: Cfg, ghost r: nat, ghost p: nat) returns (j: nat)
    requires CfgOk(cfg) && Counts(cfg, c) && g == cfg.g && l == cfg.l && w < k <= g
    requires At(cfg, k, r, p) && r + a + 1 == CountX(cfg, k) && p + Pow2(16 - w) <= SPACE
    ensures j == TabBits(cfg, w, p) && SizeOk(cfg, w, p, k, j)
  {
    hide TabBits, SizeOk, At, Shl, EndX, CodeLen, GrowBits, CountX, Pow2, ListsOk, ValidLens, End, Low, Rest;
    AtFacts(cfg, k, r, p);
    RestIs(w);
    GrowFacts(cfg, w, p, k);
    FreeFirst(cfg, w, k, r, p, a);
    var z := if g - w > l then l else g - w;
    j := k - w;
    var f: nat := Pow2(j);
    if f > a + 1 {
      f := f - (a + 1);
      var xp := k;
      if j < z {
        GrowUnfold(cfg, w, p, j);
        j := j + 1;
        while j < z
          invariant k - w < j <= z && xp + 1 == w + j
          invariant EndX(cfg, w + j - 1) + Shl(f, 16 - (w + j - 1)) == p + Pow2(16 - w) && f > 0
          invariant TabBits(cfg, w, p) == GrowBits(cfg, w, p, j)
        {
          FreeNext(cfg, w, p, j, f);
          GrowUnfold(cfg, w, p, j);
          f := 2 * f;
          xp := xp + 1;
          if f <= c[xp] { return; }
          f := f - c[xp];
          j := j + 1;
        }
      }
    }
    GrowUnfold(cfg, w, p, j);
  }

  lemma {:induction false} GrowUnfold(cfg: Cfg, w: nat, p: nat, j: nat)
    requires CfgOk(cfg) && w + j <= cfg.g && w <= 16
    ensures GrowBits(cfg, w, p, j) ==
            if w + j >= cfg.g || j >= cfg.l || EndX(cfg, w + j) >= p + Pow2(16 - w) then j
            else GrowBits(cfg, w, p, j + 1)
  {
  }

  lemma {:induction false} ShlCompare(x: nat, y: nat, n: nat)
    ensures x <= y <==> Shl(x, n) <= Shl(y, n)
    ensures x > y ==> Shl(x, n) == Shl(y, n) + Shl(x - y, n)
  {
    if x > y {
      ShlMono(y, x, n);
      ShlAdd(y, x - y, n);
    } else if x < y {
      ShlMono(x, y, n);
    }
  }

  lemma {:induction false} ShlTwice(f: nat)
    ensures Shl(f, 1) == 2 * f
  {
    assert Shl(f, 1) == 2 * Shl(f, 0);
  }

  /** The free patterns of a table that indexes just the bits of the next code. */
  lemma {:induction false} FreeFirst(cfg: Cfg, w: nat, k: nat, r: nat, p: nat, a: nat)
    requires CfgOk(cfg) && w < k <= cfg.g && At(cfg, k, r, p) && r + a + 1 == CountX(cfg, k)
    ensures Pow2(k - w) <= a + 1 <==> EndX(cfg, k) >= p + Pow2(16 - w)
    ensures Pow2(k - w) > a + 1 ==> EndX(cfg, k) + Shl(Pow2(k - w) - (a + 1), 16 - k) == p + Pow2(16 - w)
  {
    hide EndX, Shl, CountX, Pow2;
    EndXStep(cfg, k);
    ShlAdd(r, a + 1, 16 - k);
    assert EndX(cfg, k) == p + Shl(a + 1, 16 - k);
    assert Shl(Pow2(k - w), 16 - k) == Pow2(16 - w) by {
      ShlOne(k - w);
      ShlShl(1, k - w, 16 - k);
      ShlOne(16 - w);
    }
    hide At;
    ShlCompare(Pow2(k - w), a + 1, 16 - k);
  }

  /** One more index bit doubles the free patterns, less the codes that end there. */
  lemma {:induction false} FreeNext(cfg: Cfg, w: nat, p: nat, j: nat, f: nat)
    requires CfgOk(cfg) && 1 <= j && w + j <= cfg.g
    requires EndX(cfg, w + j - 1) + Shl(f, 16 - (w + j - 1)) == p + Pow2(16 - w)
    ensures 2 * f <= CountX(cfg, w + j) <==> EndX(cfg, w + j) >= p + Pow2(16 - w)
    ensures 2 * f > CountX(cfg, w + j) ==>
              EndX(cfg, w + j) + Shl(2 * f - CountX(cfg, w + j), 16 - (w + j)) == p + Pow2(16 - w)
  {
    hide EndX, Shl, CountX, Pow2;
    var n := w + j;
    EndXStep(cfg, n);
    assert Shl(f, 16 - (n - 1)) == Shl(2 * f, 16 - n) by {
      ShlShl(f, 1, 16 - n);
      ShlTwice(f);
    }
    ShlCompare(2 * f, CountX(cfg, n), 16 - n);
  }

  // ---------------------------------------------------------------- the main loop

  /** The loop's variables: bit-reversed code, value list place, table level, bits before the current
      table, table stack, pattern stack, current table and its size, space used, stale base field. */
  datatype Loc = Loc(i: nat, pi: nat, h: int, w: int, u: seq<nat>, x: seq<nat>, q: nat, z: nat, hn: nat, base: nat)

  ghost predicate Rel(cfg: Cfg, st: St, loc: Loc)
  {
    loc.hn == st.hn && loc.h == |st.stk| - 1 && loc.w == Depth(cfg, st) && |loc.u| == 15 && |loc.x| == 16 && loc.x[0] == 0
    && loc.i == Rev(st.p, 16) && |st.stk| <= 15
    && forall n :: 0 <= n < |st.stk| ==>
         loc.u[n] == st.stk[n] && st.stk[n] in st.tabs && loc.x[n] == Rev(st.tabs[st.stk[n]].c, st.tabs[st.stk[n]].w)
  }

  /** The current table is the open one, unless the next code is too long for that. */
  ghost predicate Current(cfg: Cfg, st: St, loc: Loc, k: nat)
  {
    k > loc.w + cfg.l
    || (|st.stk| > 0 && Top(st) in st.tabs && loc.q == Top(st) && loc.z == Pow2(st.tabs[Top(st)].j))
  }

  lemma {:induction false} StackDepth(cfg: Cfg, h0: seq<Huft>, hn0: nat, st: St, k: nat)
    requires Inv(cfg, h0, hn0, st) && k > Depth(cfg, st) + cfg.l && k <= cfg.g
    ensures |st.stk| < 15
  {
    if |st.stk| > 0 { assert |st.stk| - 1 <= st.tabs[Top(st)].w; }
  }

  /** One turn of the loop that makes tables up to the required level. */
  method OpenTable(c: seq<nat>, k: nat, a: nat, g: nat, l: nat, hufts: array<Huft>, loc: Loc,
                   ghost cfg: Cfg, ghost h0: seq<Huft>, ghost hn0: nat, ghost st: St, ghost r: nat)
    returns (ok: bool, loc': Loc, ghost st': St)
    requires CfgOk(cfg) && Counts(cfg, c) && g == cfg.g && l == cfg.l && 1 <= k <= g && hufts.Length == MANY
    requires Inv(cfg, h0, hn0, st) && Head(st) && Rel(cfg, st, loc) && st.h == hufts[..] && st.p < SPACE
    requires At(cfg, k, r, st.p) && r + a + 1 == CountX(cfg, k) && k > loc.w + l
    modifies hufts
    ensures !ok ==> st.hn + Pow2(TabBits(cfg, loc.w + l, st.p)) > MANY
    ensures forall i :: 0 <= i < hn0 ==> hufts[i] == old(hufts[i])
    ensures ok ==> Inv(cfg, h0, hn0, st') && Head(st') && Rel(cfg, st', loc') && st'.h == hufts[..] && st'.p == st.p
                   && |st'.stk| > 0 && loc'.w == loc.w + l && loc'.pi == loc.pi && (loc.h == -1 ==> loc'.base == loc.base) && Current(cfg, st', loc', k)
                   && st'.hn == st.hn + Pow2(TabBits(cfg, loc.w + l, st.p))
  {
    hide *;
    OpenReady(cfg, h0, hn0, st, loc, k, r);
    var w := loc.w + l;
    var h := loc.h + 1;
    var j := TableBits(c, k, w, a, g, l, cfg, r, st.p);
    var z := Pow2(j);
    st' := st;
    loc' := loc;
    if loc.hn + z > MANY {
      return false, loc', st';
    }
    OpenSlot(cfg, h0, hn0, st, loc, k, r, j);
    var q := loc.hn;
    var u := loc.u[h := q];
    var x, base := loc.x, loc.base;
    if h != 0 {
      x := x[h := loc.i];
      var jj := Shr(loc.i, w - l);
      base := q - u[h - 1] - jj;
      hufts[u[h - 1] + jj] := Huft(j, l, base);
    }
    st' := St(hufts[..], st.hn + z, st.tabs[st.hn := NewTab(st, w, j)], st.stk + [st.hn], st.p);
    loc' := Loc(loc.i, loc.pi, h, w, u, x, q, z, loc.hn + z, base);
    OpenDone(cfg, h0, hn0, st, st', loc, loc', k, r, j);
    ok := true;
  }

  lemma {:induction false} OpenReady(cfg: Cfg, h0: seq<Huft>, hn0: nat, st: St, loc: Loc, k: nat, r: nat)
    requires Inv(cfg, h0, hn0, st) && 1 <= k <= cfg.g && st.p < SPACE && Rel(cfg, st, loc) && k > loc.w + cfg.l
    requires At(cfg, k, r, st.p) && r < CountX(cfg, k)
    ensures 0 <= loc.w + cfg.l < k && -1 <= loc.h < 14 && |loc.u| == 15 && |loc.x| == 16
    ensures st.p + Pow2(16 - (loc.w + cfg.l)) <= SPACE && loc.hn == st.hn && |st.stk| < 15
  {
    OpenFacts(cfg, h0, hn0, st, k, r);
    StackDepth(cfg, h0, hn0, st, k);
    hide Inv, At, CountX, Pow2;
  }

  /** The link slot, in the loop's own variables. */
  lemma {:induction false} OpenSlot(cfg: Cfg, h0: seq<Huft>, hn0: nat, st: St, loc: Loc, k: nat, r: nat, j: nat)
    requires Inv(cfg, h0, hn0, st) && Head(st) && 1 <= k <= cfg.g && st.p < SPACE && Rel(cfg, st, loc) && k > loc.w + cfg.l
    requires At(cfg, k, r, st.p) && r < CountX(cfg, k)
    requires 0 <= loc.w + cfg.l && SizeOk(cfg, loc.w + cfg.l, st.p, k, j) && j == TabBits(cfg, loc.w + cfg.l, st.p) && st.hn + Pow2(j) <= |st.h|
    ensures OpenPre(cfg, h0, hn0, st, k, loc.w + cfg.l, j) && hn0 <= st.hn
    ensures loc.h + 1 != 0 ==>
      |st.stk| > 0 && Top(st) in st.tabs && loc.w >= 0 && 0 <= loc.h < |loc.u| && loc.u[loc.h] == Top(st)
      && Top(st) + Shr(loc.i, loc.w) == LinkAt(st) < st.hn && LinkAt(st) < |st.h| && hn0 <= LinkAt(st)
    ensures loc.h + 1 == 0 ==> |st.stk| == 0
  {
    hide At, CountX, Pow2, EndX, SizeOk, Head, TabOk, LinkIndex, EntryCode, EntryPos, NewTab, TabStart, TabEnd,
         Mem, Gaps, Filled, Stack, Closed, Aligned, Rev, ListsOk;
    OpenFacts(cfg, h0, hn0, st, k, r);
    InvHn(cfg, h0, hn0, st);
    if |st.stk| > 0 {
      TopKnown(cfg, h0, hn0, st);
      LinkSlot(cfg, h0, hn0, st, k, loc.w + cfg.l, j);
    }
  }

  lemma {:induction false} InvHn(cfg: Cfg, h0: seq<Huft>, hn0: nat, st: St)
    requires Inv(cfg, h0, hn0, st)
    ensures hn0 <= st.hn <= |st.h| == |h0|
  {
    hide Gaps, Filled, Stack, Closed, Aligned;
  }

  lemma {:induction false} OpenDone(cfg: Cfg, h0: seq<Huft>, hn0: nat, st: St, st': St, loc: Loc, loc': Loc, k: nat, r: nat, j: nat)
    requires Rel(cfg, st, loc) && 0 <= loc.w + cfg.l && OpenPre(cfg, h0, hn0, st, k, loc.w + cfg.l, j) && |st.stk| < 15
    requires |st.stk| > 0 ==> loc.w >= 0
    requires st'.p == st.p && st'.hn == st.hn + Pow2(j) && st'.tabs == st.tabs[st.hn := NewTab(st, loc.w + cfg.l, j)]
    requires st'.stk == st.stk + [st.hn]
    requires if |st.stk| == 0 then st'.h == st.h
             else Top(st) in st.tabs && LinkAt(st) < |st.h| && LinkAt(st) < st.hn
                  && st'.h == st.h[LinkAt(st) := Huft(j, cfg.l, st.hn - LinkAt(st))]
    requires loc'.i == loc.i && loc'.h == loc.h + 1 && loc'.w == loc.w + cfg.l && loc'.u == loc.u[loc.h + 1 := loc.hn]
    requires loc'.x == if loc.h + 1 != 0 then loc.x[loc.h + 1 := loc.i] else loc.x
    requires loc'.q == loc.hn && loc'.z == Pow2(j) && loc'.hn == loc.hn + Pow2(j)
    ensures Inv(cfg, h0, hn0, st') && Head(st') && Rel(cfg, st', loc') && Current(cfg, st', loc', k)
  {
    hide Inv, Head, OpenStep, LinkAt, Pow2, Rev, Rel, Current, EndX, SizeOk;
    var w := loc.w + cfg.l;
    OpenedIsRel(cfg, st, loc);
    NotATable(cfg, h0, hn0, st);
    NewPattern(cfg, h0, hn0, st, k, w, j);
    hide OpenPre;
    OpenStepHolds(cfg, h0, hn0, st, st', k, w, j);
    OpenKeeps(cfg, h0, hn0, st, st', k, w, j);
    OpenedRel(cfg, st, st', loc, loc', NewTab(st, w, j), k);
  }

  lemma {:induction false} OpenedIsRel(cfg: Cfg, st: St, loc: Loc)
    requires Rel(cfg, st, loc)
    ensures loc.w == Depth(cfg, st) && loc.hn == st.hn && |loc.x| == 16 && |loc.u| == 15 && loc.h + 1 == |st.stk|
  {
  }

  lemma {:induction false} OpenedRel(cfg: Cfg, st: St, st': St, loc: Loc, loc': Loc, t: Tab, k: nat)
    requires Rel(cfg, st, loc) && |st.stk| < 15 && st.hn !in st.tabs && t.w == loc.w + cfg.l && Rev(st.p, 16) == Rev(t.c, t.w)
    requires st'.p == st.p && st'.hn == st.hn + Pow2(t.j) && st'.tabs == st.tabs[st.hn := t] && st'.stk == st.stk + [st.hn]
    requires loc'.i == loc.i && loc'.h == loc.h + 1 && loc'.w == loc.w + cfg.l && loc'.u == loc.u[loc.h + 1 := loc.hn]
    requires loc'.x == if loc.h + 1 != 0 then loc.x[loc.h + 1 := loc.i] else loc.x
    requires loc'.q == loc.hn && loc'.z == Pow2(t.j) && loc'.hn == loc.hn + Pow2(t.j)
    ensures Rel(cfg, st', loc') && Current(cfg, st', loc', k)
  {
    hide Pow2;
    if |st.stk| == 0 { assert t.w == 0 && Rev(t.c, 0) == 0; }
    hide Rev;
  }

  /** The pattern saved for a new table is its bit-reversed prefix. */
  lemma {:induction false} NewPattern(cfg: Cfg, h0: seq<Huft>, hn0: nat, st: St, k: nat, w: nat, j: nat)
    requires OpenPre(cfg, h0, hn0, st, k, w, j)
    ensures Rev(st.p, 16) == Rev(NewTab(st, w, j).c, w)
  {
    hide Mem, Stack, Gaps, Filled, Closed, Rev, Shl, Shr, Low, Pow2, EndX, SizeOk, Head;
    assert Low(st.p, Rest(w)) == 0;
    Split(st.p, 16 - w);
    RevTrailing(Shr(st.p, 16 - w), 16 - w, w);
  }

  lemma {:induction false} OpenFacts(cfg: Cfg, h0: seq<Huft>, hn0: nat, st: St, k: nat, r: nat)
    requires Inv(cfg, h0, hn0, st) && 1 <= k <= cfg.g && st.p < SPACE && k > Depth(cfg, st) + cfg.l
    requires At(cfg, k, r, st.p) && r < CountX(cfg, k)
    ensures Depth(cfg, st) + cfg.l >= 0 && EndX(cfg, k - 1) <= st.p < EndX(cfg, k)
    ensures st.p + Pow2(16 - (Depth(cfg, st) + cfg.l)) <= SPACE
  {
    AtFacts(cfg, k, r, st.p);
    var w := Depth(cfg, st) + cfg.l;
    hide At, EndX, Low, Pow2, Mem, Stack, Filled, Gaps, Closed, CountX, ListsOk;
    Split(st.p, 16 - w);
    Pow2Values();
    ShrBound(st.p, w, 16 - w);
    ShlBound(Shr(st.p, 16 - w), w, 16 - w);
  }

  lemma {:induction false} OpenStepHolds(cfg: Cfg, h0: seq<Huft>, hn0: nat, st: St, st': St, k: nat, w: nat, j: nat)
    requires OpenPre(cfg, h0, hn0, st, k, w, j)
    requires st'.p == st.p && st'.hn == st.hn + Pow2(j) && st'.tabs == st.tabs[st.hn := NewTab(st, w, j)]
    requires st'.stk == st.stk + [st.hn]
    requires if |st.stk| == 0 then st'.h == st.h
             else Top(st) in st.tabs && LinkAt(st) < |st.h| && LinkAt(st) < st.hn
                  && st'.h == st.h[LinkAt(st) := Huft(j, cfg.l, st.hn - LinkAt(st))]
    ensures OpenStep(cfg, st, st', w, j)
  {
    hide LinkIndex, EntryPos, NewTab, Pow2, Head, EndX, SizeOk, LinkAt, Mem, Gaps, Filled, Stack, Closed, Aligned, CfgOk;
    NotATable(cfg, h0, hn0, st);
    if |st.stk| > 0 {
      LinkSlot(cfg, h0, hn0, st, k, w, j);
      Pow2Mono(cfg.l, st.tabs[Top(st)].j);
    }
  }

  lemma {:induction false} NotATable(cfg: Cfg, h0: seq<Huft>, hn0: nat, st: St)
    requires Inv(cfg, h0, hn0, st)
    ensures st.hn !in st.tabs
  {
    hide TabOk, Pow2, Gaps, Filled, Stack, Closed, Aligned;
  }

  /** The fill loop: every index that starts with the code gets the entry. */
  method FillEntries(hufts: array<Huft>, q: nat, z: nat, first: nat, n: nat, r: Huft)
    requires q + z <= hufts.Length && first < Pow2(n)
    modifies hufts
    ensures forall i :: q <= i < q + z ==> hufts[i] == if Low(i - q, n) == first then r else old(hufts[i])
    ensures forall i :: 0 <= i < hufts.Length && (i < q || q + z <= i) ==> hufts[i] == old(hufts[i])
  {
    var f := Pow2(n);
    var j := first;
    ghost var t: nat := 0;
    ShlOne(n);
    forall x: nat | x < first ensures Low(x, n) != first { }
    hide Low, Shl, Pow2;
    while j < z
      invariant j == first + Shl(t, n)
      invariant forall i :: q <= i < q + z ==> hufts[i] == if i - q < j && Low(i - q, n) == first then r else old(hufts[i])
      invariant forall i :: 0 <= i < hufts.Length && (i < q || q + z <= i) ==> hufts[i] == old(hufts[i])
      decreases z - j
    {
      forall x: nat | j < x < j + f ensures Low(x, n) != first {
        NoneBetween(first, t, n, x);
      }
      Join(first, t, n);
      ShlAdd(t, 1, n);
      ShlOne(n);
      hufts[q + j] := r;
      j := j + f;
      t := t + 1;
    }
  }

  lemma {:induction false} NoneBetween(first: nat, t: nat, n: nat, x: nat)
    requires first < Pow2(n) && first + Shl(t, n) < x < first + Shl(t, n) + Pow2(n)
    ensures Low(x, n) != first
  {
    Split(x, n);
    var u := Shr(x, n);
    if u < t { ShlMono(u, t, n); }
    if u > t { ShlMono(t, u, n); }
  }

  /** Backwards increment of the k-bit code: the loop clears the leading ones of the reversed code
      and sets the next bit. */
  method Increment(i: nat, k: nat) returns (i': nat)
    requires 1 <= k && i < Pow2(k)
    ensures i' < Pow2(k) && Rev(i', k) == if Rev(i, k) + 1 == Pow2(k) then 0 else Rev(i, k) + 1
  {
    i' := i;
    var j := Pow2(k - 1);
    ghost var m: nat := k;
    hide *;
    IncrementStart(i, k);
    while And(i', j) != 0
      invariant Flipped(i, i', j, m, k)
      decreases m
    {
      IncrementClear(i, i', j, m, k);
      i' := Xor(i', j);
      m := m - 1;
      j := j / 2;
    }
    IncrementSet(i, i', j, m, k);
    i' := Xor(i', j);
  }

  /** Of the k bits of i, those from m on were ones and are cleared in i2; j is bit m - 1. */
  ghost predicate Flipped(i: nat, i2: nat, j: nat, m: nat, k: nat)
  {
    m <= k && i2 < Pow2(m) && j == (if m == 0 then 0 else Pow2(m - 1))
    && Rev(i, k) == Shl(Rev(i2, m), k - m) + Pow2(k - m) - 1
  }

  lemma {:induction false} IncrementStart(i: nat, k: nat)
    requires 1 <= k && i < Pow2(k)
    ensures Flipped(i, i, Pow2(k - 1), k, k)
  {
  }

  lemma {:induction false} RevUnfold(v: nat, n: nat)
    ensures Rev(v, n + 1) == 2 * Rev(v, n) + Shr(v, n) % 2
  {
  }

  lemma {:induction false} TopBit(i: nat, m: nat)
    requires m > 0 && i < Pow2(m)
    ensures Shr(i, m - 1) == if i >= Pow2(m - 1) then 1 else 0
    ensures Rev(i, m) == 2 * Rev(Low(i, m - 1), m - 1) + Shr(i, m - 1)
    ensures Low(i, m - 1) == if i >= Pow2(m - 1) then i - Pow2(m - 1) else i
  {
    hide *;
    RevUnfold(i, m - 1);
    Pow2Values();
    ShrBound(i, 1, m - 1);
    Split(i, m - 1);
    ShlOne(m - 1);
    RevLow(i, m - 1, m - 1);
    var b := Shr(i, m - 1);
    assert b == 0 || b == 1;
  }

  lemma {:induction false} Unfold(x: nat, n: nat)
    ensures Shl(x, n + 1) == 2 * Shl(x, n) && Pow2(n + 1) == 2 * Pow2(n)
  {
  }

  lemma {:induction false} AndZero(x: nat)
    ensures And(x, 0) == 0 && Xor(0, 0) == 0
  {
  }

  lemma {:induction false} IncrementClear(i0: nat, i: nat, j: nat, m: nat, k: nat)
    requires Flipped(i0, i, j, m, k) && And(i, j) != 0
    ensures m > 0 && Flipped(i0, Xor(i, j), j / 2, m - 1, k)
  {
    hide Rev, Shr, Low, Shl, Pow2, And, Xor;
    if m == 0 { AndZero(i); assert false; }
    FlipBit(i, m - 1);
    TopBit(i, m);
    var x := Rev(i - Pow2(m - 1), m - 1);
    assert Rev(i, m) == 2 * x + 1;
    ShlAdd(2 * x, 1, k - m);
    ShlOne(k - m);
    ShlHalf(x, k - m);
    Unfold(x, k - m);
    HalfPow(m - 1);
  }

  lemma {:induction false} HalfPow(n: nat)
    ensures Pow2(n) / 2 == if n == 0 then 0 else Pow2(n - 1)
  {
  }

  lemma {:induction false} IncrementSet(i0: nat, i: nat, j: nat, m: nat, k: nat)
    requires Flipped(i0, i, j, m, k) && And(i, j) == 0
    ensures Xor(i, j) < Pow2(k) && Rev(Xor(i, j), k) == if Rev(i0, k) + 1 == Pow2(k) then 0 else Rev(i0, k) + 1
  {
    hide Shr, Low, Shl, Pow2, And, Xor;
    if m == 0 {
      IncrementWrap(k);
      AndZero(i);
    } else {
      FlipBit(i, m - 1);
      Pow2Positive(m - 1);
      IncrementBit(i, m, k);
    }
  }

  lemma {:induction false} IncrementBit(i: nat, m: nat, k: nat)
    requires 0 < m <= k && i < Pow2(m) && Shr(i, m - 1) % 2 == 0
    ensures i + Pow2(m - 1) < Pow2(k) && Rev(i + Pow2(m - 1), k) == Shl(Rev(i, m), k - m) + Pow2(k - m)
  {
    hide Rev, Shr, Low, Shl, Pow2;
    TopBit(i, m);
    Unfold(0, m - 1);
    var i2 := i + Pow2(m - 1);
    TopBit(i2, m);
    assert Rev(i2, m) == Rev(i, m) + 1;
    RevExtend(i2, m, k);
    ShlAdd(Rev(i, m), 1, k - m);
    ShlOne(k - m);
  }

  lemma {:induction false} Pow2Positive(n: nat)
    ensures Pow2(n) > 0
  {
  }

  lemma {:induction false} IncrementWrap(k: nat)
    ensures Rev(0, 0) == 0 && Shl(0, k) == 0 && Rev(0, k) == 0 && Pow2(0) == 1
  {
    RevOfZero(k);
    ShlOne(k);
  }

  lemma {:induction false} RevExtend(i: nat, m: nat, k: nat)
    requires m <= k && i < Pow2(m)
    ensures Rev(i, k) == Shl(Rev(i, m), k - m) && Pow2(m) <= Pow2(k)
  {
    hide Rev, Shl, Pow2;
    Pow2Mono(m, k);
    RevAppend(i, m, k - m);
    ShrZero(i, m);
    RevOfZero(k - m);
  }

  lemma {:induction false} RevOfZero(n: nat)
    ensures Rev(0, n) == 0
  {
    if n > 0 {
      RevOfZero(n - 1);
      ShrZero(0, n - 1);
    }
  }

  /** The backwards increment moves on to the position after the code. */
  lemma {:induction false} NextPattern(p: nat, k: nat, i: nat)
    requires 1 <= k <= 16 && p < SPACE && Low(p, 16 - k) == 0
    ensures Rev(p, 16) == Rev(Shr(p, 16 - k), k) < Pow2(k)
    ensures i < Pow2(k) && Rev(i, k) == (if Shr(p, 16 - k) + 1 == Pow2(k) then 0 else Shr(p, 16 - k) + 1)
            ==> i == Rev(p + Pow2(16 - k), 16)
    ensures Rev(Rev(p, 16), k) == Shr(p, 16 - k)
  {
    hide Rev, Shr, Low, Shl, Pow2;
    var c := Shr(p, 16 - k);
    Split(p, 16 - k);
    RevTrailing(c, 16 - k, k);
    Pow2Values();
    ShrBound(p, k, 16 - k);
    RevRev(c, k);
    ShrZero(c, k);
    ShlAdd(c, 1, 16 - k);
    ShlOne(16 - k);
    RevTrailing(c + 1, 16 - k, k);
    if i < Pow2(k) && Rev(i, k) == (if c + 1 == Pow2(k) then 0 else c + 1) {
      NextPatternAt(c, k, i);
    }
  }

  lemma {:induction false} NextPatternAt(c: nat, k: nat, i: nat)
    requires c < Pow2(k) && i < Pow2(k) && Rev(i, k) == if c + 1 == Pow2(k) then 0 else c + 1
    ensures i == Rev(c + 1, k)
  {
    hide Rev, Shr, Low, Shl, Pow2;
    RevRev(i, k);
    ShrZero(i, k);
    if c + 1 == Pow2(k) {
      ShlOne(k);
      RevTrailing(1, k, 0);
      RevOfZero(k);
      RevTop(k);
    }
  }

  lemma {:induction false} RevTop(k: nat)
    ensures Rev(Pow2(k), k) == 0
  {
    hide Rev, Shr, Low, Shl, Pow2;
    ShlOne(k);
    ShrOfShl(1, k);
    RevLow(Pow2(k), k, k);
    RevOfZero(k);
  }

  /** What the main loop keeps between codes: code number r of length k is next, and the space used
      plus the space still needed is total. */
  ghost predicate Ready(cfg: Cfg, h0: seq<Huft>, hn0: nat, st: St, loc: Loc, k: nat, r: nat, n: nat, total: nat)
  {
    Inv(cfg, h0, hn0, st) && Head(st) && Rel(cfg, st, loc)
    && 1 <= k <= cfg.g && At(cfg, k, r, st.p) && loc.w < k && Current(cfg, st, loc, k)
    && n == Below(cfg.lens, cfg.g + 1) && loc.pi == Smaller(n, Below(cfg.lens, k) + r)
    && st.hn + Space(cfg, st.p, loc.w) == total && |h0| == MANY && StaleAt(cfg, loc.pi, loc.base)
  }

  lemma {:induction false} SpaceUnfold(cfg: Cfg, k: nat, r: nat, p: nat, w: int)
    requires CfgOk(cfg) && 1 <= k <= cfg.g && At(cfg, k, r, p) && r < CountX(cfg, k) && w + cfg.l >= 0
    ensures p < SPACE
    ensures k > w + cfg.l ==> Space(cfg, p, w) == Pow2(TabBits(cfg, w + cfg.l, p)) + Space(cfg, p, w + cfg.l)
    ensures k <= w + cfg.l && w >= 0 ==>
              Space(cfg, p, w) == Space(cfg, p + Pow2(16 - k), Leave(cfg, w, p + Pow2(16 - k)))
  {
    hide At, TabBits, CountX, EndX, Pow2, Leave, ListsOk;
    AtFacts(cfg, k, r, p);
    EndXMono(cfg, k, cfg.g);
    EndXLast(cfg);
    CodeLenIs(cfg, p, k, 1);
    RestIs(k);
  }

  lemma {:induction false} EndXLast(cfg: Cfg)
    ensures EndX(cfg, cfg.g) == SPACE
  {
  }

  /** The loop that makes tables up to the required level. */
  method OpenTables(c: seq<nat>, k: nat, a: nat, g: nat, l: nat, hufts: array<Huft>, loc: Loc, ghost n: nat,
                    ghost cfg: Cfg, ghost h0: seq<Huft>, ghost hn0: nat, ghost st: St, ghost r: nat, ghost total: nat)
    returns (ok: bool, loc': Loc, ghost st': St)
    requires CfgOk(cfg) && Counts(cfg, c) && g == cfg.g && l == cfg.l && hufts.Length == MANY
    requires Ready(cfg, h0, hn0, st, loc, k, r, n, total) && st.h == hufts[..] && r + a + 1 == CountX(cfg, k)
    modifies hufts
    ensures !ok ==> total > MANY
    ensures forall i :: 0 <= i < hn0 ==> hufts[i] == old(hufts[i])
    ensures ok ==> Ready(cfg, h0, hn0, st', loc', k, r, n, total) && st'.h == hufts[..] && st'.p == st.p && k <= loc'.w + l
  {
    hide *;
    loc', st' := loc, st;
    ReadyHn(cfg, h0, hn0, st, loc, k, r, n, total);
    while k > loc'.w + l
      invariant Ready(cfg, h0, hn0, st', loc', k, r, n, total) && st'.h == hufts[..] && st'.p == st.p
      invariant forall i :: 0 <= i < hn0 ==> hufts[i] == old(hufts[i])
      decreases k - (loc'.w + l)
    {
      ghost var loc1, st1 := loc', st';
      ReadyOpen(cfg, h0, hn0, st', loc', k, r, n, total);
      ok, loc', st' := OpenTable(c, k, a, g, l, hufts, loc', cfg, h0, hn0, st', r);
      if !ok { return; }
      ReadyOpened(cfg, h0, hn0, st1, loc1, st', loc', k, r, n, total);
    }
    ok := true;
  }

  lemma {:induction false} ReadyOpen(cfg: Cfg, h0: seq<Huft>, hn0: nat, st: St, loc: Loc, k: nat, r: nat, n: nat, total: nat)
    requires CfgOk(cfg) && Ready(cfg, h0, hn0, st, loc, k, r, n, total) && r < CountX(cfg, k) && k > loc.w + cfg.l
    ensures Inv(cfg, h0, hn0, st) && Head(st) && Rel(cfg, st, loc) && st.p < SPACE
    ensures 1 <= k <= cfg.g && At(cfg, k, r, st.p) && 1 <= cfg.l && loc.w + cfg.l >= 0
    ensures total >= st.hn + Pow2(TabBits(cfg, loc.w + cfg.l, st.p)) && hn0 <= st.hn <= |h0|
  {
    hide At, TabBits, CountX, EndX, Pow2, Space, Mem, Gaps, Filled, Stack, Closed, Aligned, Head, Current, Below;
    AtFacts(cfg, k, r, st.p);
    InvHn(cfg, h0, hn0, st);
    RelDepth(cfg, st, loc);
    assert loc.w + cfg.l >= 0 by { AlignedDepth(cfg, st); }
    SpaceUnfold(cfg, k, r, st.p, loc.w);
  }

  lemma {:induction false} ReadyHn(cfg: Cfg, h0: seq<Huft>, hn0: nat, st: St, loc: Loc, k: nat, r: nat, n: nat, total: nat)
    requires Ready(cfg, h0, hn0, st, loc, k, r, n, total)
    ensures hn0 <= MANY && 1 <= k <= cfg.g && |st.h| == MANY && loc.w < k
  {
    hide Rel, At, Current, Head;
    InvHn(cfg, h0, hn0, st);
    hide Inv;
  }

  lemma {:induction false} AlignedDepth(cfg: Cfg, st: St)
    requires Aligned(cfg, st)
    ensures Depth(cfg, st) + cfg.l >= 0
  {
  }

  lemma {:induction false} RelDepth(cfg: Cfg, st: St, loc: Loc)
    requires Rel(cfg, st, loc)
    ensures loc.w == Depth(cfg, st) && loc.hn == st.hn && |st.stk| <= 15 && loc.h == |st.stk| - 1
  {
  }

  lemma {:induction false} DepthEmpty(cfg: Cfg, st: St)
    ensures Depth(cfg, st) < 0 ==> |st.stk| == 0
  {
  }

  lemma {:induction false} ReadyOpened(cfg: Cfg, h0: seq<Huft>, hn0: nat, st: St, loc: Loc, st': St, loc': Loc, k: nat, r: nat, n: nat, total: nat)
    requires CfgOk(cfg) && Ready(cfg, h0, hn0, st, loc, k, r, n, total) && r < CountX(cfg, k) && k > loc.w + cfg.l
    requires loc.w + cfg.l >= 0
    requires Inv(cfg, h0, hn0, st') && Head(st') && Rel(cfg, st', loc') && st'.p == st.p
    requires loc'.w == loc.w + cfg.l && loc'.pi == loc.pi && (loc.h == -1 ==> loc'.base == loc.base) && Current(cfg, st', loc', k)
    requires st'.hn == st.hn + Pow2(TabBits(cfg, loc.w + cfg.l, st.p))
    ensures Ready(cfg, h0, hn0, st', loc', k, r, n, total)
  {
    hide At, TabBits, CountX, EndX, Pow2, Space, Inv, Head, Current, Below, Rel;
    SpaceUnfold(cfg, k, r, st.p, loc.w);
    RelDepth(cfg, st, loc);
    DepthEmpty(cfg, st);
  }

  /** The entry for the code at hand, and the value list place after it. */
  method MakeEntry(lens: seq<nat>, v: seq<nat>, n: nat, s: nat, d: seq<nat>, e: seq<nat>, bits: nat, pi: nat, base: nat, ghost cfg: Cfg)
    returns (r: Huft, pi': nat)
    requires CfgOk(cfg) && cfg.lens == lens && cfg.s == s && cfg.d == d && cfg.e == e && n <= |v|
    requires pi < n ==> v[pi] < |lens|
    ensures pi < n && s <= v[pi] ==> v[pi] - s < |d| && v[pi] - s < |e|
    ensures r == EntryOf(cfg, v, n, pi, bits, base) && pi' == if pi >= n then pi else pi + 1
  {
    pi' := pi;
    if pi >= n {
      r := Huft(128 + 64, bits, base);
    } else if v[pi] < s {
      r := Huft(if v[pi] < 256 then 0 else 32 + 64, bits, v[pi]);
      pi' := pi + 1;
    } else {
      r := Huft(e[v[pi] - s] + 16 + 64, bits, d[v[pi] - s]);
      pi' := pi + 1;
    }
  }

  /** The value list place, and the entry made from it. */
  lemma {:induction false} ReadyEntry(cfg: Cfg, v: seq<nat>, k: nat, r: nat, p: nat, w: nat, base: nat, n: nat, pi: nat)
    requires CfgOk(cfg) && 1 <= k <= cfg.g && Values(cfg.lens, v) && n == Below(cfg.lens, cfg.g + 1) <= |v|
    requires At(cfg, k, r, p) && w < k && r < CountX(cfg, k) && pi == Smaller(n, Below(cfg.lens, k) + r) && StaleAt(cfg, pi, base)
    ensures pi < n ==> v[pi] < |cfg.lens|
    ensures pi < n && cfg.s <= v[pi] ==> v[pi] - cfg.s < |cfg.d| && v[pi] - cfg.s < |cfg.e|
    ensures EntryFor(cfg, EntryOf(cfg, v, n, pi, k - w, base), w, p, k)
    ensures StaleAt(cfg, if pi >= n then pi else pi + 1, EntryOf(cfg, v, n, pi, k - w, base).base)
    ensures (if pi >= n then pi else pi + 1) == Smaller(n, Below(cfg.lens, k) + r + 1)
  {
    hide EntryFor, Below, Count, At, Values, CountX, EndX, ListsOk;
    if r < Count(cfg.lens, k) {
      EntryReal(cfg, v, k, r, p, w, base);
    } else {
      DummyPlace(cfg, k, r);
      EntryDummy(cfg, v, k, r, p, w, base);
    }
  }

  lemma {:induction false} DummyPlace(cfg: Cfg, k: nat, r: nat)
    requires 1 <= k <= cfg.g <= 16 && Count(cfg.lens, k) <= r < CountX(cfg, k)
    ensures k == cfg.g && Below(cfg.lens, k) + r >= Below(cfg.lens, cfg.g + 1)
  {
    hide Count, Dummies;
  }

  /** Everything the fill loop and the invariant need before a code is entered. */
  lemma {:induction false} FillReady(cfg: Cfg, h0: seq<Huft>, hn0: nat, st: St, loc: Loc, k: nat, r: nat, n: nat, total: nat, e: Huft)
    requires CfgOk(cfg) && Ready(cfg, h0, hn0, st, loc, k, r, n, total) && r < CountX(cfg, k) && k <= loc.w + cfg.l
    requires 0 <= loc.w && EntryFor(cfg, e, loc.w, st.p, k)
    ensures FillPre(cfg, h0, hn0, st, k, e)
    ensures |st.stk| > 0 && Top(st) in st.tabs && st.tabs[Top(st)].w == loc.w
    ensures loc.q == Top(st) && loc.z == Pow2(st.tabs[Top(st)].j) && loc.q + loc.z <= MANY && hn0 <= loc.q
    ensures Shr(loc.i, loc.w) < Pow2(k - loc.w) && Low(st.p, 16 - k) == 0 && st.p < SPACE
    ensures loc.i == Rev(st.p, 16)
  {
    hide At, CountX, EndX, Pow2, Space, Mem, Gaps, Filled, Stack, Closed, Aligned, Head, Below, EntryFor, Low, Rev, Shr, ListsOk;
    AtFacts(cfg, k, r, st.p);
    EndXMono(cfg, k, cfg.g);
    EndXLast(cfg);
    TopKnown(cfg, h0, hn0, st);
    RelDepth(cfg, st, loc);
    RestIs(k);
    InvHn(cfg, h0, hn0, st);
    NextPattern(st.p, k, 0);
    TopOfRev(Shr(st.p, 16 - k), k - loc.w, k);
  }

  /** The position given out next lies past the start of every open table. */
  ghost predicate Past(st: St)
  {
    forall n :: 0 <= n < |st.stk| && st.stk[n] in st.tabs ==> TabStart(st.tabs[st.stk[n]]) < st.p
  }

  ghost predicate BackInv(cfg: Cfg, h0: seq<Huft>, hn0: nat, st: St, loc: Loc, st0: St, loc0: Loc)
  {
    Inv(cfg, h0, hn0, st) && Rel(cfg, st, loc) && |st.stk| > 0 && Past(st)
    && st == st0.(stk := st.stk) && loc == loc0.(h := loc.h, w := loc.w) && 0 <= loc.w
    && (if loc.w == loc0.w then st.stk == st0.stk else loc.w + cfg.l <= loc0.w)
    && (st.p < SPACE ==> 0 <= loc0.w && Leave(cfg, loc.w, st.p) == Leave(cfg, loc0.w, st.p))
  }

  /** The loop that backs up over finished tables. */
  method BackUp(l: nat, loc: Loc, ghost cfg: Cfg, ghost h0: seq<Huft>, ghost hn0: nat, ghost st: St)
    returns (loc': Loc, ghost st': St)
    requires CfgOk(cfg) && l == cfg.l && BackInv(cfg, h0, hn0, st, loc, st, loc)
    ensures BackInv(cfg, h0, hn0, st', loc', st, loc) && Head(st')
    ensures st.p < SPACE ==> 0 <= loc.w && loc'.w == Leave(cfg, loc.w, st.p)
  {
    hide *;
    loc', st' := loc, st;
    BackRange(cfg, h0, hn0, st', loc', st, loc);
    while Low(loc'.i, loc'.w) != loc'.x[loc'.h]
      invariant BackInv(cfg, h0, hn0, st', loc', st, loc)
      invariant 0 <= loc'.w && 0 <= loc'.h < |loc'.x| && st'.p == st.p
      decreases loc'.w
    {
      BackStep(cfg, h0, hn0, st', loc', st, loc);
      st' := Popped(st');
      loc' := loc'.(h := loc'.h - 1, w := loc'.w - l);
      BackRange(cfg, h0, hn0, st', loc', st, loc);
    }
    BackDone(cfg, h0, hn0, st', loc', st, loc);
  }

  lemma {:induction false} BackRange(cfg: Cfg, h0: seq<Huft>, hn0: nat, st: St, loc: Loc, st0: St, loc0: Loc)
    requires BackInv(cfg, h0, hn0, st, loc, st0, loc0)
    ensures 0 <= loc.w && 0 <= loc.h < |loc.x|
  {
    hide Inv, Past, Leave;
  }

  /** The masked code differs from the saved pattern exactly when the open table is finished. */
  lemma {:induction false} PatternTest(cfg: Cfg, h0: seq<Huft>, hn0: nat, st: St, loc: Loc)
    requires Inv(cfg, h0, hn0, st) && Rel(cfg, st, loc) && |st.stk| > 0 && 0 <= loc.w
    ensures Top(st) in st.tabs && st.tabs[Top(st)].w == loc.w && 0 <= loc.h < |loc.x|
    ensures TabStart(st.tabs[Top(st)]) <= st.p <= TabEnd(st.tabs[Top(st)]) <= SPACE
    ensures Low(loc.i, loc.w) != loc.x[loc.h] && st.p < SPACE ==> st.p == TabEnd(st.tabs[Top(st)])
    ensures Low(loc.i, loc.w) == loc.x[loc.h] && st.p < SPACE ==> st.p < TabEnd(st.tabs[Top(st)])
  {
    hide Mem, Gaps, Filled, Stack, Closed, Aligned, Low, Rev, Shr, TabStart, TabEnd, EndX, ListsOk, Pow2, OnGrid;
    TopKnown(cfg, h0, hn0, st);
    var t := st.tabs[Top(st)];
    TabInSpace(cfg, t);
    TabHolds(t, st.p);
    RestIs(t.w);
    LowOfRev(st.p, 16, t.w);
    if st.p < SPACE {
      Pow2Values();
      ShrBound(st.p, t.w, 16 - t.w);
      if Rev(Shr(st.p, 16 - t.w), t.w) == Rev(t.c, t.w) {
        RevInjective(Shr(st.p, 16 - t.w), t.c, t.w);
      }
    }
  }

  lemma {:induction false} BackStep(cfg: Cfg, h0: seq<Huft>, hn0: nat, st: St, loc: Loc, st0: St, loc0: Loc)
    requires CfgOk(cfg) && BackInv(cfg, h0, hn0, st, loc, st0, loc0) && 0 <= loc.h < |loc.x|
    requires Low(loc.i, loc.w) != loc.x[loc.h]
    ensures |st.stk| > 1 && loc.w - cfg.l >= 0 && cfg.l > 0
    ensures BackInv(cfg, h0, hn0, Popped(st), loc.(h := loc.h - 1, w := loc.w - cfg.l), st0, loc0)
  {
    hide Inv, Low, Rev, TabStart, TabEnd, EndX, ListsOk, ValidLens;
    PatternTest(cfg, h0, hn0, st, loc);
    if |st.stk| == 1 {
      RootPattern(cfg, h0, hn0, st);
      LowNone(loc.i);
      assert false;
    }
    PopKeeps(cfg, h0, hn0, st);
    TabEndLow(st.tabs[Top(st)]);
    LeaveUnfold(cfg, loc.w, st.p);
    hide Leave;
  }

  lemma {:induction false} LeaveUnfold(cfg: Cfg, w: nat, p: nat)
    ensures 0 < cfg.l <= w && Low(p, Rest(w)) == 0 ==> Leave(cfg, w, p) == Leave(cfg, w - cfg.l, p)
    ensures w < cfg.l || Low(p, Rest(w)) != 0 ==> Leave(cfg, w, p) == w
  {
  }

  lemma {:induction false} RootPattern(cfg: Cfg, h0: seq<Huft>, hn0: nat, st: St)
    requires Inv(cfg, h0, hn0, st) && |st.stk| == 1
    ensures Depth(cfg, st) == 0
  {
    hide Mem, Gaps, Filled, Closed, Aligned;
  }

  lemma {:induction false} BackDone(cfg: Cfg, h0: seq<Huft>, hn0: nat, st: St, loc: Loc, st0: St, loc0: Loc)
    requires CfgOk(cfg) && BackInv(cfg, h0, hn0, st, loc, st0, loc0) && 0 <= loc.h < |loc.x|
    requires Low(loc.i, loc.w) == loc.x[loc.h]
    ensures Head(st)
    ensures st.p < SPACE ==> 0 <= loc0.w && loc.w == Leave(cfg, loc0.w, st.p)
  {
    hide Inv, Low, Rev, TabStart, TabEnd, EndX, ListsOk, ValidLens, Leave;
    PatternTest(cfg, h0, hn0, st, loc);
    if st.p < SPACE {
      var t := st.tabs[Top(st)];
      assert TabStart(t) < st.p;
      if Low(st.p, Rest(t.w)) == 0 { InsideNotAligned(t, st.p); assert false; }
      LeaveUnfold(cfg, loc.w, st.p);
    }
  }

  lemma {:induction false} InsideNotAligned(t: Tab, p: nat)
    requires TabStart(t) < p < TabEnd(t)
    ensures Low(p, Rest(t.w)) != 0
  {
    TabHolds(t, p);
    Split(p, Rest(t.w));
  }

  /** One code: make tables for it, enter it, and leave the tables it finishes. */
  method EnterCode(c: seq<nat>, k: nat, a: nat, lens: seq<nat>, v: seq<nat>, n: nat, s: nat, d: seq<nat>, e: seq<nat>,
                   g: nat, l: nat, hufts: array<Huft>, loc: Loc,
                   ghost cfg: Cfg, ghost h0: seq<Huft>, ghost hn0: nat, ghost st: St, ghost r: nat, ghost total: nat)
    returns (ok: bool, loc': Loc, ghost st': St)
    requires CfgOk(cfg) && cfg == Cfg(lens, s, d, e, g, l) && Counts(cfg, c) && hufts.Length == MANY
    requires Values(lens, v) && n <= |v|
    requires Ready(cfg, h0, hn0, st, loc, k, r, n, total) && st.h == hufts[..] && r + a + 1 == CountX(cfg, k)
    modifies hufts
    ensures !ok ==> total > MANY
    ensures forall i :: 0 <= i < hn0 ==> hufts[i] == old(hufts[i])
    ensures ok ==> Ready(cfg, h0, hn0, st', loc', k, r + 1, n, total) && st'.h == hufts[..] && |st'.stk| > 0
  {
    hide *;
    ok, loc', st' := OpenTables(c, k, a, g, l, hufts, loc, n, cfg, h0, hn0, st, r, total);
    if !ok { return; }
    ReadyPlace(cfg, h0, hn0, st', loc', k, r, n, total, v);
    ghost var st1, loc1 := st', loc';
    var w := loc'.w;
    var entry, pi := MakeEntry(lens, v, n, s, d, e, k - w, loc'.pi, loc'.base, cfg);
    ReadyEntry(cfg, v, k, r, st'.p, w, loc'.base, n, loc'.pi);
    FillReady(cfg, h0, hn0, st', loc', k, r, n, total, entry);
    FillEntries(hufts, loc'.q, loc'.z, Shr(loc'.i, w), k - w, entry);
    FillIsStep(cfg, h0, hn0, st1, hufts[..], loc1, k, entry);
    NextPattern(st'.p, k, 0);
    var i := Increment(loc'.i, k);
    st' := St(hufts[..], st'.hn, st'.tabs, st'.stk, st'.p + Pow2(16 - k));
    loc' := loc'.(i := i, pi := pi, base := entry.base);
    NextPattern(st1.p, k, i);
    EnteredBack(cfg, h0, hn0, st1, loc1, st', loc', k, entry, r, n, total);
    ghost var st2, loc2 := st', loc';
    loc', st' := BackUp(l, loc', cfg, h0, hn0, st');
    EnteredReady(cfg, h0, hn0, st1, loc1, st2, loc2, st', loc', k, r, n, total);
  }

  lemma {:induction false} EnteredReady(cfg: Cfg, h0: seq<Huft>, hn0: nat, st: St, loc: Loc, st2: St, loc2: Loc, st': St, loc': Loc,
                                        k: nat, r: nat, n: nat, total: nat)
    requires CfgOk(cfg) && Ready(cfg, h0, hn0, st, loc, k, r, n, total) && r < CountX(cfg, k)
    requires 0 <= loc.w < k <= loc.w + cfg.l && |st.stk| > 0 && Top(st) in st.tabs
    requires loc.q == Top(st) && loc.z == Pow2(st.tabs[Top(st)].j)
    requires st2 == St(st2.h, st.hn, st.tabs, st.stk, st.p + Pow2(16 - k)) && loc2 == loc.(i := loc2.i, pi := loc2.pi, base := loc2.base)
    requires loc2.pi == Smaller(n, Below(cfg.lens, k) + r + 1) && StaleAt(cfg, loc2.pi, loc2.base)
    requires BackInv(cfg, h0, hn0, st', loc', st2, loc2) && Head(st')
    requires st2.p < SPACE ==> loc'.w == Leave(cfg, loc2.w, st2.p)
    ensures Ready(cfg, h0, hn0, st', loc', k, r + 1, n, total) && st'.h == st2.h && |st'.stk| > 0
  {
    hide Pow2, At, CountX, EndX, Space, Inv, Below, Head, Rel, Past, Leave;
    AtFacts(cfg, k, r, st.p);
    SpaceUnfold(cfg, k, r, st.p, loc.w);
    if st2.p >= SPACE {
      SpaceEnd(cfg, st2.p, loc'.w);
      SpaceEnd(cfg, st2.p, Leave(cfg, loc.w, st2.p));
    }
  }

  lemma {:induction false} SpaceEnd(cfg: Cfg, p: nat, w: int)
    requires cfg.l >= 1 && p >= SPACE
    ensures Space(cfg, p, w) == 0
  {
  }

  lemma {:induction false} ReadyPlace(cfg: Cfg, h0: seq<Huft>, hn0: nat, st: St, loc: Loc, k: nat, r: nat, n: nat, total: nat, v: seq<nat>)
    requires CfgOk(cfg) && Ready(cfg, h0, hn0, st, loc, k, r, n, total) && k <= loc.w + cfg.l && r < CountX(cfg, k)
    requires Values(cfg.lens, v) && n <= |v|
    ensures 0 <= loc.w < k <= cfg.g <= 15 && At(cfg, k, r, st.p) && n == Below(cfg.lens, cfg.g + 1)
    ensures loc.pi == Smaller(n, Below(cfg.lens, k) + r) && StaleAt(cfg, loc.pi, loc.base)
    ensures loc.pi < n ==> v[loc.pi] < |cfg.lens|
    ensures hn0 <= MANY && |st.h| == MANY && loc.i == Rev(st.p, 16)
  {
    hide At, CountX, EndX, Space, Mem, Gaps, Filled, Stack, Closed, Aligned, Head, Below, Values, ListsOk, TabOk, Rev;
    InvHn(cfg, h0, hn0, st);
    RelDepth(cfg, st, loc);
    NotEmpty(cfg, st, loc, k);
    ReadyEntry(cfg, v, k, r, st.p, loc.w, loc.base, n, loc.pi);
  }

  lemma {:induction false} NotEmpty(cfg: Cfg, st: St, loc: Loc, k: nat)
    requires Rel(cfg, st, loc) && loc.w < k <= loc.w + cfg.l && k >= 1
    ensures |st.stk| > 0 && 0 <= loc.w
  {
  }

  lemma {:induction false} FillIsStep(cfg: Cfg, h0: seq<Huft>, hn0: nat, st: St, h: seq<Huft>, loc: Loc, k: nat, e: Huft)
    requires FillPre(cfg, h0, hn0, st, k, e) && Top(st) in st.tabs && st.tabs[Top(st)].w == loc.w
    requires 0 <= loc.w < k <= 16 && loc.i == Rev(st.p, 16)
    requires loc.q == Top(st) && loc.z == Pow2(st.tabs[Top(st)].j) && loc.q + loc.z <= |st.h| == |h|
    requires forall i :: loc.q <= i < loc.q + loc.z ==> h[i] == if Low(i - loc.q, k - loc.w) == Shr(loc.i, loc.w) then e else st.h[i]
    requires forall i :: 0 <= i < |h| && (i < loc.q || loc.q + loc.z <= i) ==> h[i] == st.h[i]
    ensures FillStep(cfg, st, St(h, st.hn, st.tabs, st.stk, st.p + Pow2(16 - k)), k, e)
  {
    hide Pow2, Low, Shr, Rev, Inv, EntryFor, EndX, Head;
    RestIs(k);
  }

  lemma {:induction false} EnteredBack(cfg: Cfg, h0: seq<Huft>, hn0: nat, st: St, loc: Loc, st': St, loc': Loc, k: nat, e: Huft, r: nat, n: nat, total: nat)
    requires CfgOk(cfg) && Ready(cfg, h0, hn0, st, loc, k, r, n, total) && FillPre(cfg, h0, hn0, st, k, e)
    requires FillStep(cfg, st, st', k, e) && loc'.i == Rev(st'.p, 16)
    requires loc' == loc.(i := loc'.i, pi := loc'.pi, base := loc'.base) && 0 <= loc.w
    ensures BackInv(cfg, h0, hn0, st', loc', st', loc')
  {
    hide Pow2, Low, Shr, Rev, EntryFor, EndX, Head, FillPre, TabStart, TabEnd, Mem, Gaps, Filled, Closed, Aligned, At, Current,
         Space, Leave, Below, CountX, InCode, ListsOk, ValidLens, Linked, LinkIndex;
    FillKeeps(cfg, h0, hn0, st, st', k, e);
  }

  // ---------------------------------------------------------------- the loops over the code lengths

  lemma {:induction false} ReadyNextLength(cfg: Cfg, h0: seq<Huft>, hn0: nat, st: St, loc: Loc, k: nat, n: nat, total: nat)
    requires CfgOk(cfg) && Ready(cfg, h0, hn0, st, loc, k, CountX(cfg, k), n, total)
    ensures k < cfg.g ==> Ready(cfg, h0, hn0, st, loc, k + 1, 0, n, total)
    ensures k == cfg.g ==> st.p == SPACE && Inv(cfg, h0, hn0, st) && loc.hn == st.hn == total
  {
    hide Inv, Rel, EndX, Space, Head, ListsOk, Count, Below, Shl, Pow2, ValidLens, CountX;
    RelDepth(cfg, st, loc);
    CountXIs(cfg, k);
    AtFacts(cfg, k, CountX(cfg, k), st.p);
    EndXLast(cfg);
    ShlOne(if k < 16 then 16 - (k + 1) else 0);
    BelowUnfold(cfg.lens, k);
    if k == cfg.g { SpaceEnd(cfg, st.p, loc.w); }
  }

  lemma {:induction false} CountXIs(cfg: Cfg, k: nat)
    requires cfg.g <= 16
    ensures k != cfg.g ==> CountX(cfg, k) == Count(cfg.lens, k)
  {
  }

  lemma {:induction false} BelowUnfold(lens: seq<nat>, k: nat)
    requires k >= 1
    ensures Below(lens, k + 1) == Below(lens, k) + Count(lens, k)
  {
  }

  /** The loop over the codes of length k. */
  method EnterLength(c: seq<nat>, k: nat, lens: seq<nat>, v: seq<nat>, n: nat, s: nat, d: seq<nat>, e: seq<nat>,
                     g: nat, l: nat, hufts: array<Huft>, loc: Loc,
                     ghost cfg: Cfg, ghost h0: seq<Huft>, ghost hn0: nat, ghost st: St, ghost total: nat)
    returns (ok: bool, loc': Loc, ghost st': St)
    requires CfgOk(cfg) && cfg == Cfg(lens, s, d, e, g, l) && Counts(cfg, c) && hufts.Length == MANY
    requires Values(lens, v) && n <= |v|
    requires Ready(cfg, h0, hn0, st, loc, k, 0, n, total) && st.h == hufts[..]
    modifies hufts
    ensures !ok ==> total > MANY
    ensures forall i :: 0 <= i < hn0 ==> hufts[i] == old(hufts[i])
    ensures ok ==> cfg.g <= 16 && Ready(cfg, h0, hn0, st', loc', k, CountX(cfg, k), n, total) && st'.h == hufts[..]
  {
    hide *;
    ReadyHn(cfg, h0, hn0, st, loc, k, 0, n, total);
    CountAt(cfg, c, k);
    loc', st' := loc, st;
    var a: nat := c[k];
    ghost var r: nat := 0;
    while a > 0
      invariant a + r == CountX(cfg, k) && Ready(cfg, h0, hn0, st', loc', k, r, n, total)
      invariant st'.h == hufts[..]
      invariant forall i :: 0 <= i < hn0 ==> hufts[i] == old(hufts[i])
    {
      a := a - 1;
      ok, loc', st' := EnterCode(c, k, a, lens, v, n, s, d, e, g, l, hufts, loc', cfg, h0, hn0, st', r, total);
      if !ok { return; }
      r := r + 1;
    }
    ok := true;
  }

  /** The loop over the code lengths. */
  method EnterAll(c: seq<nat>, kmin: nat, lens: seq<nat>, v: seq<nat>, n: nat, s: nat, d: seq<nat>, e: seq<nat>,
                  g: nat, l: nat, hufts: array<Huft>, loc: Loc,
                  ghost cfg: Cfg, ghost h0: seq<Huft>, ghost hn0: nat, ghost st: St, ghost total: nat)
    returns (ok: bool, loc': Loc, ghost st': St)
    requires CfgOk(cfg) && cfg == Cfg(lens, s, d, e, g, l) && Counts(cfg, c) && hufts.Length == MANY
    requires Values(lens, v) && n <= |v|
    requires Ready(cfg, h0, hn0, st, loc, kmin, 0, n, total) && st.h == hufts[..]
    modifies hufts
    ensures !ok ==> total > MANY
    ensures forall i :: 0 <= i < hn0 ==> hufts[i] == old(hufts[i])
    ensures ok ==> Inv(cfg, h0, hn0, st') && st'.p == SPACE && st'.h == hufts[..] && loc'.hn == st'.hn == total
  {
    hide *;
    ReadyHn(cfg, h0, hn0, st, loc, kmin, 0, n, total);
    loc', st' := loc, st;
    var k := kmin;
    while k <= g
      invariant 1 <= k <= g + 1
      invariant k <= g ==> Ready(cfg, h0, hn0, st', loc', k, 0, n, total)
      invariant k > g ==> Inv(cfg, h0, hn0, st') && st'.p == SPACE && loc'.hn == st'.hn == total
      invariant st'.h == hufts[..]
      invariant forall i :: 0 <= i < hn0 ==> hufts[i] == old(hufts[i])
    {
      ok, loc', st' := EnterLength(c, k, lens, v, n, s, d, e, g, l, hufts, loc', cfg, h0, hn0, st', total);
      if !ok { return; }
      ReadyNextLength(cfg, h0, hn0, st', loc', k, n, total);
      k := k + 1;
    }
    ok := true;
  }

  lemma {:induction false} CountAt(cfg: Cfg, c: seq<nat>, k: nat)
    requires Counts(cfg, c) && 1 <= k <= cfg.g
    ensures |c| == 16 && cfg.g <= 15 && c[k] == CountX(cfg, k)
  {
  }

  // ---------------------------------------------------------------- before the main loop

  /** The longest code length. */
  function Longest(lens: seq<nat>): (g: nat)
    ensures forall i :: 0 <= i < |lens| ==> lens[i] <= g
    ensures g == 0 || g in lens
  {
    if lens == [] then 0
    else
      var r := Longest(lens[..|lens| - 1]);
      if lens[|lens| - 1] > r then lens[|lens| - 1] else r
  }

  /** The shortest code length, leaving symbols without a code aside; 0 if there is no code. */
  function Shortest(lens: seq<nat>): (j: nat)
    ensures forall i :: 0 <= i < |lens| && lens[i] > 0 ==> 0 < j <= lens[i]
    ensures j == 0 || j in lens
  {
    if lens == [] then 0
    else
      var r := Shortest(lens[..|lens| - 1]);
      var x := lens[|lens| - 1];
      if x == 0 then r else if r == 0 || x < r then x else r
  }

  /** The index size of the first table, when m bits are asked for. */
  function RootBits(lens: seq<nat>, m: nat): nat
  {
    var l := if m < Shortest(lens) then Shortest(lens) else m;
    if l > Longest(lens) then Longest(lens) else l
  }

  lemma {:induction false} CountIn(lens: seq<nat>, k: nat)
    ensures Count(lens, k) > 0 <==> k in lens
  {
    if k in lens {
      var i :| 0 <= i < |lens| && lens[i] == k;
      RankBelowCount(lens, i);
    } else {
      CountNone(lens, k);
    }
  }

  /** c[k] counts the symbols of length k. */
  ghost predicate RawCounts(lens: seq<nat>, c: seq<nat>)
  {
    |c| == 16 && forall k :: 0 <= k < 16 ==> c[k] == Count(lens, k)
  }

  method CountLengths(b: seq<nat>) returns (c: seq<nat>)
    requires ValidLens(b)
    ensures RawCounts(b, c)
  {
    c := seq(16, _ => 0);
    var i := 0;
    while i < |b|
      invariant 0 <= i <= |b| && RawCounts(b[..i], c)
    {
      forall k ensures Count(b[..i + 1], k) == Count(b[..i], k) + if b[i] == k then 1 else 0 {
        CountNext(b, i, k);
      }
      c := c[b[i] := c[b[i]] + 1];
      i := i + 1;
    }
    assert b[..i] == b;
  }

  method FindBounds(c: seq<nat>, ghost b: seq<nat>) returns (j: nat, g: nat)
    requires ValidLens(b) && RawCounts(b, c) && exists i :: 0 <= i < |b| && b[i] > 0
    ensures j == Shortest(b) && g == Longest(b) && 1 <= j <= g <= 15
  {
    forall k ensures Count(b, k) > 0 <==> k in b { CountIn(b, k); }
    hide Count;
    ghost var i: nat :| 0 <= i < |b| && b[i] > 0;
    assert b[i] in b;
    j := 1;
    while j <= 15 && c[j] == 0
      invariant 1 <= j <= b[i] && forall k :: 1 <= k < j ==> k !in b
    {
      j := j + 1;
    }
    g := 15;
    while g > 0 && c[g] == 0
      invariant b[i] <= g <= 15 && forall k :: g < k <= 15 ==> k !in b
    {
      g := g - 1;
    }
    assert Longest(b) in b && Shortest(b) in b;
  }

  /** y dummy codes of length j would fill the code space after the codes shorter than j. */
  ghost predicate Free(lens: seq<nat>, j: nat, y: int)
  {
    1 <= j <= 16 && y >= 0 && End(lens, j - 1) + Shl(y, 16 - j) == SPACE
  }

  lemma {:induction false} FreeStart(lens: seq<nat>, j: nat)
    requires 1 <= j <= 15 && forall k :: 1 <= k < j ==> Count(lens, k) == 0
    ensures Free(lens, j, Pow2(j))
  {
    EndZero(lens, j - 1);
    ShlOne(j);
    ShlShl(1, j, 16 - j);
    ShlOne(16);
    Pow2Values();
    hide Shl, Pow2, End;
  }

  lemma {:induction false} EndZero(lens: seq<nat>, j: nat)
    requires j <= 16 && forall k :: 1 <= k <= j ==> Count(lens, k) == 0
    ensures End(lens, j) == 0
  {
    if j > 0 {
      EndZero(lens, j - 1);
      ShlOne(16 - j);
    }
  }

  /** Taking the codes of length j off the free ones. */
  lemma {:induction false} FreeStep(lens: seq<nat>, j: nat, y: nat)
    requires j <= 15 && Free(lens, j, y)
    ensures y < Count(lens, j) <==> End(lens, j) > SPACE
    ensures y >= Count(lens, j) ==> Free(lens, j + 1, 2 * (y - Count(lens, j)))
    ensures y >= Count(lens, j) ==> End(lens, j) + Shl(y - Count(lens, j), 16 - j) == SPACE
  {
    hide Shl, Count, End;
    EndUnfold(lens, j);
    ShlCompare(y, Count(lens, j), 16 - j);
    ShlCompare(Count(lens, j), y, 16 - j);
    if y >= Count(lens, j) {
      ShlOne(16 - j);
      Unfold(y - Count(lens, j), 16 - (j + 1));
      ShlHalf(y - Count(lens, j), 16 - (j + 1));
    }
  }

  /** The over-subscription check, and the number of dummy codes. */
  method FillOut(c: seq<nat>, jmin: nat, g: nat, ghost b: seq<nat>) returns (ok: bool, y: nat)
    requires ValidLens(b) && RawCounts(b, c) && 1 <= jmin <= g <= 15
    requires forall k :: 1 <= k < jmin ==> Count(b, k) == 0
    ensures ok <==> End(b, g) <= SPACE
    ensures ok ==> y == Dummies(b, g) && (y != 0 <==> End(b, g) < SPACE)
  {
    FreeStart(b, jmin);
    hide Count, End, Shl, Free;
    var j := jmin;
    var yy: int := Pow2(jmin);
    hide Pow2;
    while j < g
      invariant jmin <= j <= g && Free(b, j, yy) && yy >= 0
    {
      FreeStep(b, j, yy);
      EndMono(b, j, g);
      yy := yy - c[j];
      if yy < 0 {
        return false, 0;
      }
      j := j + 1;
      yy := 2 * yy;
    }
    FreeStep(b, g, yy);
    yy := yy - c[g];
    if yy < 0 {
      return false, 0;
    }
    ok, y := true, yy;
    FreeIsDummies(b, g, y);
  }

  lemma {:induction false} FreeIsDummies(lens: seq<nat>, g: nat, y: nat)
    requires 1 <= g <= 15 && End(lens, g) + Shl(y, 16 - g) == SPACE
    ensures End(lens, g) <= SPACE && y == Dummies(lens, g) && (y != 0 <==> End(lens, g) < SPACE)
  {
    hide Shl, End, Shr;
    ShrOfShl(y, 16 - g);
    ShlOne(16 - g);
    if y > 0 { ShlMono(0, y, 16 - g); }
  }

  /** Starting offsets into the value table for each length. */
  method Offsets(c: seq<nat>, g: nat, ghost b: seq<nat>) returns (x: seq<nat>)
    requires |c| == 16 && 1 <= g <= 15 && forall k :: 1 <= k < g ==> c[k] == Count(b, k)
    ensures |x| == 16 && forall k :: 1 <= k <= g ==> x[k] == Below(b, k)
  {
    x := seq(16, _ => 0);
    BelowStart(b);
    hide Below, Count;
    var j: nat, i: nat := 0, 1;
    while i < g
      invariant 1 <= i <= g && |x| == 16 && j == Below(b, i)
      invariant forall k :: 1 <= k <= i ==> x[k] == Below(b, k)
    {
      BelowUnfold(b, i);
      j := j + c[i];
      i := i + 1;
      x := x[i := j];
    }
  }

  lemma {:induction false} BelowStart(lens: seq<nat>)
    ensures Below(lens, 1) == 0 && Below(lens, 0) == 0
  {
  }

  /** The first i symbols are in the value list, and x[k] is the next free place for length k. */
  ghost predicate Placed(b: seq<nat>, i: nat, g: nat, x: seq<nat>, v: seq<nat>)
  {
    i <= |b| == |v| && |x| == 16 && g <= 15
    && (forall k :: 1 <= k <= g ==> x[k] == Below(b, k) + Count(b[..i], k))
    && (forall n :: 0 <= n < i && b[n] > 0 ==> Slot(b, n) < |v| && v[Slot(b, n)] == n)
  }

  lemma {:induction false} PlacedStep(b: seq<nat>, i: nat, g: nat, x: seq<nat>, v: seq<nat>)
    requires Placed(b, i, g, x, v) && i < |b| && b[i] <= g
    ensures b[i] > 0 ==> x[b[i]] < |v| && Placed(b, i + 1, g, x[b[i] := x[b[i]] + 1], v[x[b[i]] := i])
    ensures b[i] == 0 ==> Placed(b, i + 1, g, x, v)
  {
    forall k ensures Count(b[..i + 1], k) == Count(b[..i], k) + if b[i] == k then 1 else 0 {
      CountNext(b, i, k);
    }
    if b[i] > 0 {
      assert x[b[i]] == Slot(b, i);
      SlotBound(b, i);
      forall n | 0 <= n < i && b[n] > 0 && Slot(b, n) == Slot(b, i) ensures false {
        SlotInjective(b, i, n);
      }
    }
    hide Slot, Count, Below;
  }

  /** A table of values in order of bit lengths. */
  method SortValues(b: seq<nat>, offsets: seq<nat>, g: nat) returns (v: seq<nat>, n: nat)
    requires ValidLens(b) && 1 <= g <= 15 && |offsets| == 16 && (forall k :: 1 <= k <= g ==> offsets[k] == Below(b, k))
    requires forall i :: 0 <= i < |b| ==> b[i] <= g
    ensures Values(b, v) && n == Below(b, g + 1) <= |v| == |b|
  {
    v := seq(|b|, _ => 0);
    var x := offsets;
    var i: nat := 0;
    assert Placed(b, 0, g, x, v);
    hide Placed, Below, Count, Slot;
    while i < |b|
      invariant 0 <= i <= |b| && Placed(b, i, g, x, v)
      invariant |x| == 16 && |v| == |b|
    {
      PlacedStep(b, i, g, x, v);
      var j := b[i];
      if j != 0 {
        v := v[x[j] := i];
        x := x[j := x[j] + 1];
      }
      i := i + 1;
    }
    PlacedDone(b, g, x, v);
    n := x[g];
  }

  lemma {:induction false} PlacedDone(b: seq<nat>, g: nat, x: seq<nat>, v: seq<nat>)
    requires Placed(b, |b|, g, x, v) && 1 <= g
    ensures Values(b, v) && x[g] == Below(b, g + 1) <= |b|
  {
    assert b[..|b|] == b;
    BelowBound(b, g + 1);
  }

  // ---------------------------------------------------------------- huft_build

  predicate NoCodes(b: seq<nat>)
  {
    forall i :: 0 <= i < |b| ==> b[i] == 0
  }

  function CfgOf(b: seq<nat>, s: nat, d: seq<nat>, e: seq<nat>, m: nat): Cfg
  {
    Cfg(b, s, d, e, Longest(b), RootBits(b, m))
  }

  /** Table entries that the tables for cfg take. */
  ghost function TableSpace(cfg: Cfg): nat
    requires cfg.l >= 1
  {
    Space(cfg, 0, 0 - (cfg.l as int))
  }

  lemma {:induction false} BoundsOk(b: seq<nat>, m: nat)
    requires ValidLens(b) && !NoCodes(b)
    ensures 1 <= Shortest(b) <= Longest(b) <= 15 && Shortest(b) <= RootBits(b, m) <= Longest(b)
    ensures Count(b, Longest(b)) > 0
    ensures forall k :: 1 <= k < Shortest(b) ==> Count(b, k) == 0
  {
    var i: nat :| 0 <= i < |b| && b[i] > 0;
    CountIn(b, Longest(b));
    forall k | 1 <= k < Shortest(b) ensures Count(b, k) == 0 { CountIn(b, k); }
  }

  lemma {:induction false} KraftIsEnd(b: seq<nat>, g: nat)
    requires ValidLens(b) && g <= 15 && forall i :: 0 <= i < |b| ==> b[i] <= g
    ensures Kraft(b) == End(b, g)
  {
    EndIsKraft(b);
    EndTail(b, g, 15);
  }

  lemma {:induction false} CfgIsOk(b: seq<nat>, s: nat, d: seq<nat>, e: seq<nat>, m: nat)
    requires ValidLens(b) && !NoCodes(b) && Kraft(b) <= SPACE && ListsOk(|b|, s, d, e)
    ensures CfgOk(CfgOf(b, s, d, e, m))
  {
    BoundsOk(b, m);
    KraftIsEnd(b, Longest(b));
    hide Kraft, End, Count;
  }

  /** The state before the first code. */
  lemma {:induction false} FirstReady(cfg: Cfg, h: seq<Huft>, hn: nat, kmin: nat, loc: Loc)
    requires CfgOk(cfg) && |h| == MANY && hn <= MANY && 1 <= kmin <= cfg.l
    requires forall k :: 1 <= k < kmin ==> Count(cfg.lens, k) == 0
    requires loc == Loc(0, 0, -1, 0 - (cfg.l as int), loc.u, loc.x, 0, 0, hn, 0) && |cfg.lens| > 0 && |loc.u| == 15 && |loc.x| == 16 && loc.x[0] == 0
    ensures Ready(cfg, h, hn, St(h, hn, map[], [], 0), loc, kmin, 0, Below(cfg.lens, cfg.g + 1), hn + TableSpace(cfg))
  {
    hide End, Below, Count, Rev, Low, Shl, Inv, ListsOk, ValidLens, TableSpace, CountX;
    EndZero(cfg.lens, kmin - 1);
    BelowZero(cfg.lens, kmin);
    ShlOne(16 - kmin);
    RevOfZero(16);
    FirstInv(cfg, h, hn);
    SpaceIs(cfg);
    hide Space;
  }

  lemma {:induction false} SpaceIs(cfg: Cfg)
    requires cfg.l >= 1
    ensures TableSpace(cfg) == Space(cfg, 0, 0 - (cfg.l as int))
  {
  }

  lemma {:induction false} FirstInv(cfg: Cfg, h: seq<Huft>, hn: nat)
    requires CfgOk(cfg) && |h| == MANY && hn <= MANY
    ensures Inv(cfg, h, hn, St(h, hn, map[], [], 0))
  {
    hide Low, TabOk, Good, Linked, ListsOk;
    LowOfZero(16);
    var st := St(h, hn, map[], [], 0);
    assert Mem(cfg, h, hn, st) && Gaps(cfg, h, st) && Filled(cfg, st);
    assert Stack(cfg, st) && Closed(st);
    assert Aligned(cfg, st);
  }

  lemma {:induction false} BelowZero(lens: seq<nat>, j: nat)
    requires forall k :: 1 <= k < j ==> Count(lens, k) == 0
    ensures Below(lens, j) == 0
  {
    if j > 1 { BelowZero(lens, j - 1); }
  }

  /** Finished tables decode, if no table was too wide. */
  lemma {:induction false} FinishedBuilt(cfg: Cfg, h0: seq<Huft>, hn0: nat, st: St)
    requires Inv(cfg, h0, hn0, st) && st.p == SPACE && Count(cfg.lens, cfg.g) > 0 && EndX(cfg, cfg.l) > 0
    requires Compact(cfg.lens, cfg.g, cfg.l, 0)
    ensures Built(cfg, st.h, hn0, st.hn)
  {
    hide Mem, Gaps, Filled, Stack, Closed, Aligned, EndX, Count, Compact, Walk, DecodesAs, AllGood;
    RootIsFull(cfg, h0, hn0, st);
    DoneIsGood(cfg, h0, hn0, st);
    InvHn(cfg, h0, hn0, st);
    forall h2: seq<Huft>, b: nat | |h2| >= st.hn && (forall i :: hn0 <= i < st.hn ==> h2[i] == st.h[i])
      ensures DecodesAs(cfg, Walk(h2, hn0, cfg.l, b), b)
    {
      AllGoodFrame(cfg, h0, hn0, st, h2);
      RootDecodes(cfg, h2, st.tabs, hn0, b);
    }
  }

  lemma {:induction false} RootHasCodes(b: seq<nat>, s: nat, d: seq<nat>, e: seq<nat>, m: nat)
    requires ValidLens(b) && !NoCodes(b)
    ensures EndX(CfgOf(b, s, d, e, m), RootBits(b, m)) > 0
  {
    BoundsOk(b, m);
    var j := Shortest(b);
    CountIn(b, j);
    EndUnfold(b, j);
    ShlMono(0, Count(b, j), 16 - j);
    EndMono(b, j, RootBits(b, m));
  }

  lemma {:induction false} AllZeroCount(b: seq<nat>, c: seq<nat>)
    requires RawCounts(b, c)
    ensures |c| == 16 && (c[0] == |b| <==> NoCodes(b))
    ensures !NoCodes(b) ==> exists i :: 0 <= i < |b| && b[i] > 0
  {
    ZeroCount(b);
  }

  lemma {:induction false} ZeroCount(b: seq<nat>)
    ensures Count(b, 0) == |b| <==> NoCodes(b)
  {
    if b != [] {
      ZeroCount(b[..|b| - 1]);
      assert NoCodes(b) <==> NoCodes(b[..|b| - 1]) && b[|b| - 1] == 0;
    }
  }

  lemma {:induction false} CfgIs(b: seq<nat>, s: nat, d: seq<nat>, e: seq<nat>, m0: nat, l: nat)
    requires l == var x := (if m0 < Shortest(b) then Shortest(b) else m0); if x > Longest(b) then Longest(b) else x
    ensures l == RootBits(b, m0) && CfgOf(b, s, d, e, m0) == Cfg(b, s, d, e, Longest(b), l)
  {
  }

  lemma {:induction false} ShortCounts(b: seq<nat>, c: seq<nat>, k: nat)
    requires RawCounts(b, c)
    ensures |c| == 16 && forall j :: 0 <= j < 16 ==> c[j] == Count(b, j)
  {
  }

  lemma {:induction false} CountsFilled(cfg: Cfg, c: seq<nat>, y: nat)
    requires RawCounts(cfg.lens, c) && 1 <= cfg.g <= 15 && y == Dummies(cfg.lens, cfg.g)
    ensures Counts(cfg, c[cfg.g := c[cfg.g] + y])
  {
    hide Count, Dummies;
  }

  lemma {:induction false} BuildDone(cfg: Cfg, h0: seq<Huft>, hn0: nat, st: St)
    requires Inv(cfg, h0, hn0, st) && st.p == SPACE && Count(cfg.lens, cfg.g) > 0 && EndX(cfg, cfg.l) > 0
    ensures cfg.l >= 1 && cfg.g <= 16 && hn0 <= st.hn <= |st.h|
    ensures Compact(cfg.lens, cfg.g, cfg.l, 0) ==> Built(cfg, st.h, hn0, st.hn)
    ensures !Compact(cfg.lens, cfg.g, cfg.l, 0) && (forall i :: hn0 <= i < |h0| ==> h0[i] == Huft(0, 0, 0)) ==>
              !Built(cfg, st.h, hn0, st.hn)
  {
    hide Mem, Gaps, Filled, Stack, Closed, Aligned, EndX, Count, Compact, Built;
    InvHn(cfg, h0, hn0, st);
    if Compact(cfg.lens, cfg.g, cfg.l, 0) {
      FinishedBuilt(cfg, h0, hn0, st);
    } else if forall i :: hn0 <= i < |h0| ==> h0[i] == Huft(0, 0, 0) {
      LooseFails(cfg, h0, hn0, st);
    }
  }

  lemma {:induction false} ErrorCodes()
    ensures Z_OK == 0 && Z_DATA_ERROR == -3 && Z_MEM_ERROR == -4 && Z_BUF_ERROR == -5
  {
  }

  lemma {:induction false} OneMore(lens: seq<nat>, x: nat)
    requires ValidLens(lens) && x <= MAXBITS
    ensures ValidLens(lens + [x]) && Kraft(lens + [x]) == Kraft(lens) + if x == 0 then 0 else Pow2(16 - x)
    ensures forall k :: Count(lens + [x], k) == Count(lens, k) + if x == k then 1 else 0
  {
    assert (lens + [x])[..|lens + [x]| - 1] == lens;
  }

  lemma {:induction false} OneAndFour()
    ensures var b := [1, 3, 3, 3, 3];
            ValidLens(b) && Kraft(b) == Pow2(15) + Pow2(13) + Pow2(13) + Pow2(13) + Pow2(13) && Count(b, 1) == 1 && Count(b, 2) == 0
  {
    hide Pow2, Kraft, Count;
    var b1: seq<nat> := [1];
    var b2, b3, b4 := b1 + [3], b1 + [3] + [3], b1 + [3] + [3] + [3];
    Empty();
    OneMore([], 1);
    OneMore(b1, 3);
    OneMore(b2, 3);
    OneMore(b3, 3);
    OneMore(b4, 3);
    assert [] + [1] == b1 && b4 + [3] == [1, 3, 3, 3, 3];
  }

  lemma {:induction false} Empty()
    ensures ValidLens([]) && Kraft([]) == 0 && forall k :: Count([], k) == 0
  {
  }

  lemma {:induction false} EndTwo(b: seq<nat>)
    ensures End(b, 2) == Shl(Count(b, 1), 15) + Shl(Count(b, 2), 14) && End(b, 1) == Shl(Count(b, 1), 15)
  {
    assert End(b, 1) == End(b, 0) + Shl(Count(b, 1), 15) && End(b, 0) == 0;
  }

  /** A complete code whose tables do not decode: with one index bit, the second table needs two. */
  lemma {:induction false} NotAlwaysCompact()
    ensures var b := [1, 3, 3, 3, 3];
            ValidLens(b) && Kraft(b) == SPACE && !Compact(b, 3, 1, 0)
  {
    hide Kraft, Count, End;
    var b: seq<nat> := [1, 3, 3, 3, 3];
    OneAndFour();
    assert Pow2(13) == 8192;
    Pow2Values();
    ShlOne(15);
    ShlOne(14);
    EndTwo(b);
    assert !Compact(b, 3, 1, 1);
  }

  /** huft_build: code lengths b, s simple symbols, base and extra-bit lists d and e for the others,
      at most m0 bits for the first table, table space hufts of which hn entries are in use. */
  method Build(b: seq<nat>, s: nat, d: seq<nat>, e: seq<nat>, m0: nat, hufts: array<Huft>, hn: nat)
    returns (r: int, t: nat, m: nat, hn': nat)
    requires 1 <= |b| <= 288 && ValidLens(b) && ListsOk(|b|, s, d, e) && hufts.Length == MANY && hn <= MANY
    modifies hufts
    ensures forall i :: 0 <= i < hn ==> hufts[i] == old(hufts[i])
    ensures NoCodes(b) ==> r == Z_OK && m == 0 && hn' == hn
    ensures !NoCodes(b) ==> (r == Z_DATA_ERROR <==> Kraft(b) > SPACE)
    ensures !NoCodes(b) ==> m == RootBits(b, m0) >= 1
    ensures !NoCodes(b) && Kraft(b) <= SPACE ==> (r == Z_MEM_ERROR <==> hn + TableSpace(CfgOf(b, s, d, e, m0)) > MANY)
    ensures !NoCodes(b) && Kraft(b) <= SPACE && r != Z_MEM_ERROR ==>
              r == (if Kraft(b) < SPACE && Longest(b) != 1 then Z_BUF_ERROR else Z_OK)
              && t == hn && m == RootBits(b, m0) && hn' == hn + TableSpace(CfgOf(b, s, d, e, m0)) <= MANY
              && (Compact(b, Longest(b), m, 0) ==> Built(CfgOf(b, s, d, e, m0), hufts[..], hn, hn'))
              && (!Compact(b, Longest(b), m, 0) && (forall i :: hn <= i < MANY ==> old(hufts[i]) == Huft(0, 0, 0)) ==>
                    !Built(CfgOf(b, s, d, e, m0), hufts[..], hn, hn'))
  {
    hide *;
    ErrorCodes();
    t, m, hn' := 0, 0, hn;
    var c := CountLengths(b);
    AllZeroCount(b, c);
    if c[0] == |b| {
      return Z_OK, t, m, hn';
    }
    BoundsOk(b, m0);
    var k, g := FindBounds(c, b);
    KraftIsEnd(b, g);
    var l := m0;
    if l < k { l := k; }
    if l > g { l := g; }
    m := l;
    ghost var cfg := CfgOf(b, s, d, e, m0);
    CfgIs(b, s, d, e, m0, l);
    ShortCounts(b, c, k);
    var ok, y := FillOut(c, k, g, b);
    if !ok {
      return Z_DATA_ERROR, t, m, hn';
    }
    CfgIsOk(b, s, d, e, m0);
    RootHasCodes(b, s, d, e, m0);
    CountsFilled(cfg, c, y);
    var x := Offsets(c, g, b);
    c := c[g := c[g] + y];
    var v, n := SortValues(b, x, g);
    var loc := Loc(0, 0, -1, 0 - (l as int), seq(15, _ => 0), x[0 := 0], 0, 0, hn, 0);
    FirstReady(cfg, hufts[..], hn, k, loc);
    ghost var h0 := hufts[..];
    ghost var st := St(h0, hn, map[], [], 0);
    ok, loc, st := EnterAll(c, k, b, v, n, s, d, e, g, l, hufts, loc, cfg, h0, hn, st, hn + TableSpace(cfg));
    if !ok {
      return Z_MEM_ERROR, t, m, hn';
    }
    BuildDone(cfg, h0, hn, st);
    t, hn' := hn, loc.hn;
    r := if y != 0 && g != 1 then Z_BUF_ERROR else Z_OK;
  }
}
