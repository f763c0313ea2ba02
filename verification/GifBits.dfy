/** A raster of GIF89a bit by bit, as an encoder packs it: clear codes, the codes of phrases with growing width, and an end code;
    against the decoder. */
module GifBits {
  import opened Bits
  import opened BitStream
  import opened Canonical
  import opened GifLzw

  // ---------------------------------------------------------------- widths

  /** The least width, from w up to 12, of a number that may be as large as n. */
  function Width(w: nat, n: nat): nat
    decreases 12 - w
  {
    if w >= 12 || n < Pow2(w) then w else Width(w + 1, n)
  }

  lemma {:induction false} WidthIs(w: nat, n: nat)
    requires w <= 12
    ensures var r := Width(w, n); w <= r <= 12 && (r == 12 || n < Pow2(r)) && (r == w || Pow2(r - 1) <= n)
    decreases 12 - w
  {
    if w < 12 && n >= Pow2(w) { WidthIs(w + 1, n); }
  }

  /** No other width is like that. */
  lemma {:induction false} WidthOnly(w: nat, n: nat, r: nat)
    requires w <= r <= 12 && (r == 12 || n < Pow2(r)) && (r == w || Pow2(r - 1) <= n)
    ensures Width(w, n) == r
    decreases 12 - w
  {
    if w < r {
      Pow2Mono(w, r - 1);
      WidthOnly(w + 1, n, r);
    }
  }

  lemma {:induction false} LowOfPow2(n: nat)
    ensures Low(Pow2(n), n) == 0
  {
    if n > 0 { LowOfPow2(n - 1); }
  }

  /** The decoder makes its codes one bit wider exactly when the next table entry needs it. */
  lemma {:induction false} WidthNext(w: nat, n: nat)
    requires w <= 12 && n + 1 <= LIMIT
    ensures NextSize(Width(w, n), n + 1) == Width(w, n + 1)
  {
    hide Width, Low;
    var r := Width(w, n);
    WidthIs(w, n);
    MorePowers();
    if r == 12 { Pow2Mono(r, 12); }
    if n + 1 < Pow2(r) {
      ShrZero(n + 1, r);
      WidthOnly(w, n + 1, r);
    } else {
      LowOfPow2(r);
      WidthOnly(w, n + 1, if r < 12 then r + 1 else 12);
    }
  }

  /** The width of code k after a clear code. */
  function SizeAt(cs: nat, k: nat): nat
  {
    Width(cs + 1, Pow2(cs) + 1 + if k == 0 then 1 else k)
  }

  /** The first codes are as wide as the minimum code size says, and so is the one after. */
  lemma {:induction false} SizeFirst(cs: nat)
    requires 2 <= cs <= 11
    ensures SizeAt(cs, 0) == cs + 1 && NextSize(SizeAt(cs, 0), Pow2(cs) + 2) == SizeAt(cs, 1)
    ensures Pow2(cs) + 2 < Pow2(cs + 1) <= LIMIT
  {
    Pow2Mono(2, cs);
    Pow2Mono(cs + 1, 12);
    MorePowers();
    assert Pow2(2) == 4;
    WidthOnly(cs + 1, Pow2(cs) + 2, cs + 1);
    ShrZero(Pow2(cs) + 2, cs + 1);
    hide Low, Width;
  }

  lemma {:induction false} SizeNext(cs: nat, k: nat)
    requires 2 <= cs <= 11 && Pow2(cs) + 2 + k <= LIMIT
    ensures NextSize(SizeAt(cs, k), Pow2(cs) + 2 + k) == SizeAt(cs, k + 1)
    ensures Pow2(cs) + 1 + k < Pow2(SizeAt(cs, k)) && cs + 1 <= SizeAt(cs, k) <= 12
  {
    hide NextSize, Pow2, Width;
    SizeFirst(cs);
    if k > 0 {
      WidthNext(cs + 1, Pow2(cs) + 1 + k);
      WidthHolds(cs + 1, Pow2(cs) + 1 + k);
    }
  }

  lemma {:induction false} WidthHolds(w: nat, n: nat)
    requires w <= 12 && n < LIMIT
    ensures n < Pow2(Width(w, n)) && w <= Width(w, n) <= 12
  {
    WidthIs(w, n);
    MorePowers();
    hide Width, Pow2;
  }

  /** The width after a group. */
  lemma {:induction false} SizeLast(cs: nat, k: nat)
    requires 2 <= cs <= 11 && Pow2(cs) + 1 + k <= LIMIT
    ensures cs + 1 <= SizeAt(cs, k) <= 12
  {
    WidthIs(cs + 1, Pow2(cs) + 1 + if k == 0 then 1 else k);
  }

  // ---------------------------------------------------------------- the stream

  /** Codes from the k-th on. */
  function CodesBits(cs: nat, codes: seq<nat>, k: nat): seq<bool>
    decreases |codes| - k
  {
    if k >= |codes| then [] else LsbBits(codes[k], SizeAt(cs, k)) + CodesBits(cs, codes, k + 1)
  }

  /** The phrases of a raster, in groups that each follow a clear code and leave the table room. */
  ghost predicate Fits(cs: nat, g: seq<seq<byte>>)
  {
    Phrases(Pow2(cs), g) && Pow2(cs) + 1 + |g| <= LIMIT
  }

  /** A raster; w is the width of its first code. */
  ghost function RasterBits(cs: nat, w: nat, gs: seq<seq<seq<byte>>>): seq<bool>
    requires forall g :: g in gs ==> Fits(cs, g)
    decreases |gs|
  {
    if gs == [] then LsbBits(Pow2(cs) + 1, w)
    else
      assert Fits(cs, gs[0]);
      var codes := Encode(Pow2(cs), gs[0]);
      LsbBits(Pow2(cs), w) + (CodesBits(cs, codes, 0) + RasterBits(cs, SizeAt(cs, |codes|), gs[1..]))
  }

  function Symbols(gs: seq<seq<seq<byte>>>): seq<byte>
  {
    if gs == [] then [] else Concat(gs[0]) + Symbols(gs[1..])
  }

  // ---------------------------------------------------------------- decoding it

  lemma {:induction false} EncodeTo(clear: nat, ps: seq<seq<byte>>, k: nat)
    requires Phrases(clear, ps) && k <= |ps|
    ensures Phrases(clear, ps[..k]) && Encode(clear, ps[..k]) == Encode(clear, ps)[..k]
    ensures k < |ps| ==> Phrases(clear, ps[..k + 1]) && InTableAt(clear, ps, k, Encode(clear, ps)[k])
    decreases |ps|
  {
    hide Table;
    if k == |ps| {
      assert ps[..k] == ps;
    } else {
      var n := |ps| - 1;
      assert Phrases(clear, ps[..n]);
      EncodeTo(clear, ps[..n], if k < n then k else n);
      assert ps[..n][..k] == ps[..k];
      if k < n {
        assert ps[..n][..k + 1] == ps[..k + 1];
        assert Encode(clear, ps)[..n] == Encode(clear, ps[..n]);
      } else {
        assert ps[..k + 1] == ps;
      }
    }
  }

  /** The code of phrase k. */
  ghost predicate InTableAt(clear: nat, ps: seq<seq<byte>>, k: nat, c: nat)
    requires k < |ps|
  {
    NonEmpty(ps[..k + 1]) && Stands(Table(clear, ps[..k + 1]), clear, c, ps[k])
  }

  /** The decoder after k phrases of a group. */
  ghost predicate After(clear: nat, ps: seq<seq<byte>>, k: nat, lz: Lz)
    requires k <= |ps|
  {
    Wf(lz) && lz.clear == clear && NonEmpty(ps[..k]) && lz.dict == Table(clear, ps[..k])
    && (k == 0 ==> lz.prev == None)
    && (k > 0 ==> lz.prev.Some? && lz.prev.value < |lz.dict| && lz.dict[lz.prev.value] == ps[k - 1])
  }

  lemma {:induction false} AfterNone(clear: nat, ps: seq<seq<byte>>)
    requires clear <= LIMIT
    ensures After(clear, ps, 0, Fresh(clear))
  {
    FreshWf(clear);
    hide Fresh;
    NoPhrases(clear);
    assert ps[..0] == [];
  }

  lemma {:induction false} AfterNext(clear: nat, ps: seq<seq<byte>>, k: nat, lz: Lz, c: nat)
    requires k < |ps| && After(clear, ps, k, lz) && InTableAt(clear, ps, k, c) && clear + 2 + k <= LIMIT
    ensures c < clear + 2 + k && !Special(clear, c) && Wf(lz) && lz.clear == clear
    ensures var r := Take(lz, c); r.Emit? && r.s == ps[k] && After(clear, ps, k + 1, r.lz) && |r.lz.dict| == clear + 2 + k
  {
    var qs := ps[..k + 1];
    assert qs[..k] == ps[..k] && qs[k] == ps[k];
    hide Table;
    TableSize(clear, qs);
    TableSize(clear, ps[..k]);
    OneMore(clear, qs, c, lz);
    TakeWf(lz, c);
  }

  lemma {:induction false} ConcatTo(ps: seq<seq<byte>>, k: nat)
    requires k < |ps|
    ensures Concat(ps[..k + 1]) == Concat(ps[..k]) + ps[k]
  {
    assert ps[..k + 1][..k] == ps[..k];
  }

  lemma {:induction false} SizePositive(cs: nat, k: nat)
    requires cs <= 11
    ensures SizeAt(cs, k) > 0
  {
    hide Width, Pow2;
    WidthIs(cs + 1, Pow2(cs) + 1 + if k == 0 then 1 else k);
  }

  /** The decoder stands in front of code k of a group. */
  ghost function Ahead(cs: nat, v: nat, n: nat, pos: nat, lz: Lz, k: nat, out: seq<byte>): Raster
    requires Wf(lz) && lz.clear == Pow2(cs) && 2 <= cs <= 11
  {
    hide Wf, SizeAt, Pow2;
    SizePositive(cs, k);
    DecodeCodes(cs, v, n, pos, Place(lz, SizeAt(cs, k), false), out)
  }

  lemma {:induction false} AheadIs(cs: nat, v: nat, n: nat, pos: nat, lz: Lz, k: nat, out: seq<byte>)
    requires Wf(lz) && lz.clear == Pow2(cs) && 2 <= cs <= 11 && SizeAt(cs, k) > 0
    ensures Ahead(cs, v, n, pos, lz, k, out) == DecodeCodes(cs, v, n, pos, Place(lz, SizeAt(cs, k), false), out)
  {
    hide DecodeCodes, SizeAt;
  }

  /** One code that is not special. */
  lemma {:induction false} OnePlain(cs: nat, v: nat, n: nat, pos: nat, p: Place, out: seq<byte>, c: nat)
    requires Wf(p.lz) && p.size > 0 && p.lz.clear == Pow2(cs) && cs <= 12 && !p.first
    requires pos + p.size <= n && c == Low(Shr(v, pos), p.size) && !Special(Pow2(cs), c) && Take(p.lz, c).Emit?
    ensures var e := Take(p.lz, c);
            Wf(e.lz) && e.lz.clear == Pow2(cs)
            && DecodeCodes(cs, v, n, pos, p, out) ==
               DecodeCodes(cs, v, n, pos + p.size, Place(e.lz, NextSize(p.size, |e.lz.dict|), false), out + e.s)
  {
    TakeWf(p.lz, c);
    hide Take, Wf, Low, Shr, Pow2, Fresh;
  }

  lemma {:induction false} AheadStep(cs: nat, v: nat, n: nat, pos: nat, lz: Lz, k: nat, out: seq<byte>, c: nat)
    requires Wf(lz) && lz.clear == Pow2(cs) && 2 <= cs <= 11 && Pow2(cs) + 2 + k <= LIMIT
    requires pos + SizeAt(cs, k) <= n && c == Low(Shr(v, pos), SizeAt(cs, k)) && !Special(Pow2(cs), c)
    requires Take(lz, c).Emit? && |Take(lz, c).lz.dict| == Pow2(cs) + 2 + k
    ensures Wf(Take(lz, c).lz) && Take(lz, c).lz.clear == Pow2(cs)
    ensures Ahead(cs, v, n, pos, lz, k, out) == Ahead(cs, v, n, pos + SizeAt(cs, k), Take(lz, c).lz, k + 1, out + Take(lz, c).s)
  {
    hide Take, Wf, SizeAt, NextSize, Low, Shr, Pow2, DecodeCodes, Ahead;
    SizeNext(cs, k);
    SizeLast(cs, k + 1);
    OnePlain(cs, v, n, pos, Place(lz, SizeAt(cs, k), false), out, c);
    AheadIs(cs, v, n, pos, lz, k, out);
    AheadIs(cs, v, n, pos + SizeAt(cs, k), Take(lz, c).lz, k + 1, out + Take(lz, c).s);
  }

  /** The codes of a group, from the k-th on. */
  lemma {:induction false} GroupBack(cs: nat, ps: seq<seq<byte>>, k: nat, lz: Lz, v: nat, n: nat, pos: nat, out: seq<byte>) returns (last: Lz)
    requires 2 <= cs <= 11 && Fits(cs, ps) && k <= |ps| && After(Pow2(cs), ps, k, lz)
    requires var bits := CodesBits(cs, Encode(Pow2(cs), ps), k); Begins(Shr(v, pos), bits) && pos + |bits| <= n
    ensures After(Pow2(cs), ps, |ps|, last)
    ensures Ahead(cs, v, n, pos, lz, k, out + Concat(ps[..k])) ==
            Ahead(cs, v, n, pos + |CodesBits(cs, Encode(Pow2(cs), ps), k)|, last, |ps|, out + Concat(ps))
    decreases |ps| - k
  {
    hide Phrases, After, Concat, SizeAt, Begins, Shr, Low, LsbBits, Pow2, Take, Wf, Ahead, Encode, InTableAt;
    if k == |ps| {
      assert ps[..k] == ps;
      return lz;
    }
    var clear, codes := Pow2(cs), Encode(Pow2(cs), ps);
    var c, w := codes[k], SizeAt(cs, k);
    EncodeTo(clear, ps, k);
    AfterNext(clear, ps, k, lz, c);
    SizeNext(cs, k);
    BeginsAppend(Shr(v, pos), LsbBits(c, w), CodesBits(cs, codes, k + 1));
    BeginsLsb(Shr(v, pos), c, w);
    ShrShr(v, pos, w);
    AheadStep(cs, v, n, pos, lz, k, out + Concat(ps[..k]), c);
    ConcatTo(ps, k);
    assert out + Concat(ps[..k]) + ps[k] == out + Concat(ps[..k + 1]);
    last := GroupBack(cs, ps, k + 1, Take(lz, c).lz, v, n, pos + w, out);
  }

  /** The special codes. */
  lemma {:induction false} SpecialBack(cs: nat, v: nat, n: nat, pos: nat, p: Place, out: seq<byte>)
    requires Wf(p.lz) && 2 <= cs <= 11 && p.size > 0 && p.lz.clear == Pow2(cs) && pos + p.size <= n
    ensures Wf(Fresh(Pow2(cs))) && Fresh(Pow2(cs)).clear == Pow2(cs)
    ensures Low(Shr(v, pos), p.size) == Pow2(cs) ==>
              DecodeCodes(cs, v, n, pos, p, out) == Ahead(cs, v, n, pos + p.size, Fresh(Pow2(cs)), 0, out)
    ensures Low(Shr(v, pos), p.size) == Pow2(cs) + 1 ==> DecodeCodes(cs, v, n, pos, p, out) == Done(out)
  {
    SizeFirst(cs);
    FreshWf(Pow2(cs));
    hide Low, Shr, Pow2, SizeAt, Fresh, NextSize, Take;
  }

  lemma {:induction false} RasterUnfold(cs: nat, w: nat, gs: seq<seq<seq<byte>>>)
    requires forall g :: g in gs ==> Fits(cs, g)
    ensures gs == [] ==> RasterBits(cs, w, gs) == LsbBits(Pow2(cs) + 1, w) && Symbols(gs) == []
    ensures gs != [] ==>
              Fits(cs, gs[0]) && Phrases(Pow2(cs), gs[0]) && |Encode(Pow2(cs), gs[0])| == |gs[0]| && (forall g :: g in gs[1..] ==> Fits(cs, g))
              && RasterBits(cs, w, gs) == LsbBits(Pow2(cs), w) + (CodesBits(cs, Encode(Pow2(cs), gs[0]), 0) + RasterBits(cs, SizeAt(cs, |gs[0]|), gs[1..]))
              && Symbols(gs) == Concat(gs[0]) + Symbols(gs[1..])
  {
    if gs != [] { assert Fits(cs, gs[0]); }
    hide Phrases, CodesBits, LsbBits, Pow2, SizeAt;
  }

  lemma {:induction false} SpecialsFit(cs: nat, w: nat)
    requires 2 <= cs <= 11 && cs + 1 <= w
    ensures Pow2(cs) + 1 < Pow2(w)
  {
    SizeFirst(cs);
    Pow2Mono(cs + 1, w);
  }

  /** Decoding the bits of a raster gives its symbols back, whatever came before. */
  lemma {:induction false} RasterBack(cs: nat, gs: seq<seq<seq<byte>>>, v: nat, n: nat, pos: nat, p: Place, out: seq<byte>)
    requires 2 <= cs <= 11 && (forall g :: g in gs ==> Fits(cs, g)) && Wf(p.lz) && p.lz.clear == Pow2(cs) && cs + 1 <= p.size <= 12
    requires var bits := RasterBits(cs, p.size, gs); Begins(Shr(v, pos), bits) && pos + |bits| <= n
    ensures DecodeCodes(cs, v, n, pos, p, out) == Done(out + Symbols(gs))
    decreases |gs|, 0
  {
    hide Fits, RasterBits, Symbols, Begins, Shr, Low, LsbBits, CodesBits, Pow2, SizeAt, Wf, DecodeCodes, Ahead, Phrases, Concat, After, Fresh;
    var w := p.size;
    RasterUnfold(cs, w, gs);
    SpecialsFit(cs, w);
    if gs == [] {
      BeginsLsb(Shr(v, pos), Pow2(cs) + 1, w);
      SpecialBack(cs, v, n, pos, p, out);
      assert out + [] == out;
    } else {
      var ps := gs[0];
      var head, mid := LsbBits(Pow2(cs), w), CodesBits(cs, Encode(Pow2(cs), ps), 0);
      var rest := RasterBits(cs, SizeAt(cs, |ps|), gs[1..]);
      BeginsAppend(Shr(v, pos), head, mid + rest);
      BeginsLsb(Shr(v, pos), Pow2(cs), w);
      SpecialBack(cs, v, n, pos, p, out);
      ShrShr(v, pos, w);
      BeginsAppend(Shr(v, pos + w), mid, rest);
      ShrShr(v, pos + w, |mid|);
      GroupWhole(cs, ps, v, n, pos + w, out, gs[1..]);
    }
  }

  lemma {:induction false} FitsIs(cs: nat, ps: seq<seq<byte>>)
    requires Fits(cs, ps)
    ensures Phrases(Pow2(cs), ps) && Pow2(cs) + 1 + |ps| <= LIMIT && ps[..0] == [] && Concat(ps[..0]) == []
  {
    assert ps[..0] == [];
  }

  /** A group and what follows it. */
  lemma {:induction false} GroupWhole(cs: nat, ps: seq<seq<byte>>, v: nat, n: nat, pos: nat, out: seq<byte>, gs: seq<seq<seq<byte>>>)
    requires 2 <= cs <= 11 && Fits(cs, ps) && Phrases(Pow2(cs), ps) && (forall g :: g in gs ==> Fits(cs, g))
    requires Wf(Fresh(Pow2(cs))) && Fresh(Pow2(cs)).clear == Pow2(cs)
    requires var mid := CodesBits(cs, Encode(Pow2(cs), ps), 0); var rest := RasterBits(cs, SizeAt(cs, |ps|), gs);
             Begins(Shr(v, pos), mid) && Begins(Shr(v, pos + |mid|), rest) && pos + |mid| + |rest| <= n
    ensures Ahead(cs, v, n, pos, Fresh(Pow2(cs)), 0, out) == Done(out + (Concat(ps) + Symbols(gs)))
    decreases |gs|, 1
  {
    hide Fits, RasterBits, Symbols, Begins, Shr, Low, LsbBits, CodesBits, Pow2, SizeAt, Wf, DecodeCodes, Ahead, Phrases, Concat, Fresh;
    FitsIs(cs, ps);
    AfterNone(Pow2(cs), ps);
    var last := GroupBack(cs, ps, 0, Fresh(Pow2(cs)), v, n, pos, out);
    assert out + [] == out;
    SizeLast(cs, |ps|);
    var mid := CodesBits(cs, Encode(Pow2(cs), ps), 0);
    AheadIs(cs, v, n, pos + |mid|, last, |ps|, out + Concat(ps));
    RasterBack(cs, gs, v, n, pos + |mid|, Place(last, SizeAt(cs, |ps|), false), out + Concat(ps));
    assert out + (Concat(ps) + Symbols(gs)) == (out + Concat(ps)) + Symbols(gs);
  }

  /** What the decoder of rasters makes of data that begin with an encoded raster. */
  lemma {:induction false} EncodedRaster(cs: nat, gs: seq<seq<seq<byte>>>, total: seq<byte>)
    requires 2 <= cs <= 11 && (forall g :: g in gs ==> Fits(cs, g))
    requires var bits := RasterBits(cs, cs + 1, gs); Begins(BytesVal(total), bits) && |bits| <= 8 * |total|
    ensures Wf(Fresh(Pow2(cs))) && Fresh(Pow2(cs)).clear == Pow2(cs)
    ensures DecodeCodes(cs, BytesVal(total), 8 * |total|, 0, Place(Fresh(Pow2(cs)), cs + 1, true), []) == Done(Symbols(gs))
  {
    hide Fits, RasterBits, Symbols, Begins, Low, BytesVal, DecodeCodes, Fresh, SizeAt, Width;
    assert Shr(BytesVal(total), 0) == BytesVal(total);
    hide Shr, Pow2;
    SizeFirst(cs);
    FreshWf(Pow2(cs));
    RasterBack(cs, gs, BytesVal(total), 8 * |total|, 0, Place(Fresh(Pow2(cs)), cs + 1, true), []);
    assert [] + Symbols(gs) == Symbols(gs);
  }

  // ---------------------------------------------------------------- all symbols can be encoded

  lemma {:induction false} TableBegins(clear: nat, ps: seq<seq<byte>>, i: nat)
    requires NonEmpty(ps) && i < clear <= LIMIT
    ensures |Table(clear, ps)| >= clear + 2 && Table(clear, ps)[i] == [i % 256]
    decreases |ps|
  {
    if |ps| > 1 { TableBegins(clear, ps[..|ps| - 1], i); }
  }

  /** Each symbol is a phrase. */
  function Singles(data: seq<byte>): (ps: seq<seq<byte>>)
    ensures |ps| == |data|
  {
    seq(|data|, i requires 0 <= i < |data| => [data[i]])
  }

  lemma {:induction false} SinglesOk(clear: nat, data: seq<byte>)
    requires clear <= LIMIT && forall i :: 0 <= i < |data| ==> data[i] < clear
    ensures Phrases(clear, Singles(data)) && Concat(Singles(data)) == data
    decreases |data|
  {
    hide Table;
    var ps := Singles(data);
    if data != [] {
      var n := |data| - 1;
      SinglesOk(clear, data[..n]);
      assert ps[..n] == Singles(data[..n]) && ps[n] == [data[n]];
      TableBegins(clear, ps, data[n]);
      assert Stands(Table(clear, ps), clear, data[n], ps[n]);
      assert data == data[..n] + [data[n]];
    }
  }

  /** Every list of symbols is the symbols of some groups. */
  lemma {:induction false} AnySymbols(cs: nat, data: seq<byte>) returns (gs: seq<seq<seq<byte>>>)
    requires 2 <= cs <= 11 && forall i :: 0 <= i < |data| ==> data[i] < Pow2(cs)
    ensures (forall g :: g in gs ==> Fits(cs, g)) && Symbols(gs) == data
    decreases |data|
  {
    hide Phrases, Pow2, Singles, Concat;
    SizeFirst(cs);
    Pow2Mono(cs, 11);
    MorePowers();
    if data == [] {
      gs := [];
    } else {
      var m := if |data| < 2047 then |data| else 2047;
      SinglesOk(Pow2(cs), data[..m]);
      forall i | 0 <= i < |data| - m ensures data[m..][i] < Pow2(cs) { assert data[m..][i] == data[m + i]; }
      var rest := AnySymbols(cs, data[m..]);
      gs := [Singles(data[..m])] + rest;
      assert data == data[..m] + data[m..] && gs[1..] == rest;
    }
  }

  /** When the table is full, the next code has to be a clear or end code: a raster that goes on with its full table, as the
      format allows, is taken for corrupt. */
  lemma {:induction false} NoDeferredClear(cs: nat, ps: seq<seq<byte>>, lz: Lz, v: nat, n: nat, pos: nat, out: seq<byte>)
    requires 2 <= cs <= 11 && After(Pow2(cs), ps, |ps|, lz) && Pow2(cs) + 1 + |ps| == LIMIT
    requires pos + SizeAt(cs, |ps|) <= n && !Special(Pow2(cs), Low(Shr(v, pos), SizeAt(cs, |ps|)))
    ensures Wf(lz) && lz.clear == Pow2(cs) && Ahead(cs, v, n, pos, lz, |ps|, out) == Corrupt(out)
  {
    TableSize(Pow2(cs), ps[..|ps|]);
    SizeFirst(cs);
    SizeLast(cs, |ps|);
    hide SizeAt, Low, Shr, Pow2, Table;
    AheadIs(cs, v, n, pos, lz, |ps|, out);
  }

  /** The bits of a clear code, of a group that fills the table, and of a code c after it. */
  ghost function FullBits(cs: nat, ps: seq<seq<byte>>, c: nat): seq<bool>
    requires Fits(cs, ps)
  {
    LsbBits(Pow2(cs), cs + 1) + (CodesBits(cs, Encode(Pow2(cs), ps), 0) + LsbBits(c, SizeAt(cs, |ps|)))
  }

  /** So a raster that goes on with its full table yields no more than the phrases that filled it. */
  lemma {:induction false} FullStops(cs: nat, ps: seq<seq<byte>>, c: nat, v: nat, n: nat)
    requires 2 <= cs <= 11 && Fits(cs, ps) && Pow2(cs) + 1 + |ps| == LIMIT && c < Pow2(SizeAt(cs, |ps|)) && !Special(Pow2(cs), c)
    requires Begins(v, FullBits(cs, ps, c)) && |FullBits(cs, ps, c)| <= n
    ensures Wf(Fresh(Pow2(cs))) && Fresh(Pow2(cs)).clear == Pow2(cs)
    ensures DecodeCodes(cs, v, n, 0, Place(Fresh(Pow2(cs)), cs + 1, true), []) == Corrupt(Concat(ps))
  {
    hide Fits, Begins, Shr, Low, LsbBits, CodesBits, Pow2, SizeAt, Wf, DecodeCodes, Ahead, Phrases, Concat, Fresh, Encode, After;
    FitsIs(cs, ps);
    SizeFirst(cs);
    FreshWf(Pow2(cs));
    var head, mid, tail := LsbBits(Pow2(cs), cs + 1), CodesBits(cs, Encode(Pow2(cs), ps), 0), LsbBits(c, SizeAt(cs, |ps|));
    BeginsAppend(v, head, mid + tail);
    BeginsAppend(Shr(v, cs + 1), mid, tail);
    ShrShr(v, cs + 1, |mid|);
    LowNone(v);
    BeginsLsb(v, Pow2(cs), cs + 1);
    BeginsLsb(Shr(v, cs + 1 + |mid|), c, SizeAt(cs, |ps|));
    SpecialBack(cs, v, n, 0, Place(Fresh(Pow2(cs)), cs + 1, true), []);
    AfterNone(Pow2(cs), ps);
    var last := GroupBack(cs, ps, 0, Fresh(Pow2(cs)), v, n, cs + 1, []);
    assert [] + Concat(ps) == Concat(ps) && [] + Concat(ps[..0]) == [];
    NoDeferredClear(cs, ps, last, v, n, cs + 1 + |mid|, Concat(ps));
  }

  /** Black pixels one by one fill the table, and one more is refused. */
  lemma {:induction false} ManyBlack() returns (total: seq<byte>)
    ensures Wf(Fresh(4)) && Fresh(4).clear == Pow2(2)
    ensures DecodeCodes(2, BytesVal(total), 8 * |total|, 0, Place(Fresh(4), 3, true), []) == Corrupt(seq(4091, _ => 0))
    ensures Fits(2, Singles(seq(4091, _ => 0))) && total == ToBytes(BitsVal(FullBits(2, Singles(seq(4091, _ => 0)), 0)), |total|)
  {
    hide Phrases, SizeAt, Wf, DecodeCodes, Fresh, BitsVal, ToBytes, Begins, BytesVal, FullBits, Concat;
    Pow2Values();
    FreshWf(4);
    var data: seq<byte> := seq(4091, _ => 0);
    SinglesOk(4, data);
    var bits := FullBits(2, Singles(data), 0);
    total := ToBytes(BitsVal(bits), |bits|);
    PackedBegins(bits, |bits|);
    FullStops(2, Singles(data), 0, BytesVal(total), 8 * |total|);
  }

  // ---------------------------------------------------------------- rasters without a clear code

  /** Output is only appended. */
  lemma {:induction false} OutGrows(cs: nat, v: nat, n: nat, pos: nat, p: Place, out: seq<byte>)
    requires Wf(p.lz) && p.size > 0 && p.lz.clear == Pow2(cs) && cs <= 12
    ensures out <= DecodeCodes(cs, v, n, pos, p, out).out
    decreases if pos <= n then n - pos else 0
  {
    hide Low, Shr, Pow2, Take, NextSize, Fresh, Wf;
    Pow2Mono(cs, 12);
    MorePowers();
    if pos + p.size <= n {
      var c := Low(Shr(v, pos), p.size);
      if c == p.lz.clear {
        FreshWf(c);
        OutGrows(cs, v, n, pos + p.size, Place(Fresh(c), cs + 1, false), out);
      } else if c != p.lz.clear + 1 && !p.first && Take(p.lz, c).Emit? {
        TakeWf(p.lz, c);
        var e := Take(p.lz, c);
        NextPositive(p.size, |e.lz.dict|);
        OutGrows(cs, v, n, pos + p.size, Place(e.lz, NextSize(p.size, |e.lz.dict|), false), out + e.s);
      }
    }
  }

  /** Asking for a clear code first makes a difference exactly if the first code is that of a symbol: then nothing is decoded. */
  lemma {:induction false} ClearFirst(cs: nat, v: nat, n: nat, pos: nat, out: seq<byte>)
    requires cs <= 11
    ensures Wf(Fresh(Pow2(cs))) && Fresh(Pow2(cs)).clear == Pow2(cs)
    ensures var r, r2 := DecodeCodes(cs, v, n, pos, Place(Fresh(Pow2(cs)), cs + 1, true), out),
                         DecodeCodes(cs, v, n, pos, Place(Fresh(Pow2(cs)), cs + 1, false), out);
            (r != r2 <==> pos + cs + 1 <= n && Low(Shr(v, pos), cs + 1) < Pow2(cs)) && (r != r2 ==> r == Corrupt(out))
  {
    Pow2Mono(cs, 12);
    MorePowers();
    FreshWf(Pow2(cs));
    var p := Place(Fresh(Pow2(cs)), cs + 1, false);
    var c := Low(Shr(v, pos), cs + 1);
    if pos + cs + 1 <= n && !Special(Pow2(cs), c) {
      FirstPlain(cs, v, n, pos, p, out, c);
    }
    hide Low, Shr, Pow2, Take, NextSize, Fresh, Wf;
  }

  /** The first code when none has to be clear. */
  lemma {:induction false} FirstPlain(cs: nat, v: nat, n: nat, pos: nat, p: Place, out: seq<byte>, c: nat)
    requires cs <= 11 && p == Place(Fresh(Pow2(cs)), cs + 1, false) && Wf(p.lz) && p.lz.clear == Pow2(cs)
    requires pos + cs + 1 <= n && c == Low(Shr(v, pos), cs + 1) && !Special(Pow2(cs), c)
    ensures c < Pow2(cs) ==> DecodeCodes(cs, v, n, pos, p, out) != Corrupt(out)
    ensures c >= Pow2(cs) ==> DecodeCodes(cs, v, n, pos, p, out) == Corrupt(out)
  {
    hide Low, Shr, Pow2, NextSize, Fresh, Wf, Take;
    FirstTake(cs, c);
    if c < Pow2(cs) {
      hide DecodeCodes;
      OnePlain(cs, v, n, pos, p, out, c);
      var e := Take(p.lz, c);
      NextPositive(p.size, |e.lz.dict|);
      OutGrows(cs, v, n, pos + p.size, Place(e.lz, NextSize(p.size, |e.lz.dict|), false), out + e.s);
    }
  }

  /** A fresh table has strings for the codes of single symbols only. */
  lemma {:induction false} FirstTake(cs: nat, c: nat)
    requires cs <= 11 && Wf(Fresh(Pow2(cs))) && !Special(Pow2(cs), c)
    ensures var e := Take(Fresh(Pow2(cs)), c);
            if c < Pow2(cs) then e.Emit? && e.s != [] && Wf(e.lz) && e.lz.clear == Pow2(cs) else e.Bad?
  {
    hide Pow2;
    var z := Pow2(cs);
    if c < z { TakeWf(Fresh(z), c); }
  }

  /** The bits of a raster but for its first clear code. */
  ghost function ClearlessBits(cs: nat, gs: seq<seq<seq<byte>>>): seq<bool>
    requires gs != [] && forall g :: g in gs ==> Fits(cs, g)
  {
    assert Fits(cs, gs[0]);
    CodesBits(cs, Encode(Pow2(cs), gs[0]), 0) + RasterBits(cs, SizeAt(cs, |gs[0]|), gs[1..])
  }

  /** Data that begin with them yield the symbols exactly if no code stands before the next clear or end code; otherwise nothing. */
  lemma {:induction false} ClearlessRaster(cs: nat, gs: seq<seq<seq<byte>>>, total: seq<byte>)
    requires 2 <= cs <= 11 && gs != [] && (forall g :: g in gs ==> Fits(cs, g))
    requires Begins(BytesVal(total), ClearlessBits(cs, gs)) && |ClearlessBits(cs, gs)| <= 8 * |total|
    ensures Wf(Fresh(Pow2(cs))) && Fresh(Pow2(cs)).clear == Pow2(cs)
    ensures DecodeCodes(cs, BytesVal(total), 8 * |total|, 0, Place(Fresh(Pow2(cs)), cs + 1, true), []) ==
            if gs[0] == [] then Done(Symbols(gs)) else Corrupt([])
    ensures gs[0] != [] ==> Symbols(gs) != []
  {
    hide Fits, RasterBits, Symbols, Begins, Low, BytesVal, DecodeCodes, Fresh, SizeAt, Width, CodesBits, Phrases, Concat, Encode, Pow2, Shr, LsbBits;
    RasterUnfold(cs, cs + 1, gs);
    SizeFirst(cs);
    FreshWf(Pow2(cs));
    var codes := Encode(Pow2(cs), gs[0]);
    if gs[0] == [] {
      NoCodeBits(cs, codes);
      assert [] + RasterBits(cs, cs + 1, gs[1..]) == RasterBits(cs, cs + 1, gs[1..]);
      EncodedRaster(cs, gs[1..], total);
      NoneThere();
      assert [] + Symbols(gs[1..]) == Symbols(gs[1..]);
    } else {
      FirstOf(cs, gs[0]);
      var v := BytesVal(total);
      FirstBits(cs, codes, v, RasterBits(cs, SizeAt(cs, |gs[0]|), gs[1..]));
      ClearFirst(cs, v, 8 * |total|, 0, []);
      ConcatSome(Pow2(cs), gs[0]);
    }
  }

  lemma {:induction false} NoneThere()
    ensures Concat([]) == []
  {
  }

  lemma {:induction false} NoCodeBits(cs: nat, codes: seq<nat>)
    ensures codes == [] ==> CodesBits(cs, codes, 0) == []
  {
  }

  /** The first code of a group is that of a symbol. */
  lemma {:induction false} FirstOf(cs: nat, ps: seq<seq<byte>>)
    requires 2 <= cs <= 11 && Fits(cs, ps) && ps != []
    ensures Phrases(Pow2(cs), ps) && Encode(Pow2(cs), ps)[0] < Pow2(cs)
  {
    EncodeTo(Pow2(cs), ps, 0);
    assert ps[..1] == [ps[0]];
    Pow2Mono(cs, 12);
    MorePowers();
    FreshWf(Pow2(cs));
    hide Encode, Pow2, Phrases;
  }

  lemma {:induction false} FirstBits(cs: nat, codes: seq<nat>, v: nat, rest: seq<bool>)
    requires 2 <= cs <= 11 && codes != [] && codes[0] < Pow2(cs) && Begins(v, CodesBits(cs, codes, 0) + rest)
    ensures Low(Shr(v, 0), cs + 1) == codes[0] && cs + 1 <= |CodesBits(cs, codes, 0) + rest|
  {
    SizeFirst(cs);
    LowNone(v);
    hide Begins, Low, Shr, Pow2, SizeAt, LsbBits;
    BeginsAppend(v, CodesBits(cs, codes, 0), rest);
    BeginsAppend(v, LsbBits(codes[0], cs + 1), CodesBits(cs, codes, 1));
    BeginsLsb(v, codes[0], cs + 1);
  }

  lemma {:induction false} ConcatSome(clear: nat, ps: seq<seq<byte>>)
    requires Phrases(clear, ps) && ps != []
    ensures Concat(ps) != []
  {
    hide Table;
  }

  lemma {:induction false} PixelBits()
    ensures BytesVal([41]) == 41 && BytesVal([76, 1]) == 332
    ensures Low(Shr(41, 0), 3) == 1 && Low(Shr(332, 0), 3) == 4 && Low(Shr(332, 3), 3) == 1 && Low(Shr(332, 6), 3) == 5
  {
    assert BytesVal([76, 1][1..]) == 1;
  }

  /** One pixel of colour 1, and the end: nothing is decoded; with a clear code in front, the pixel is. */
  lemma {:induction false} ClearlessPixel()
    ensures Wf(Fresh(4)) && Fresh(4).clear == Pow2(2)
    ensures DecodeCodes(2, BytesVal([41]), 8, 0, Place(Fresh(4), 3, true), []) == Corrupt([])
    ensures DecodeCodes(2, BytesVal([76, 1]), 16, 0, Place(Fresh(4), 3, true), []) == Done([1])
  {
    hide Low, Shr, Fresh, NextSize, DecodeCodes, BytesVal, Wf, Ahead, SizeAt;
    FreshWf(4);
    Pow2Values();
    PixelBits();
    ClearFirst(2, 41, 8, 0, []);
    SpecialBack(2, 332, 16, 0, Place(Fresh(4), 3, true), []);
    SizeFirst(2);
    AheadIs(2, 332, 16, 3, Fresh(4), 0, []);
    OnePixel(3, 1);
    OnePlain(2, 332, 16, 3, Place(Fresh(4), 3, false), [], 1);
    SpecialBack(2, 332, 16, 6, Place(Take(Fresh(4), 1).lz, 3, false), [] + Take(Fresh(4), 1).s);
  }

  lemma {:induction false} OnePixel(size: nat, c: nat)
    requires size == 3 && c < 4
    ensures Wf(Fresh(4)) && !Special(4, c) && Take(Fresh(4), c).Emit? && Take(Fresh(4), c).s == [c] && NextSize(3, |Take(Fresh(4), c).lz.dict|) == 3
  {
    FreshWf(4);
    hide Fresh;
    assert Low(6, 3) == 6;
  }

  /** The code table after n of the codes 1, 6, 2 and 7 that follow a clear code; 6 stands for a string that it defines itself. */
  ghost function SampleTable(n: nat): Lz
  {
    var dict := [[0], [1], [2], [3], [], []];
    if n == 0 then Lz(4, dict, None)
    else if n == 1 then Lz(4, dict, Some(1))
    else if n == 2 then Lz(4, dict + [[1, 1]], Some(6))
    else if n == 3 then Lz(4, dict + [[1, 1], [1, 1, 2]], Some(2))
    else Lz(4, dict + [[1, 1], [1, 1, 2], [2, 1]], Some(7))
  }

  lemma {:induction false} SampleFresh()
    ensures Fresh(4) == SampleTable(0) && Wf(SampleTable(0))
  {
    assert Fresh(4).dict == SampleTable(0).dict;
  }

  lemma {:induction false} SampleTakes()
    ensures Wf(SampleTable(0)) && Take(SampleTable(0), 1) == Emit(SampleTable(1), [1])
    ensures Wf(SampleTable(1)) && Take(SampleTable(1), 6) == Emit(SampleTable(2), [1, 1])
    ensures Wf(SampleTable(2)) && Take(SampleTable(2), 2) == Emit(SampleTable(3), [2])
    ensures Wf(SampleTable(3)) && Take(SampleTable(3), 7) == Emit(SampleTable(4), [1, 1, 2])
    ensures forall n: nat :: n <= 4 ==> SampleTable(n).clear == 4
  {
    var d1, d2, d3, d4 := SampleTable(1).dict, SampleTable(2).dict, SampleTable(3).dict, SampleTable(4).dict;
    assert [1] + [1] == [1, 1] && [1, 1] + [2] == [1, 1, 2] && [2] + [1] == [2, 1];
    assert d2 == d1 + [[1, 1]] && d3 == d2 + [[1, 1, 2]] && d4 == d3 + [[2, 1]];
  }

  lemma {:induction false} SampleSizes()
    ensures NextSize(3, |SampleTable(1).dict|) == 3 && NextSize(3, |SampleTable(2).dict|) == 3
    ensures NextSize(3, |SampleTable(3).dict|) == 4 && NextSize(4, |SampleTable(4).dict|) == 4
  {
    SmallLows();
    hide Low;
  }

  lemma {:induction false} SmallLows()
    ensures Low(6, 3) == 6 && Low(7, 3) == 7 && Low(8, 3) == 0 && Low(9, 4) == 9
  {
  }

  lemma {:induction false} SampleCodes()
    ensures BytesVal([140, 117, 5]) == 357772
    ensures Low(Shr(357772, 0), 3) == 4 && Low(Shr(357772, 3), 3) == 1 && Low(Shr(357772, 6), 3) == 6 && Low(Shr(357772, 9), 3) == 2 && Low(Shr(357772, 12), 4) == 7 && Low(Shr(357772, 16), 4) == 5
  {
    assert [140, 117, 5][1..] == [117, 5] && [117, 5][1..] == [5] && [5][1..] == [];
    assert BytesVal([5]) == 5;
    assert BytesVal([117, 5]) == 1397;
    var v: nat := 357772;
    LowNone(v);
    Pow2Values();
    hide Low, Shr, Pow2, BytesVal;
    BitsAt(v, 0, 3, 357772, 44721, 4);
    BitsAt(v, 3, 3, 44721, 5590, 1);
    BitsAt(v, 6, 3, 5590, 698, 6);
    BitsAt(v, 9, 3, 698, 87, 2);
    BitsAt(v, 12, 4, 87, 5, 7);
    BitsAt(v, 16, 4, 5, 0, 5);
  }

  /** Three bytes: a clear code, four codes, of which the last is a bit wider, and the end code. */
  lemma {:induction false} SamplePixels()
    ensures Wf(Fresh(4)) && Fresh(4).clear == Pow2(2)
    ensures DecodeCodes(2, BytesVal([140, 117, 5]), 24, 0, Place(Fresh(4), 3, true), []) == Done([1, 1, 1, 2, 1, 1, 2])
  {
    Pow2Values();
    SampleFresh();
    SampleTakes();
    SampleSizes();
    SampleCodes();
    hide Low, Shr, Fresh, NextSize, DecodeCodes, BytesVal, Wf, Ahead, SizeAt, Take, SampleTable, Pow2;
    FreshWf(4);
    SpecialBack(2, 357772, 24, 0, Place(Fresh(4), 3, true), []);
    SizeFirst(2);
    AheadIs(2, 357772, 24, 3, Fresh(4), 0, []);
    OnePlain(2, 357772, 24, 3, Place(SampleTable(0), 3, false), [], 1);
    OnePlain(2, 357772, 24, 6, Place(SampleTable(1), 3, false), [1], 6);
    OnePlain(2, 357772, 24, 9, Place(SampleTable(2), 3, false), [1] + [1, 1], 2);
    OnePlain(2, 357772, 24, 12, Place(SampleTable(3), 4, false), [1] + [1, 1] + [2], 7);
    SpecialBack(2, 357772, 24, 16, Place(SampleTable(4), 4, false), [1] + [1, 1] + [2] + [1, 1, 2]);
    assert [1] + [1, 1] + [2] + [1, 1, 2] == [1, 1, 1, 2, 1, 1, 2] && [] + [1] == [1];
  }
}
