/** What the inflate machine computes, in terms of the code lengths alone: if its tables decode canonically, the machine does
    what section 3.2.3 of RFC 1951 says, on every input, as long as there are the bits that its lookups ask for. */
module InflateTokens {
  import opened Bits
  import opened BitStream
  import opened Canonical
  import opened HuftSpec
  import opened HuftBuild
  import opened Deflate
  import opened InflateSpec

  /** How many bits of the stream b a lookup of the code that b begins with asks for, when the first table was
      built for at most m index bits. */
  ghost function Look(lens: seq<nat>, m: nat, b: nat): nat
  {
    ReachOf(CfgOf(lens, |lens|, [], [], m), Rev(b, 16), 0)
  }

  /** The walk r over the stream b ends in the entry for the literal/length code that b begins with. */
  ghost predicate LitEntry(lit: seq<nat>, r: WalkResult, b: nat)
  {
    r.Leaf? && r.entry.bits >= 1 && r.widest <= 9 && r.reach == Look(lit, 9, b) <= MAXBITS
    && match Decode(lit, b)
       case None => r.used == Longest(lit) <= MAXBITS && r.entry.exop == INVALID
       case Some(i) =>
         i < |lit| <= 288 && r.used == lit[i]
         && if i < 256 then r.entry.exop == 0 && r.entry.base == i
            else if i == 256 then r.entry.exop == 96
            else if i < 286 then r.entry.exop == 80 + LExtra(i - 257) && r.entry.base == LBase(i - 257)
            else r.entry.exop == INVALID
  }

  ghost predicate DistEntry(dist: seq<nat>, r: WalkResult, b: nat)
  {
    r.Leaf? && r.entry.bits >= 1 && r.widest <= 9 && r.reach == Look(dist, 6, b) <= MAXBITS
    && match Decode(dist, b)
       case None => r.used == Longest(dist) <= MAXBITS && r.entry.exop == INVALID
       case Some(i) =>
         i < |dist| <= 32 && r.used == dist[i]
         && if i < 30 then r.entry.exop == 80 + DExtra(i) && r.entry.base == DBase(i) else r.entry.exop == INVALID
  }

  ghost predicate NoLengths(lit: seq<nat>)
  {
    forall i :: 257 <= i < |lit| ==> lit[i] == 0
  }

  ghost predicate DistTables(t: Tables, dist: seq<nat>)
  {
    1 <= t.dbits <= 9 && forall b: nat :: DistEntry(dist, Walk(t.h, t.dtree, t.dbits, b), b)
  }

  /** The tables decode the canonical codes of two lists of lengths; the distance tables may be missing if no
      length has a code. */
  ghost predicate Agree(t: Tables, lit: seq<nat>, dist: seq<nat>)
  {
    |lit| <= 288 && |dist| <= 32 && ValidLens(lit) && ValidLens(dist)
    && 1 <= t.lbits <= 9 && (forall b: nat :: LitEntry(lit, Walk(t.h, t.ltree, t.lbits, b), b))
    && (NoLengths(lit) || DistTables(t, dist))
  }

  /** The bounds that the entries of the two kinds keep. */
  lemma {:induction false} ExtraRange(i: nat)
    ensures i < 29 ==> LExtra(i) <= 5 && IsExtra(Huft(80 + LExtra(i), 0, 0)) && (80 + LExtra(i)) % 16 == LExtra(i)
    ensures i < 29 ==> IsEnd(Huft(80 + LExtra(i), 0, 0)) && 3 <= LBase(i) && LBase(i) + Pow2(LExtra(i)) <= 259
    ensures i < 30 ==> DExtra(i) <= 13 && IsExtra(Huft(80 + DExtra(i), 0, 0)) && (80 + DExtra(i)) % 16 == DExtra(i)
    ensures i < 30 ==> IsEnd(Huft(80 + DExtra(i), 0, 0)) && 1 <= DBase(i) && DBase(i) + Pow2(DExtra(i)) <= WSIZE + 1
  {
    hide LBase, LExtra, DBase, DExtra, Pow2, IsExtra, IsEnd;
    if i < 29 {
      LengthRange(i);
      ExtraKind(LExtra(i));
    }
    if i < 30 {
      DistanceRange(i);
      ExtraKind(DExtra(i));
    }
  }

  lemma {:induction false} ExtraKind(x: nat)
    requires x <= 13
    ensures IsExtra(Huft(80 + x, 0, 0)) && IsEnd(Huft(80 + x, 0, 0)) && (80 + x) % 16 == x
  {
  }

  lemma {:induction false} LengthRange(i: nat)
    requires i < 29
    ensures LExtra(i) <= 5 && 3 <= LBase(i) && LBase(i) + Pow2(LExtra(i)) <= 259
  {
    Pow2Small();
    hide Pow2;
  }

  lemma {:induction false} DistanceRange(i: nat)
    requires i < 30
    ensures DExtra(i) <= 13 && 1 <= DBase(i) && DBase(i) + Pow2(DExtra(i)) <= WSIZE + 1
  {
    Pow2Small();
    hide Pow2;
  }

  lemma {:induction false} Pow2Small()
    ensures Pow2(0) == 1 && Pow2(1) == 2 && Pow2(2) == 4 && Pow2(3) == 8 && Pow2(4) == 16 && Pow2(5) == 32 && Pow2(6) == 64
    ensures Pow2(7) == 128 && Pow2(8) == 256 && Pow2(9) == 512 && Pow2(10) == 1024 && Pow2(11) == 2048 && Pow2(12) == 4096
    ensures Pow2(13) == 8192
  {
  }

  lemma {:induction false} KindOf(e: Huft)
    ensures e.exop == INVALID ==> !IsExtra(e) && !IsStop(e) && IsEnd(e)
    ensures e.exop == 96 ==> !IsExtra(e) && IsStop(e) && IsEnd(e)
    ensures e.exop == 0 ==> !IsExtra(e) && !IsStop(e) && !IsEnd(e)
  {
  }

  lemma {:induction false} LitEntryOk(t: Tables, lit: seq<nat>, r: WalkResult, b: nat)
    requires ValidLens(lit) && LitEntry(lit, r, b) && (NoLengths(lit) || DistsOk(t))
    ensures LitLeaf(t, r)
  {
    hide LExtra, LBase, DistsOk, IsExtra, IsStop, IsEnd, Pow2, NoLengths, Look, Longest, Decode;
    KindOf(r.entry);
    match Decode(lit, b)
    case None =>
    case Some(i) =>
      if 257 <= i < 286 {
        ExtraRange(i - 257);
        LengthUsed(lit, i, b);
        assert IsExtra(r.entry) by { SameExop(r.entry, 80 + LExtra(i - 257)); }
      }
  }

  lemma {:induction false} SameExop(e: Huft, x: nat)
    requires e.exop == x
    ensures IsExtra(e) == IsExtra(Huft(x, 0, 0)) && IsEnd(e) == IsEnd(Huft(x, 0, 0)) && IsStop(e) == IsStop(Huft(x, 0, 0))
  {
  }

  lemma {:induction false} LengthUsed(lit: seq<nat>, i: nat, b: nat)
    requires Decode(lit, b) == Some(i) && i >= 257
    ensures !NoLengths(lit)
  {
    assert Reads(lit, i, b);
  }

  lemma {:induction false} DistEntryOk(dist: seq<nat>, r: WalkResult, b: nat)
    requires ValidLens(dist) && DistEntry(dist, r, b)
    ensures DistLeaf(r)
  {
    hide DExtra, DBase, IsExtra, IsStop, IsEnd, Pow2, Look, Longest, Decode;
    KindOf(r.entry);
    match Decode(dist, b)
    case None =>
    case Some(i) =>
      if i < 30 {
        ExtraRange(i);
        SameExop(r.entry, 80 + DExtra(i));
      }
  }

  /** Tables that decode canonically are tables the machine can follow. */
  lemma {:induction false} AgreeOk(t: Tables, lit: seq<nat>, dist: seq<nat>)
    requires Agree(t, lit, dist)
    ensures TablesOk(t) && (!NoLengths(lit) ==> DistsOk(t))
  {
    hide LitEntry, DistEntry, Walk, LitLeaf, DistLeaf, NoLengths, ValidLens;
    if !NoLengths(lit) {
      forall b: nat ensures DistLeaf(Walk(t.h, t.dtree, t.dbits, b)) {
        DistEntryOk(dist, Walk(t.h, t.dtree, t.dbits, b), b);
      }
    }
    forall b: nat ensures LitLeaf(t, Walk(t.h, t.ltree, t.lbits, b)) {
      LitEntryOk(t, lit, Walk(t.h, t.ltree, t.lbits, b), b);
    }
  }

  // ---------------------------------------------------------------- walks

  /** The machine rests for want of input, having produced h and no more. */
  ghost predicate Dry(g: S, h: seq<byte>)
  {
    !Final(g.c) && g.hist == h
  }

  /** A literal/length code is decoded if there are the bits its walk looks at. */
  lemma {:induction false} WalkLen(t: Tables, v: nat, size: nat, s: S)
    requires s.c.AtLen? && var r := Walk(t.h, s.c.tree, s.c.need, Shr(v, s.pos)); r.Leaf? && r.entry.bits >= 1 && r.widest <= 9
    ensures var r := Walk(t.h, s.c.tree, s.c.need, Shr(v, s.pos)); var g := Run(t, v, size, s);
            if s.pos + r.reach <= 8 * size then g == Run(t, v, size, S(AfterLen(0, r.entry), s.pos + r.used, s.hist)) else Dry(g, s.hist)
    decreases |t.h| - s.c.tree
  {
    hide Walk, Low, Shr, IsLink, Run, IsExtra, IsEnd, IsStop;
    var r := Walk(t.h, s.c.tree, s.c.need, Shr(v, s.pos));
    WalkStep(t.h, s.c.tree, s.c.need, Shr(v, s.pos));
    var a := s.c.tree + Low(Shr(v, s.pos), s.c.need);
    EntryKinds(t.h[a]);
    ShrShr(v, s.pos, t.h[a].bits);
    if Moves(size, s) {
      RunNext(t, v, size, s);
      if IsLink(t.h[a]) {
        LinkForward(t.h, s.c.tree, s.c.need, Shr(v, s.pos));
        WalkLen(t, v, size, Next(t, v, s));
      }
    } else {
      RunRests(t, v, size, s);
    }
  }

  lemma {:induction false} LinkForward(h: seq<Huft>, t: nat, need: nat, b: nat)
    requires Walk(h, t, need, b).Leaf?
    ensures var a := t + Low(b, need); a < |h| && (IsLink(h[a]) ==> h[a].base > 0)
  {
    hide IsLink;
  }

  /** A walk uses at least one bit. */
  lemma {:induction false} WalkUses(h: seq<Huft>, t: nat, need: nat, b: nat)
    requires var r := Walk(h, t, need, b); r.Leaf? && r.entry.bits >= 1
    ensures var r := Walk(h, t, need, b); r.used >= 1 && need <= r.widest
  {
    hide IsLink, Low, Shr;
    WalkStep(h, t, need, b);
  }

  lemma {:induction false} WalkDist(t: Tables, v: nat, size: nat, s: S)
    requires s.c.AtDist? && DistLeaf(Walk(t.h, s.c.tree, s.c.need, Shr(v, s.pos)))
    ensures var r := Walk(t.h, s.c.tree, s.c.need, Shr(v, s.pos)); var g := Run(t, v, size, s);
            if s.pos + r.reach <= 8 * size then g == Run(t, v, size, S(AfterDist(s.c.len, 0, r.entry), s.pos + r.used, s.hist)) else Dry(g, s.hist)
    decreases |t.h| - s.c.tree
  {
    hide Walk, Low, Shr, IsLink, Run, IsExtra, IsEnd, IsStop, Pow2;
    var r := Walk(t.h, s.c.tree, s.c.need, Shr(v, s.pos));
    WalkStep(t.h, s.c.tree, s.c.need, Shr(v, s.pos));
    var a := s.c.tree + Low(Shr(v, s.pos), s.c.need);
    EntryKinds(t.h[a]);
    ShrShr(v, s.pos, t.h[a].bits);
    if Moves(size, s) {
      RunNext(t, v, size, s);
      if IsLink(t.h[a]) {
        LinkForward(t.h, s.c.tree, s.c.need, Shr(v, s.pos));
        WalkDist(t, v, size, Next(t, v, s));
      }
    } else {
      RunRests(t, v, size, s);
    }
  }

  /** The machine comes past the links to the leaf. */
  lemma {:induction false} LeadsLen(t: Tables, v: nat, s: S)
    requires s.c.AtLen? && var r := Walk(t.h, s.c.tree, s.c.need, Shr(v, s.pos)); r.Leaf? && r.entry.bits >= 1
    ensures var r := Walk(t.h, s.c.tree, s.c.need, Shr(v, s.pos)); Leads(t, v, s, S(AfterLen(0, r.entry), s.pos + r.used, s.hist))
    decreases |t.h| - s.c.tree
  {
    hide Walk, Low, Shr, IsLink, Leads, IsExtra, IsEnd, IsStop;
    var r := Walk(t.h, s.c.tree, s.c.need, Shr(v, s.pos));
    WalkStep(t.h, s.c.tree, s.c.need, Shr(v, s.pos));
    var a := s.c.tree + Low(Shr(v, s.pos), s.c.need);
    EntryKinds(t.h[a]);
    ShrShr(v, s.pos, t.h[a].bits);
    LeadsNext(t, v, s);
    if IsLink(t.h[a]) {
      LinkForward(t.h, s.c.tree, s.c.need, Shr(v, s.pos));
      var s2 := Next(t, v, s);
      LeadsLen(t, v, s2);
      LeadsOn(t, v, s, s2, S(AfterLen(0, r.entry), s.pos + r.used, s.hist));
    }
  }

  lemma {:induction false} LeadsDist(t: Tables, v: nat, s: S)
    requires s.c.AtDist? && DistLeaf(Walk(t.h, s.c.tree, s.c.need, Shr(v, s.pos)))
    ensures var r := Walk(t.h, s.c.tree, s.c.need, Shr(v, s.pos)); Leads(t, v, s, S(AfterDist(s.c.len, 0, r.entry), s.pos + r.used, s.hist))
    decreases |t.h| - s.c.tree
  {
    hide Walk, Low, Shr, IsLink, Leads, IsExtra, IsEnd, IsStop, Pow2;
    var r := Walk(t.h, s.c.tree, s.c.need, Shr(v, s.pos));
    WalkStep(t.h, s.c.tree, s.c.need, Shr(v, s.pos));
    var a := s.c.tree + Low(Shr(v, s.pos), s.c.need);
    EntryKinds(t.h[a]);
    ShrShr(v, s.pos, t.h[a].bits);
    LeadsNext(t, v, s);
    if IsLink(t.h[a]) {
      LinkForward(t.h, s.c.tree, s.c.need, Shr(v, s.pos));
      var s2 := Next(t, v, s);
      LeadsDist(t, v, s2);
      LeadsOn(t, v, s, s2, S(AfterDist(s.c.len, 0, r.entry), s.pos + r.used, s.hist));
    }
  }

  // ---------------------------------------------------------------- tokens

  /** The next token; unlike the other decoder, this one takes the unused symbols 286, 287, 30 and 31 as errors. */
  ghost function InfTok(lit: seq<nat>, dist: seq<nat>, v: nat): Step
    requires |lit| <= 288 && |dist| <= 32
  {
    match ReadTok(lit, dist, v)
    case Repeat(u, len, d) => if len == 0 || d == 0 then NoCode else Repeat(u, len, d)
    case tok => tok
  }

  /** The bits that must be there for the distance code at the beginning of w to be decoded. */
  ghost function WantedDist(dist: seq<nat>, w: nat): nat
    requires |dist| <= 32
  {
    match Decode(dist, w)
    case None => Look(dist, 6, w)
    case Some(k) => if k >= 30 then Look(dist, 6, w) else Max(Look(dist, 6, w), dist[k] + DExtra(k))
  }

  /** The bits that must be there for the token at the beginning of w to be decoded. */
  ghost function Wanted(lit: seq<nat>, dist: seq<nat>, w: nat): nat
    requires |lit| <= 288 && |dist| <= 32
  {
    match Decode(lit, w)
    case None => Look(lit, 9, w)
    case Some(z) =>
      if z <= 256 || z >= 286 then Look(lit, 9, w)
      else Max(Look(lit, 9, w), lit[z] + LExtra(z - 257) + WantedDist(dist, Shr(w, lit[z] + LExtra(z - 257))))
  }

  /** The bits consumed before an error in the token at the beginning of w is found. */
  ghost function BadAt(lit: seq<nat>, dist: seq<nat>, w: nat): nat
    requires |lit| <= 288 && |dist| <= 32
  {
    match Decode(lit, w)
    case None => Longest(lit)
    case Some(z) =>
      if z <= 256 || z >= 286 then lit[z]
      else
        lit[z] + LExtra(z - 257)
        + match Decode(dist, Shr(w, lit[z] + LExtra(z - 257))) case None => Longest(dist) case Some(k) => dist[k]
  }

  /** What the machine makes of the token at the start state s. */
  ghost predicate TakesTok(t: Tables, lit: seq<nat>, dist: seq<nat>, v: nat, size: nat, s: S)
    requires |lit| <= 288 && |dist| <= 32
  {
    var g, w := Run(t, v, size, s), Shr(v, s.pos);
    Wanted(lit, dist, w) >= 1
    && if s.pos + Wanted(lit, dist, w) > 8 * size then Dry(g, s.hist)
       else match InfTok(lit, dist, w)
         case Emit(u, b) => u >= 1 && g == Run(t, v, size, S(AtStart, s.pos + u, s.hist + [b]))
         case Stop(u) => u >= 1 && g == S(AtWash, s.pos + u, s.hist)
         case Repeat(u, len, d) =>
           u >= 1 && 1 <= d <= |s.hist| && g == Run(t, v, size, S(AtStart, s.pos + u, CopyBack(s.hist, len, d)))
         case NoCode => g == S(AtBad, s.pos + BadAt(lit, dist, w), s.hist)
  }

  lemma {:induction false} RunBad(t: Tables, v: nat, size: nat, s: S)
    requires Final(s.c)
    ensures Run(t, v, size, s) == s
  {
    RunRests(t, v, size, s);
  }

  lemma {:induction false} TokenRun(t: Tables, lit: seq<nat>, dist: seq<nat>, v: nat, size: nat, s: S)
    requires Agree(t, lit, dist) && s.c.AtStart? && |s.hist| >= WSIZE && s.pos <= 8 * size
    ensures TakesTok(t, lit, dist, v, size, s)
  {
    hide LitEntry, DistTables, Walk, Low, Shr, Run, CopyBack, ReadMatch, Decode, NoLengths, AfterLen, InfTok, TakesTok, ValidLens, Look;
    var w := Shr(v, s.pos);
    var r := Walk(t.h, t.ltree, t.lbits, w);
    assert LitEntry(lit, r, w);
    RunNext(t, v, size, s);
    LitEntryLeaf(lit, r, w);
    UsedInReach(t.h, t.ltree, t.lbits, w);
    WalkLen(t, v, size, Next(t, v, s));
    WalkUses(t.h, t.ltree, t.lbits, w);
    match Decode(lit, w)
    case None => NoLit(t, lit, dist, v, size, s, r);
    case Some(i) =>
      if i <= 256 || i >= 286 {
        ShortTok(t, lit, dist, v, size, s, r, i);
      } else {
        LengthUsed(lit, i, w);
        MatchTok(t, lit, dist, v, size, s, r, i);
      }
  }

  lemma {:induction false} UsedInReach(h: seq<Huft>, tr: nat, nd: nat, b: nat)
    ensures var w := Walk(h, tr, nd, b); w.Leaf? ==> w.used <= w.reach
    decreases |h| - tr
  {
    hide Low, Shr, IsLink;
    var a := tr + Low(b, nd);
    if a < |h| && h[a].base > 0 { UsedInReach(h, a + h[a].base, h[a].exop, Shr(b, h[a].bits)); }
  }

  lemma {:induction false} LitEntryLeaf(lit: seq<nat>, r: WalkResult, b: nat)
    requires LitEntry(lit, r, b)
    ensures r.Leaf? && r.entry.bits >= 1 && r.widest <= 9 && r.reach == Look(lit, 9, b)
  {
    hide Look;
  }

  /** The walk of the literal/length tables has been taken, or could not be. */
  ghost predicate Walked(t: Tables, v: nat, size: nat, s: S, r: WalkResult)
  {
    r.Leaf? && 1 <= r.used <= r.reach && var g := Run(t, v, size, s);
    if s.pos + r.reach <= 8 * size then g == Run(t, v, size, S(AfterLen(0, r.entry), s.pos + r.used, s.hist)) else Dry(g, s.hist)
  }

  lemma {:induction false} NoLit(t: Tables, lit: seq<nat>, dist: seq<nat>, v: nat, size: nat, s: S, r: WalkResult)
    requires Walked(t, v, size, s, r) && LitEntry(lit, r, Shr(v, s.pos)) && Decode(lit, Shr(v, s.pos)).None?
    requires |lit| <= 288 && |dist| <= 32
    ensures TakesTok(t, lit, dist, v, size, s)
  {
    hide Shr, Run, Decode, ReadMatch, IsExtra, IsStop, IsEnd, CopyBack, Look;
    KindOf(r.entry);
    RunBad(t, v, size, S(AtBad, s.pos + r.used, s.hist));
  }

  lemma {:induction false} ShortTok(t: Tables, lit: seq<nat>, dist: seq<nat>, v: nat, size: nat, s: S, r: WalkResult, i: nat)
    requires Walked(t, v, size, s, r) && LitEntry(lit, r, Shr(v, s.pos)) && Decode(lit, Shr(v, s.pos)) == Some(i)
    requires |lit| <= 288 && |dist| <= 32 && (i <= 256 || i >= 286) && ValidLens(lit) && s.pos <= 8 * size
    ensures TakesTok(t, lit, dist, v, size, s)
  {
    hide Shr, Run, Decode, IsExtra, IsStop, IsEnd, CopyBack, ReadMatch, Low, Look;
    KindOf(r.entry);
    DecodedLen(lit, Shr(v, s.pos), i);
    var s2 := S(AfterLen(0, r.entry), s.pos + r.used, s.hist);
    if i < 256 {
      if s.pos + r.reach <= 8 * size { RunNext(t, v, size, s2); }
    } else {
      RunBad(t, v, size, s2);
      if i >= 286 { UnusedLength(lit, dist, Shr(v, s.pos), i); }
    }
  }

  lemma {:induction false} DecodedLen(lens: seq<nat>, b: nat, i: nat)
    requires Decode(lens, b) == Some(i) && ValidLens(lens)
    ensures i < |lens| && 1 <= lens[i] <= 15
  {
    assert Reads(lens, i, b);
  }

  lemma {:induction false} UnusedLength(lit: seq<nat>, dist: seq<nat>, b: nat, i: nat)
    requires Decode(lit, b) == Some(i) && 286 <= i < |lit| <= 288 && |dist| <= 32
    ensures InfTok(lit, dist, b) == NoCode
  {
    hide Decode, Low, Shr;
    LowNone(Shr(b, lit[i]));
  }

  lemma {:induction false} WantedIs(lit: seq<nat>, dist: seq<nat>, w: nat, i: nat)
    requires |lit| <= 288 && |dist| <= 32 && Decode(lit, w) == Some(i) && 257 <= i < 286 && i < |lit|
    ensures var u := lit[i] + LExtra(i - 257);
            Wanted(lit, dist, w) == Max(Look(lit, 9, w), u + WantedDist(dist, Shr(w, u)))
            && BadAt(lit, dist, w) == u + match Decode(dist, Shr(w, u)) case None => Longest(dist) case Some(k) => if k < |dist| then dist[k] else 0
  {
    hide Decode, Look, Shr, LExtra, WantedDist, Longest;
    DistRange(dist, Shr(w, lit[i] + LExtra(i - 257)));
  }

  /** A length symbol: its extra bits, then a distance. */
  lemma {:induction false} MatchTok(t: Tables, lit: seq<nat>, dist: seq<nat>, v: nat, size: nat, s: S, r: WalkResult, i: nat)
    requires Walked(t, v, size, s, r) && LitEntry(lit, r, Shr(v, s.pos)) && Decode(lit, Shr(v, s.pos)) == Some(i)
    requires 257 <= i < 286 && ValidLens(lit) && ValidLens(dist) && |dist| <= 32 && DistTables(t, dist) && |s.hist| >= WSIZE
    ensures |lit| <= 288 && TakesTok(t, lit, dist, v, size, s)
  {
    hide Shr, Run, Decode, IsExtra, IsStop, IsEnd, CopyBack, LExtra, LBase, Low, DistTables, Walk, ReadMatch, InfTok, Pow2, ValidLens, Look,
         WantedDist, Wanted, BadAt;
    DecodedLen(lit, Shr(v, s.pos), i);
    WantedIs(lit, dist, Shr(v, s.pos), i);
    var get := LExtra(i - 257);
    ExtraRange(i - 257);
    SameExop(r.entry, 80 + get);
    var s2 := S(AtLenExt(LBase(i - 257), get), s.pos + r.used, s.hist);
    if s.pos + r.reach <= 8 * size {
      if Moves(size, s2) {
        RunNext(t, v, size, s2);
        hide TakesTok;
        DistTok(t, lit, dist, v, size, s, i);
      } else {
        RunRests(t, v, size, s2);
      }
    }
  }

  lemma {:induction false} TokIs(lit: seq<nat>, dist: seq<nat>, b: nat, i: nat)
    requires |lit| <= 288 && |dist| <= 32 && Decode(lit, b) == Some(i) && 257 <= i < 286 && i < |lit|
    ensures ReadTok(lit, dist, b) ==
            match Decode(dist, Shr(b, lit[i] + LExtra(i - 257)))
            case None => NoCode
            case Some(k) =>
              Repeat(lit[i] + LExtra(i - 257) + dist[k] + DExtra(k), LBase(i - 257) + Low(Shr(b, lit[i]), LExtra(i - 257)),
                     DBase(k) + Low(Shr(b, lit[i] + LExtra(i - 257) + dist[k]), DExtra(k)))
  {
    hide Shr, Decode, LExtra, LBase, DExtra, DBase, Low;
    ShrShr(b, lit[i], LExtra(i - 257));
    match Decode(dist, Shr(b, lit[i] + LExtra(i - 257)))
    case None =>
    case Some(k) =>
      if k < |dist| { ShrShr(b, lit[i], LExtra(i - 257) + dist[k]); }
  }

  lemma {:induction false} DistRange(dist: seq<nat>, b: nat)
    ensures Decode(dist, b).Some? ==> Decode(dist, b).value < |dist|
  {
  }

  lemma {:induction false} DistanceFits(b: nat, k: nat)
    requires k < 32
    ensures k < 30 ==> 1 <= DBase(k) + Low(b, DExtra(k)) <= WSIZE
    ensures k >= 30 ==> DBase(k) + Low(b, DExtra(k)) == 0
  {
    hide Low, DBase, DExtra;
    if k < 30 { ExtraRange(k); } else { LastDist(k); LowNone(b); }
  }

  lemma {:induction false} LastDist(k: nat)
    requires 30 <= k < 32
    ensures DBase(k) == 0 && DExtra(k) == 0
  {
  }

  /** The machine at the distance code of length symbol i. */
  lemma {:induction false} DistTok(t: Tables, lit: seq<nat>, dist: seq<nat>, v: nat, size: nat, s: S, i: nat)
    requires |lit| <= 288 && |dist| <= 32 && Decode(lit, Shr(v, s.pos)) == Some(i) && 257 <= i < 286 && i < |lit| && 1 <= lit[i] <= 15
    requires DistTables(t, dist) && ValidLens(dist) && |s.hist| >= WSIZE && LExtra(i - 257) <= 5 && LBase(i - 257) >= 3
    requires s.pos + Look(lit, 9, Shr(v, s.pos)) <= 8 * size
    requires var len := LBase(i - 257) + Low(Shr(v, s.pos + lit[i]), LExtra(i - 257));
             Run(t, v, size, s) == Run(t, v, size, S(AtDist(len, t.dbits, t.dtree), s.pos + lit[i] + LExtra(i - 257), s.hist))
    ensures TakesTok(t, lit, dist, v, size, s)
  {
    hide Shr, Run, Decode, CopyBack, LExtra, LBase, Low, DExtra, DBase, Walk, DistEntry, AfterDist, DistLeaf, Dry, TakesTok, InfTok, Look,
         Wanted, WantedDist, BadAt;
    var p := s.pos + lit[i] + LExtra(i - 257);
    var w := Shr(v, p);
    var len := LBase(i - 257) + Low(Shr(v, s.pos + lit[i]), LExtra(i - 257));
    var r := Walk(t.h, t.dtree, t.dbits, w);
    assert DistEntry(dist, r, w);
    DistEntryOk(dist, r, w);
    DistLeafIs(r);
    var s1 := S(AtDist(len, t.dbits, t.dtree), p, s.hist);
    WalkDist(t, v, size, s1);
    TokIs(lit, dist, Shr(v, s.pos), i);
    WantedIs(lit, dist, Shr(v, s.pos), i);
    ShrShr(v, s.pos, lit[i]);
    ShrShr(v, s.pos, lit[i] + LExtra(i - 257));
    DistRange(dist, w);
    match Decode(dist, w)
    case None => NoDist(t, lit, dist, v, size, s, p, len, r);
    case Some(k) =>
      ShrShr(v, s.pos, lit[i] + LExtra(i - 257) + dist[k]);
      TakeDist(t, lit, dist, v, size, s, p, len, r, k);
  }

  lemma {:induction false} DistLeafIs(r: WalkResult)
    requires DistLeaf(r)
    ensures r.Leaf?
  {
  }

  /** The walk of the distance tables has been taken, or could not be. */
  ghost predicate WalkedDist(t: Tables, v: nat, size: nat, s: S, p: nat, len: nat, r: WalkResult)
  {
    r.Leaf? && var g := Run(t, v, size, s);
    if p + r.reach <= 8 * size then g == Run(t, v, size, S(AfterDist(len, 0, r.entry), p + r.used, s.hist)) else Dry(g, s.hist)
  }

  lemma {:induction false} NoDist(t: Tables, lit: seq<nat>, dist: seq<nat>, v: nat, size: nat, s: S, p: nat, len: nat, r: WalkResult)
    requires |lit| <= 288 && |dist| <= 32 && ReadTok(lit, dist, Shr(v, s.pos)) == NoCode && s.pos < p
    requires DistEntry(dist, r, Shr(v, p)) && Decode(dist, Shr(v, p)).None? && WalkedDist(t, v, size, s, p, len, r)
    requires s.pos + Look(lit, 9, Shr(v, s.pos)) <= 8 * size
    requires Wanted(lit, dist, Shr(v, s.pos)) == Max(Look(lit, 9, Shr(v, s.pos)), p - s.pos + WantedDist(dist, Shr(v, p)))
    requires BadAt(lit, dist, Shr(v, s.pos)) == p - s.pos + Longest(dist)
    ensures TakesTok(t, lit, dist, v, size, s)
  {
    hide Shr, Run, Decode, CopyBack, ReadTok, IsExtra, IsStop, IsEnd, Look, Wanted, BadAt, Longest;
    KindOf(r.entry);
    RunBad(t, v, size, S(AtBad, p + r.used, s.hist));
  }

  lemma {:induction false} TakeDist(t: Tables, lit: seq<nat>, dist: seq<nat>, v: nat, size: nat, s: S, p: nat, len: nat, r: WalkResult, k: nat)
    requires |lit| <= 288 && |dist| <= 32 && s.pos < p && len >= 3 && |s.hist| >= WSIZE && ValidLens(dist)
    requires DistEntry(dist, r, Shr(v, p)) && Decode(dist, Shr(v, p)) == Some(k) && k < |dist| && WalkedDist(t, v, size, s, p, len, r)
    requires s.pos + Look(lit, 9, Shr(v, s.pos)) <= 8 * size
    requires Wanted(lit, dist, Shr(v, s.pos)) == Max(Look(lit, 9, Shr(v, s.pos)), p - s.pos + WantedDist(dist, Shr(v, p)))
    requires BadAt(lit, dist, Shr(v, s.pos)) == p - s.pos + dist[k]
    requires ReadTok(lit, dist, Shr(v, s.pos)) ==
             Repeat(p - s.pos + dist[k] + DExtra(k), len, DBase(k) + Low(Shr(v, p + dist[k]), DExtra(k)))
    ensures TakesTok(t, lit, dist, v, size, s)
  {
    hide Shr, Run, Decode, CopyBack, ReadTok, IsExtra, IsStop, IsEnd, DBase, DExtra, Low, Pow2, ValidLens, Look, Wanted, BadAt;
    DecodedLen(dist, Shr(v, p), k);
    DistanceFits(Shr(v, p + dist[k]), k);
    KindOf(r.entry);
    var g := Run(t, v, size, s);
    if k >= 30 {
      RunBad(t, v, size, S(AtBad, p + r.used, s.hist));
    } else {
      ExtraRange(k);
      SameExop(r.entry, 80 + DExtra(k));
      var s2 := S(AtDistExt(len, DBase(k), DExtra(k)), p + r.used, s.hist);
      if p + r.reach <= 8 * size {
        if Moves(size, s2) {
          RunNext(t, v, size, s2);
          RunNext(t, v, size, Next(t, v, s2));
        } else {
          RunRests(t, v, size, s2);
        }
      }
    }
  }

  // ---------------------------------------------------------------- a block of codes

  /** A block's end, an error, or the end of the input: the bits consumed, if that is certain, and the history. */
  datatype Inf = Done(pos: nat, hist: seq<byte>) | Broken(pos: nat, hist: seq<byte>) | Short(hist: seq<byte>)

  /** A block of codes from pos on, in an input of size bytes. */
  ghost function InfToks(lit: seq<nat>, dist: seq<nat>, v: nat, size: nat, pos: nat, hist: seq<byte>): Inf
    requires |lit| <= 288 && |dist| <= 32
    decreases if pos <= 8 * size then 8 * size - pos + 1 else 0
  {
    var w := Shr(v, pos);
    if pos + Wanted(lit, dist, w) > 8 * size then Short(hist)
    else match InfTok(lit, dist, w)
      case NoCode => Broken(pos + BadAt(lit, dist, w), hist)
      case Stop(u) => Done(pos + u, hist)
      case Emit(u, b) => if u == 0 then Short(hist) else InfToks(lit, dist, v, size, pos + u, hist + [b])
      case Repeat(u, len, d) =>
        if u == 0 || d == 0 || d > |hist| then Short(hist)
        else
          hide ReadTok, Shr, CopyBack, Wanted, BadAt;
          InfToks(lit, dist, v, size, pos + u, CopyBack(hist, len, d))
  }

  lemma {:induction false} InfUnfold(lit: seq<nat>, dist: seq<nat>, v: nat, size: nat, pos: nat, hist: seq<byte>)
    requires |lit| <= 288 && |dist| <= 32
    ensures var w := Shr(v, pos);
      InfToks(lit, dist, v, size, pos, hist) ==
      if pos + Wanted(lit, dist, w) > 8 * size then Short(hist)
      else match InfTok(lit, dist, w)
        case NoCode => Broken(pos + BadAt(lit, dist, w), hist)
        case Stop(u) => Done(pos + u, hist)
        case Emit(u, b) => if u == 0 then Short(hist) else InfToks(lit, dist, v, size, pos + u, hist + [b])
        case Repeat(u, len, d) =>
          if u == 0 || d == 0 || d > |hist| then Short(hist)
          else InfToks(lit, dist, v, size, pos + u, CopyBack(hist, len, d))
  {
    hide ReadTok, Shr, CopyBack, Wanted, BadAt;
  }

  lemma {:induction false} InfGrows(lit: seq<nat>, dist: seq<nat>, v: nat, size: nat, pos: nat, hist: seq<byte>)
    requires |lit| <= 288 && |dist| <= 32
    ensures var r := InfToks(lit, dist, v, size, pos, hist); hist <= r.hist && (!r.Short? ==> pos <= r.pos)
    decreases if pos <= 8 * size then 8 * size - pos + 1 else 0
  {
    hide InfTok, Shr, CopyBack, Wanted, BadAt;
    InfUnfold(lit, dist, v, size, pos, hist);
    hide InfToks;
    if pos + Wanted(lit, dist, Shr(v, pos)) <= 8 * size {
      match InfTok(lit, dist, Shr(v, pos))
      case Emit(u, b) => if u > 0 { InfGrows(lit, dist, v, size, pos + u, hist + [b]); }
      case Repeat(u, len, d) =>
        if u > 0 && 0 < d <= |hist| { InfGrows(lit, dist, v, size, pos + u, CopyBack(hist, len, d)); }
      case _ =>
    }
  }

  /** The machine at rest where the block decoder ends. */
  predicate Ends(g: S, r: Inf)
  {
    match r
    case Done(p, h) => g == S(AtWash, p, h)
    case Broken(p, h) => g == S(AtBad, p, h)
    case Short(h) => !Final(g.c) && g.hist == h
  }

  /** On every input, the machine comes to rest where the block decoder does. */
  lemma {:induction false} RunIsToks(t: Tables, lit: seq<nat>, dist: seq<nat>, v: nat, size: nat, pos: nat, hist: seq<byte>)
    requires Agree(t, lit, dist) && |hist| >= WSIZE
    ensures |lit| <= 288 && |dist| <= 32 && Ends(Run(t, v, size, S(AtStart, pos, hist)), InfToks(lit, dist, v, size, pos, hist))
    decreases if pos <= 8 * size then 8 * size - pos + 1 else 0
  {
    hide InfTok, Shr, CopyBack, Run, ValidLens, NoLengths, DistTables, LitEntry, Wanted, BadAt;
    AgreeSizes(t, lit, dist);
    var s := S(AtStart, pos, hist);
    InfUnfold(lit, dist, v, size, pos, hist);
    if pos > 8 * size {
      RunRests(t, v, size, s);
    } else {
      TokenRun(t, lit, dist, v, size, s);
      hide InfToks, Agree;
      if pos + Wanted(lit, dist, Shr(v, pos)) <= 8 * size {
        match InfTok(lit, dist, Shr(v, pos))
        case NoCode =>
        case Stop(u) =>
        case Emit(u, b) => RunIsToks(t, lit, dist, v, size, pos + u, hist + [b]);
        case Repeat(u, len, d) => RunIsToks(t, lit, dist, v, size, pos + u, CopyBack(hist, len, d));
      }
    }
  }

  lemma {:induction false} AgreeSizes(t: Tables, lit: seq<nat>, dist: seq<nat>)
    requires Agree(t, lit, dist)
    ensures |lit| <= 288 && |dist| <= 32
  {
  }

  // ---------------------------------------------------------------- the two decoders

  lemma {:induction false} CopyBackAppend(a: seq<byte>, out: seq<byte>, len: nat, d: nat)
    requires len > 0 ==> 1 <= d <= |out|
    ensures CopyBack(a + out, len, d) == a + CopyBack(out, len, d)
    decreases len
  {
    if len > 0 {
      var x := out[|out| - d];
      assert (a + out) + [(a + out)[|a + out| - d]] == a + (out + [x]);
      CopyBackAppend(a, out + [x], len - 1, d);
    }
  }

  /** Where the decoder of stb_image.c and this one both accept a block, they produce the same bytes and stop at the same bit,
      whatever the window held before. */
  lemma {:induction false} DecodersAgree(fuel: nat, lit: seq<nat>, dist: seq<nat>, v: nat, size: nat, pos: nat, before: seq<byte>, out: seq<byte>)
    requires |lit| <= 288 && |dist| <= 32
    requires RunToks(fuel, lit, dist, v, pos, out, None).Good? && InfToks(lit, dist, v, size, pos, before + out).Done?
    ensures var a := RunToks(fuel, lit, dist, v, pos, out, None);
            InfToks(lit, dist, v, size, pos, before + out) == Done(a.pos, before + a.out)
    decreases fuel
  {
    hide ReadTok, Shr, CopyBack, Wanted, BadAt;
    if fuel > 0 {
      InfUnfold(lit, dist, v, size, pos, before + out);
      hide InfToks;
      match ReadTok(lit, dist, Shr(v, pos))
      case NoCode =>
      case Stop(u) =>
      case Emit(u, b) =>
        assert before + out + [b] == before + (out + [b]);
        DecodersAgree(fuel - 1, lit, dist, v, size, pos + u, before, out + [b]);
      case Repeat(u, len, d) =>
        CopyBackAppend(before, out, len, d);
        DecodersAgree(fuel - 1, lit, dist, v, size, pos + u, before, CopyBack(out, len, d));
    }
  }

  // ---------------------------------------------------------------- round trip

  lemma {:induction false} InfTokBack(lit: seq<nat>, dist: seq<nat>, t: Tok, v: nat)
    requires |lit| <= 288 && |dist| <= 32 && ValidLens(lit) && ValidLens(dist) && Kraft(lit) <= SPACE && Kraft(dist) <= SPACE
    requires TokOk(lit, dist, t) && Begins(v, TokBits(lit, dist, t))
    ensures InfTok(lit, dist, v) ==
            if t.Lit? then Emit(|TokBits(lit, dist, t)|, t.b)
            else Repeat(|TokBits(lit, dist, t)|, Length(t), Distance(t))
  {
    TokBack(lit, dist, t, v);
    hide TokBits, Kraft, Begins, ReadTok, ValidLens, LBase, LExtra, DBase, DExtra, Pow2;
    if t.Copy? {
      CopyRange(lit, dist, t);
      LengthRange(t.li);
    }
  }

  /** How far into the stream v the decoding of encoded tokens looks. */
  ghost function Furthest(lit: seq<nat>, dist: seq<nat>, n: nat, toks: seq<Tok>, v: nat, pos: nat): nat
    requires 257 <= |lit| <= 288 && |dist| <= 32 && ToksOk(lit, dist, n, toks)
    decreases |toks|
  {
    hide Wanted, Shr, TokBits, LBase, LExtra, DBase, DExtra, LENGTH_BASE, LENGTH_EXTRA, DIST_BASE, DIST_EXTRA, Pow2, ReachOf, Longest;
    var here := pos + Wanted(lit, dist, Shr(v, pos));
    if toks == [] then here
    else
      Max(here, Furthest(lit, dist, n + (if toks[0].Lit? then 1 else Length(toks[0])), toks[1..], v, pos + |TokBits(lit, dist, toks[0])|))
  }

  /** Encoded tokens are decoded to their expansion exactly when all bits looked at are there. */
  lemma {:induction false} InfToksBack(lit: seq<nat>, dist: seq<nat>, toks: seq<Tok>, v: nat, size: nat, pos: nat, before: seq<byte>, out: seq<byte>)
    requires 257 <= |lit| <= 288 && |dist| <= 32 && ValidLens(lit) && ValidLens(dist) && Kraft(lit) <= SPACE && Kraft(dist) <= SPACE
    requires lit[256] > 0 && ToksOk(lit, dist, |out|, toks)
    requires Begins(Shr(v, pos), ToksBits(lit, dist, |out|, toks))
    ensures var r := InfToks(lit, dist, v, size, pos, before + out);
            if Furthest(lit, dist, |out|, toks, v, pos) <= 8 * size
            then r == Done(pos + |ToksBits(lit, dist, |out|, toks)|, before + Expand(lit, dist, out, toks))
            else r.Short? && r.hist <= before + Expand(lit, dist, out, toks)
    decreases |toks|
  {
    hide Begins, CodeBits, Kraft, Decode, Shr, TokBits, InfTok, CopyBack, TokOk, LBase, LExtra, DBase, DExtra,
         ValidLens, Length, Distance, Wanted, BadAt;
    InfUnfold(lit, dist, v, size, pos, before + out);
    hide InfToks;
    ExpandGrows(lit, dist, out, toks);
    if toks == [] {
      StopIs(lit, dist, Shr(v, pos));
    } else {
      var t := toks[0];
      if t.Copy? {
        CopyRange(lit, dist, t);
        CopyBackAppend(before, out, Length(t), Distance(t));
      }
      var n := if t.Lit? then 1 else Length(t);
      var head := TokBits(lit, dist, t);
      var tail := ToksBits(lit, dist, |out| + n, toks[1..]);
      BeginsAppend(Shr(v, pos), head, tail);
      InfTokBack(lit, dist, t, Shr(v, pos));
      ShrShr(v, pos, |head|);
      if t.Lit? { assert before + out + [t.b] == before + (out + [t.b]); }
      var out' := if t.Lit? then out + [t.b] else CopyBack(out, Length(t), Distance(t));
      InfToksBack(lit, dist, toks[1..], v, size, pos + |head|, before, out');
    }
  }

  lemma {:induction false} ExpandGrows(lit: seq<nat>, dist: seq<nat>, out: seq<byte>, toks: seq<Tok>)
    requires ToksOk(lit, dist, |out|, toks)
    ensures out <= Expand(lit, dist, out, toks)
    decreases |toks|
  {
    hide CopyBack, Length, Distance, LBase, LExtra, DBase, DExtra, Pow2;
    if toks != [] {
      if toks[0].Lit? {
        ExpandGrows(lit, dist, out + [toks[0].b], toks[1..]);
      } else {
        DistancePositive(toks[0]);
        ExpandGrows(lit, dist, CopyBack(out, Length(toks[0]), Distance(toks[0])), toks[1..]);
      }
    }
  }

  lemma {:induction false} StopIs(lit: seq<nat>, dist: seq<nat>, v: nat)
    requires 257 <= |lit| <= 288 && |dist| <= 32 && ValidLens(lit) && Kraft(lit) <= SPACE && lit[256] > 0
    requires Begins(v, CodeBits(lit, 256))
    ensures InfTok(lit, dist, v) == Stop(|CodeBits(lit, 256)|)
  {
    StopBack(lit, dist, v);
  }
}
