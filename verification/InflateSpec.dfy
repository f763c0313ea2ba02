/** The codes part of the inflate machine of DuiLib/XUnzip.cpp without its buffers: an input of size bytes read as
    one number, an output history that only grows, and one step per mode. Where the real machine has to
    stop for want of input or window space, this one simply goes on. */
module InflateSpec {
  import opened Bits
  import opened Canonical
  import opened HuftSpec
  import opened Deflate

  const WSIZE: nat := 0x8000

  /** Table space, index bits of the two first tables, and where they are. */
  datatype Tables = Tables(h: seq<Huft>, lbits: nat, dbits: nat, ltree: nat, dtree: nat)

  /** inflate_codes_mode with what each mode keeps; END counts as WASH. Lost stands for reads outside the tables or
      the window. */
  datatype Ctl =
    | AtStart
    | AtLen(need: nat, tree: nat)
    | AtLenExt(len: nat, get: nat)
    | AtDist(len: nat, need: nat, tree: nat)
    | AtDistExt(len: nat, dist: nat, get: nat)
    | AtCopy(len: nat, dist: nat)
    | AtLit(lit: nat)
    | AtWash
    | AtBad
    | Lost

  /** Mode, bits consumed, and everything that ever was in the window up to the write position. */
  datatype S = S(c: Ctl, pos: nat, hist: seq<byte>)

  predicate IsExtra(e: Huft) { e.exop / 16 % 2 == 1 }
  predicate IsStop(e: Huft) { e.exop / 32 % 2 == 1 }
  predicate IsEnd(e: Huft) { e.exop / 64 % 2 == 1 }

  /** What the literal/length entry at slot a leads to. */
  function AfterLen(a: nat, e: Huft): Ctl
  {
    if e.exop == 0 then AtLit(e.base)
    else if IsExtra(e) then AtLenExt(e.base, e.exop % 16)
    else if !IsEnd(e) then (if e.exop <= MAXBITS then AtLen(e.exop, a + e.base) else Lost)
    else if IsStop(e) then AtWash
    else AtBad
  }

  /** What the distance entry at slot a leads to. */
  function AfterDist(len: nat, a: nat, e: Huft): Ctl
  {
    if IsExtra(e) then AtDistExt(len, e.base, e.exop % 16)
    else if !IsEnd(e) then (if e.exop <= MAXBITS then AtDist(len, e.exop, a + e.base) else Lost)
    else AtBad
  }

  predicate Final(c: Ctl) { c.AtWash? || c.AtBad? || c.Lost? }

  /** Bits a mode asks for before it does anything. */
  function Need(c: Ctl): nat
  {
    match c
    case AtLen(need, _) => need
    case AtLenExt(_, get) => get
    case AtDist(_, need, _) => need
    case AtDistExt(_, _, get) => get
    case _ => 0
  }

  predicate SlotOk(h: seq<Huft>, a: nat, need: nat)
  {
    a < |h| && 1 <= h[a].bits <= need
  }

  ghost function Next(t: Tables, v: nat, s: S): S
  {
    match s.c
    case AtStart => s.(c := AtLen(t.lbits, t.ltree))
    case AtLen(need, tree) =>
      var a := tree + Low(Shr(v, s.pos), need);
      if SlotOk(t.h, a, need) then S(AfterLen(a, t.h[a]), s.pos + t.h[a].bits, s.hist) else s.(c := Lost)
    case AtLenExt(len, get) => S(AtDist(len + Low(Shr(v, s.pos), get), t.dbits, t.dtree), s.pos + get, s.hist)
    case AtDist(len, need, tree) =>
      var a := tree + Low(Shr(v, s.pos), need);
      if SlotOk(t.h, a, need) then S(AfterDist(len, a, t.h[a]), s.pos + t.h[a].bits, s.hist) else s.(c := Lost)
    case AtDistExt(len, dist, get) => S(AtCopy(len, dist + Low(Shr(v, s.pos), get)), s.pos + get, s.hist)
    case AtCopy(len, dist) =>
      if 1 <= dist <= |s.hist| then S(AtStart, s.pos, CopyBack(s.hist, len, dist)) else s.(c := Lost)
    case AtLit(b) => if b < 256 then S(AtStart, s.pos, s.hist + [b]) else s.(c := Lost)
    case _ => s
  }

  function Rank(c: Ctl): nat
  {
    match c
    case AtDistExt(_, _, _) => 4
    case AtCopy(_, _) => 3
    case AtLit(_) => 3
    case AtLenExt(_, _) => 3
    case AtStart => 2
    case AtDist(_, _, _) => 1
    case AtLen(_, _) => 1
    case _ => 0
  }

  /** The machine can take its next step on an input of size bytes. */
  predicate Moves(size: nat, s: S)
  {
    !Final(s.c) && s.pos + Need(s.c) <= 8 * size
  }

  /** Where the machine comes to rest: at the end of the block, at an error, or for want of input. */
  ghost function Run(t: Tables, v: nat, size: nat, s: S): S
    decreases if s.pos <= 8 * size then 8 * size - s.pos else 0, Rank(s.c)
  {
    hide Low, Shr, CopyBack, AfterLen, AfterDist;
    if Moves(size, s) then Run(t, v, size, Next(t, v, s)) else s
  }

  lemma {:induction false} RunNext(t: Tables, v: nat, size: nat, s: S)
    requires Moves(size, s)
    ensures Run(t, v, size, s) == Run(t, v, size, Next(t, v, s))
  {
    hide Next;
  }

  lemma {:induction false} RunRests(t: Tables, v: nat, size: nat, s: S)
    requires !Moves(size, s)
    ensures Run(t, v, size, s) == s
  {
    hide Next;
  }

  /** Output is only ever appended, and input only consumed. */
  lemma {:induction false} RunGrows(t: Tables, v: nat, size: nat, s: S)
    ensures s.hist <= Run(t, v, size, s).hist && s.pos <= Run(t, v, size, s).pos
    decreases if s.pos <= 8 * size then 8 * size - s.pos else 0, Rank(s.c)
  {
    hide Low, Shr, AfterLen, AfterDist, CopyBack;
    if Moves(size, s) {
      RunNext(t, v, size, s);
      RunGrows(t, v, size, Next(t, v, s));
    } else {
      RunRests(t, v, size, s);
    }
  }

  // ---------------------------------------------------------------- tables the machine can follow

  /** Every stream reaches a leaf of the distance tables, and distances stay within the window. */
  ghost predicate DistLeaf(r: WalkResult)
  {
    r.Leaf? && r.entry.bits >= 1 && r.reach <= MAXBITS && r.widest <= 9 && r.entry.exop != 0
    && (IsExtra(r.entry) ==> r.entry.exop % 16 <= 13 && 1 <= r.entry.base && r.entry.base + Pow2(r.entry.exop % 16) <= WSIZE + 1)
  }

  ghost predicate DistsOk(t: Tables)
  {
    1 <= t.dbits <= 9 && forall b: nat :: DistLeaf(Walk(t.h, t.dtree, t.dbits, b))
  }

  /** Every stream reaches a leaf of the literal/length tables; lengths are 3 to 258. */
  ghost predicate LitLeaf(t: Tables, r: WalkResult)
  {
    r.Leaf? && r.entry.bits >= 1 && r.reach <= MAXBITS && r.widest <= 9
    && (r.entry.exop == 0 ==> r.entry.base < 256)
    && (IsExtra(r.entry) ==>
          r.entry.exop % 16 <= 5 && 3 <= r.entry.base && r.entry.base + Pow2(r.entry.exop % 16) <= 259 && DistsOk(t))
  }

  ghost predicate TablesOk(t: Tables)
  {
    1 <= t.lbits <= 9 && forall b: nat :: LitLeaf(t, Walk(t.h, t.ltree, t.lbits, b))
  }

  /** The machine is somewhere its tables can take it. */
  ghost predicate Healthy(t: Tables, v: nat, s: S)
  {
    |s.hist| >= WSIZE
    && match s.c
       case AtLen(need, tree) => need <= MAXBITS && LitLeaf(t, Walk(t.h, tree, need, Shr(v, s.pos)))
       case AtLenExt(len, get) => get <= 5 && 3 <= len && len + Pow2(get) <= 259 && DistsOk(t)
       case AtDist(len, need, tree) =>
         3 <= len <= 258 && need <= MAXBITS && DistsOk(t) && DistLeaf(Walk(t.h, tree, need, Shr(v, s.pos)))
       case AtDistExt(len, dist, get) => 3 <= len <= 258 && get <= 13 && 1 <= dist && dist + Pow2(get) <= WSIZE + 1
       case AtCopy(len, dist) => len <= 258 && 1 <= dist <= WSIZE
       case AtLit(b) => b < 256
       case Lost => false
       case _ => true
  }

  /** One step of a walk. */
  lemma {:induction false} WalkStep(h: seq<Huft>, t: nat, need: nat, b: nat)
    ensures var a := t + Low(b, need); var r := Walk(h, t, need, b);
            r.Leaf? ==>
              a < |h| && h[a].bits <= need
              && if !IsLink(h[a]) then r == Leaf(h[a], h[a].bits, need, need)
                 else h[a].bits == need >= 1 && h[a].exop <= MAXBITS
                      && var r2 := Walk(h, a + h[a].base, h[a].exop, Shr(b, h[a].bits));
                         r2.Leaf? && r2.entry == r.entry && r.used == r2.used + h[a].bits
                         && r.widest == Max(r2.widest, need) && r.reach == Max(r2.reach + h[a].bits, need)
  {
    hide Low, Shr, IsLink;
  }

  /** What kind of entry a slot holds. */
  lemma {:induction false} EntryKinds(e: Huft)
    ensures !IsLink(e) ==> e.exop == 0 || IsExtra(e) || IsEnd(e)
    ensures IsLink(e) ==> e.exop != 0 && !IsExtra(e) && !IsEnd(e)
  {
  }

  lemma {:induction false} WalkLeafIsLeaf(h: seq<Huft>, t: nat, need: nat, b: nat)
    ensures Walk(h, t, need, b).Leaf? ==> !IsLink(Walk(h, t, need, b).entry)
    decreases |h| - t
  {
    hide Low, Shr, IsLink;
    var a := t + Low(b, need);
    if a < |h| && h[a].base > 0 { WalkLeafIsLeaf(h, a + h[a].base, h[a].exop, Shr(b, h[a].bits)); }
  }

  lemma {:induction false} HealthyLen(t: Tables, v: nat, s: S)
    requires Healthy(t, v, s) && s.c.AtLen?
    ensures Healthy(t, v, Next(t, v, s))
    ensures var a := s.c.tree + Low(Shr(v, s.pos), s.c.need); SlotOk(t.h, a, s.c.need) && s.c.need <= 9
  {
    hide Walk, Low, Shr, IsLink, DistsOk, Pow2, IsExtra, IsEnd, IsStop;
    var a := s.c.tree + Low(Shr(v, s.pos), s.c.need);
    WalkStep(t.h, s.c.tree, s.c.need, Shr(v, s.pos));
    EntryKinds(t.h[a]);
    ShrShr(v, s.pos, t.h[a].bits);
  }

  lemma {:induction false} HealthyDist(t: Tables, v: nat, s: S)
    requires Healthy(t, v, s) && s.c.AtDist?
    ensures Healthy(t, v, Next(t, v, s))
    ensures var a := s.c.tree + Low(Shr(v, s.pos), s.c.need); SlotOk(t.h, a, s.c.need) && s.c.need <= 9
  {
    hide Walk, Low, Shr, IsLink, DistsOk, Pow2, IsExtra, IsEnd, IsStop;
    var a := s.c.tree + Low(Shr(v, s.pos), s.c.need);
    WalkStep(t.h, s.c.tree, s.c.need, Shr(v, s.pos));
    EntryKinds(t.h[a]);
    ShrShr(v, s.pos, t.h[a].bits);
  }

  /** With such tables the machine never leaves them, nor the window. */
  lemma {:induction false} HealthyNext(t: Tables, v: nat, s: S)
    requires TablesOk(t) && Healthy(t, v, s)
    ensures Healthy(t, v, Next(t, v, s))
  {
    hide Walk, Low, Shr, Pow2, CopyBack, LitLeaf, DistLeaf;
    match s.c
    case AtLen(_, _) => HealthyLen(t, v, s);
    case AtDist(_, _, _) => HealthyDist(t, v, s);
    case AtStart => assert LitLeaf(t, Walk(t.h, t.ltree, t.lbits, Shr(v, s.pos)));
    case AtLenExt(_, get) =>
      assert DistLeaf(Walk(t.h, t.dtree, t.dbits, Shr(v, s.pos + get)));
    case _ =>
  }

  /** So no run from there does. */
  lemma {:induction false} HealthyRun(t: Tables, v: nat, size: nat, s: S)
    requires TablesOk(t) && Healthy(t, v, s)
    ensures Healthy(t, v, Run(t, v, size, s)) && !Run(t, v, size, s).c.Lost?
    decreases if s.pos <= 8 * size then 8 * size - s.pos else 0, Rank(s.c)
  {
    hide Low, Shr, AfterLen, AfterDist, CopyBack, TablesOk, Walk, LitLeaf, DistLeaf, Pow2;
    if Moves(size, s) {
      RunNext(t, v, size, s);
      HealthyNext(t, v, s);
      HealthyRun(t, v, size, Next(t, v, s));
    } else {
      RunRests(t, v, size, s);
    }
  }

  /** A later place of the same run on an input of size bytes. */
  predicate Later(size: nat, s: S, s2: S)
  {
    s2.pos <= 8 * size && (s2.pos > s.pos || (s2.pos == s.pos && Rank(s2.c) < Rank(s.c)))
  }

  /** What a step keeps. */
  lemma {:induction false} StepKeeps(t: Tables, v: nat, size: nat, s: S)
    requires TablesOk(t) && Healthy(t, v, s) && Moves(size, s)
    ensures Run(t, v, size, Next(t, v, s)) == Run(t, v, size, s)
    ensures Healthy(t, v, Next(t, v, s)) && Later(size, s, Next(t, v, s))
  {
    hide Low, Shr, AfterLen, AfterDist, CopyBack, TablesOk, Walk, LitLeaf, DistLeaf, Pow2, Run;
    RunNext(t, v, size, s);
    HealthyNext(t, v, s);
    hide Healthy;
    if s.c.AtLen? { HealthyLen(t, v, s); }
    if s.c.AtDist? { HealthyDist(t, v, s); }
  }

  // ---------------------------------------------------------------- places on the way

  /** A step, but of a copy one byte only. */
  ghost function Micro(t: Tables, v: nat, s: S): S
  {
    if s.c.AtCopy? && s.c.len > 0 && 1 <= s.c.dist <= |s.hist|
    then S(AtCopy(s.c.len - 1, s.c.dist), s.pos, s.hist + [s.hist[|s.hist| - s.c.dist]])
    else Next(t, v, s)
  }

  ghost predicate Closed(t: Tables, v: nat, k: iset<S>)
  {
    forall s :: s in k ==> Micro(t, v, s) in k
  }

  /** The machine comes to b on its way from a. */
  ghost predicate Leads(t: Tables, v: nat, a: S, b: S)
  {
    forall k: iset<S> :: Closed(t, v, k) && a in k ==> b in k
  }

  lemma {:induction false} LeadsSelf(t: Tables, v: nat, a: S)
    ensures Leads(t, v, a, a)
  {
    hide Closed;
  }

  lemma {:induction false} LeadsOn(t: Tables, v: nat, a: S, b: S, c: S)
    requires Leads(t, v, a, b) && Leads(t, v, b, c)
    ensures Leads(t, v, a, c)
  {
    hide Closed;
  }

  lemma {:induction false} LeadsMicro(t: Tables, v: nat, a: S)
    ensures Leads(t, v, a, Micro(t, v, a))
  {
    hide Micro;
  }

  lemma {:induction false} LeadsCopy(t: Tables, v: nat, pos: nat, h: seq<byte>, n: nat, d: nat, m: nat)
    requires 1 <= d <= |h| && m <= n
    ensures Leads(t, v, S(AtCopy(n, d), pos, h), S(AtCopy(n - m, d), pos, CopyBack(h, m, d)))
    decreases m
  {
    hide Leads;
    var a := S(AtCopy(n, d), pos, h);
    if m == 0 {
      LeadsSelf(t, v, a);
    } else {
      var h2 := h + [h[|h| - d]];
      LeadsMicro(t, v, a);
      LeadsCopy(t, v, pos, h2, n - 1, d, m - 1);
      LeadsOn(t, v, a, S(AtCopy(n - 1, d), pos, h2), S(AtCopy(n - m, d), pos, CopyBack(h, m, d)));
    }
  }

  lemma {:induction false} LeadsNext(t: Tables, v: nat, a: S)
    ensures Leads(t, v, a, Next(t, v, a))
  {
    hide Leads, Low, Shr, AfterLen, AfterDist;
    if a.c.AtCopy? && 1 <= a.c.dist <= |a.hist| {
      var b := S(AtCopy(0, a.c.dist), a.pos, CopyBack(a.hist, a.c.len, a.c.dist));
      LeadsCopy(t, v, a.pos, a.hist, a.c.len, a.c.dist, a.c.len);
      LeadsMicro(t, v, b);
      LeadsOn(t, v, a, b, Next(t, v, a));
    } else {
      LeadsMicro(t, v, a);
    }
  }

  // ---------------------------------------------------------------- runs on inputs of several sizes

  /** An end of the block or an error is the same on every longer input. */
  lemma {:induction false} RunFinal(t: Tables, v: nat, size: nat, more: nat, s: S)
    requires size <= more && Final(Run(t, v, size, s).c)
    ensures Run(t, v, more, s) == Run(t, v, size, s)
    decreases if s.pos <= 8 * size then 8 * size - s.pos else 0, Rank(s.c)
  {
    hide Low, Shr, AfterLen, AfterDist, CopyBack;
    if Moves(size, s) {
      RunNext(t, v, size, s);
      RunNext(t, v, more, s);
      RunFinal(t, v, size, more, Next(t, v, s));
    } else {
      RunRests(t, v, size, s);
      RunRests(t, v, more, s);
    }
  }

  /** A step that asks for bits past an input of size bytes goes to its last eight bits at least. */
  lemma {:induction false} StepFar(t: Tables, v: nat, size: nat, s: S)
    requires TablesOk(t) && Healthy(t, v, s) && !Final(s.c) && s.pos + Need(s.c) > 8 * size
    ensures Next(t, v, s).pos + 8 > 8 * size && Micro(t, v, s).pos + 8 > 8 * size
  {
    hide Low, Shr, AfterLen, AfterDist, CopyBack, TablesOk, Walk, LitLeaf, DistLeaf, Pow2, Run;
    if s.c.AtLen? { HealthyLen(t, v, s); }
    if s.c.AtDist? { HealthyDist(t, v, s); }
    hide Healthy;
  }

  /** A block that ends eight bits or more before the end of an input ends there on that input. */
  lemma {:induction false} RunBack(t: Tables, v: nat, size: nat, more: nat, s: S)
    requires TablesOk(t) && Healthy(t, v, s) && size <= more && Run(t, v, more, s).c.AtWash? && Run(t, v, more, s).pos + 8 <= 8 * size
    ensures Run(t, v, size, s) == Run(t, v, more, s)
    decreases if s.pos <= 8 * more then 8 * more - s.pos else 0, Rank(s.c)
  {
    hide Low, Shr, AfterLen, AfterDist, CopyBack, TablesOk, Walk, LitLeaf, DistLeaf, Pow2;
    if Moves(more, s) {
      RunNext(t, v, more, s);
      HealthyNext(t, v, s);
      if Moves(size, s) {
        RunNext(t, v, size, s);
        RunBack(t, v, size, more, Next(t, v, s));
      } else {
        StepFar(t, v, size, s);
        RunGrows(t, v, more, Next(t, v, s));
      }
    } else {
      RunRests(t, v, more, s);
      RunRests(t, v, size, s);
    }
  }

  /** A place on the way is on the same run. */
  lemma {:induction false} RunMicro(t: Tables, v: nat, size: nat, s: S)
    requires Moves(size, s)
    ensures Run(t, v, size, Micro(t, v, s)) == Run(t, v, size, s)
  {
    hide Low, Shr, AfterLen, AfterDist, Run;
    RunNext(t, v, size, s);
    var s2 := Micro(t, v, s);
    if s2 != Next(t, v, s) { RunNext(t, v, size, s2); }
  }

  lemma {:induction false} HealthyMicro(t: Tables, v: nat, s: S)
    requires TablesOk(t) && Healthy(t, v, s)
    ensures Healthy(t, v, Micro(t, v, s))
  {
    HealthyNext(t, v, s);
    hide TablesOk, Next, Walk, LitLeaf, DistLeaf, DistsOk, Pow2, Low, Shr;
  }
}
