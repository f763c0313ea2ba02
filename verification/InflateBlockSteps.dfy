/** One step of inflate_blocks after the other: the rest of the stream stays the same. */
module InflateBlockSteps {
  import opened Bits
  import opened Canonical
  import opened HuftSpec
  import opened HuftBuild
  import opened Deflate
  import opened DeflateStream
  import opened InflateSpec
  import opened InflateTokens
  import opened InflateTrees
  import opened InflateBlocksSpec

  // ---------------------------------------------------------------- IBM_TYPE

  /** The state after three header bits. */
  ghost function AfterType(v: nat, s: State, fixed: Tables): State
  {
    var last := Low(Shr(v, s.pos), 1) == 1;
    var kind := Low(Shr(v, s.pos + 1), 2);
    if kind == 0 then State(IsLens, last, s.pos + 3 + Pad(s.pos + 3), s.hist)
    else if kind == 1 then State(IsCodes(fixed, AtStart), last, s.pos + 3, s.hist)
    else if kind == 2 then State(IsTable, last, s.pos + 3, s.hist)
    else State(IsBad, last, s.pos + 3, s.hist)
  }

  /** A block of codes: the machine with tables does what the code lengths say. */
  lemma {:induction false} CodesSame(x: Input, last: bool, t: Tables, lit: seq<nat>, dist: seq<nat>, pos: nat, hist: seq<byte>)
    requires Agree(t, lit, dist) && |hist| >= WSIZE
    ensures |lit| <= 288 && |dist| <= 32
    ensures FromState(x, State(IsCodes(t, AtStart), last, pos, hist)) == FromCodes(x, last, lit, dist, pos, hist)
  {
    hide Agree, Run, AfterBlock, InfToks;
    RunIsToks(t, lit, dist, x.v, x.size, pos, hist);
  }

  lemma {:induction false} TypeUnfold(x: Input, pos: nat, hist: seq<byte>)
    requires pos + 3 <= 8 * x.size
    ensures var last := Low(Shr(x.v, pos), 1) == 1; var kind := Low(Shr(x.v, pos + 1), 2);
            FromType(x, pos, hist) ==
            if kind == 0 then FromLens(x, last, pos + 3 + Pad(pos + 3), hist)
            else if kind == 1 then FromCodes(x, last, FixedLengths(), FixedDistances(), pos + 3, hist)
            else if kind == 2 then FromTable(x, last, pos + 3, hist)
            else Faulty(pos + 3, hist)
  {
    hide Low, Shr, Pad, FixedLengths, FixedDistances, FromLens, FromTable, FromCodes;
  }

  lemma {:induction false} TypeStep(x: Input, s: State, fixed: Tables)
    requires s.m.IsType? && |s.hist| >= WSIZE && Agree(fixed, FixedLengths(), FixedDistances()) && s.pos + 3 <= 8 * x.size
    ensures FromState(x, AfterType(x.v, s, fixed)) == FromState(x, s)
  {
    hide Low, Shr, Pad, FixedLengths, FixedDistances, FromLens, FromTable, FromCodes, Agree, AfterCodes, FromType, Run;
    TypeUnfold(x, s.pos, s.hist);
    var last := Low(Shr(x.v, s.pos), 1) == 1;
    CodesSame(x, last, fixed, FixedLengths(), FixedDistances(), s.pos + 3, s.hist);
  }

  lemma {:induction false} TableParts(table: nat)
    requires TableOk(table)
    ensures Hlit(table) <= 29 && Hdist(table) <= 29 && Hclen(table) <= 15
  {
  }

  // ---------------------------------------------------------------- stored blocks

  /** The state after a block that ends at pos. */
  function NextBlock(last: bool, pos: nat, hist: seq<byte>): State
  {
    State(if last then IsDry else IsType, last, pos, hist)
  }

  lemma {:induction false} NextBlockIs(x: Input, last: bool, pos: nat, hist: seq<byte>)
    ensures FromState(x, NextBlock(last, pos, hist)) == AfterBlock(x, last, pos, hist)
  {
    hide FromType;
  }

  /** The state after the two lengths of a stored block. */
  ghost function AfterLens(v: nat, s: State): State
  {
    var left := Low(Shr(v, s.pos), 16);
    if left + Low(Shr(v, s.pos + 16), 16) != 0xffff then State(IsBad, s.last, s.pos, s.hist)
    else if left == 0 then NextBlock(s.last, s.pos + 32, s.hist)
    else State(IsStored(left), s.last, s.pos + 32, s.hist)
  }

  lemma {:induction false} LensStep(x: Input, s: State)
    requires s.m.IsLens? && s.pos + 32 <= 8 * x.size
    ensures FromState(x, s) == FromState(x, AfterLens(x.v, s))
  {
    hide Low, Shr, AfterBlock, FromLens, FromStored, FromType;
    LensUnfold(x, s.last, s.pos, s.hist);
    NextBlockIs(x, s.last, s.pos + 32, s.hist);
    NoStored(x, s.last, s.pos + 32, s.hist);
  }

  lemma {:induction false} LensUnfold(x: Input, last: bool, pos: nat, hist: seq<byte>)
    requires pos + 32 <= 8 * x.size
    ensures var len := Low(Shr(x.v, pos), 16);
            FromLens(x, last, pos, hist) ==
            if len + Low(Shr(x.v, pos + 16), 16) != 0xffff then Faulty(pos, hist) else FromStored(x, last, len, pos + 32, hist)
  {
    hide Low, Shr, FromStored;
  }

  lemma {:induction false} NoStored(x: Input, last: bool, pos: nat, hist: seq<byte>)
    ensures FromStored(x, last, 0, pos, hist) == AfterBlock(x, last, pos, hist)
  {
    NoBytes(x.v, pos, hist);
    hide AfterBlock, StreamBytes;
  }

  lemma {:induction false} NoBytes(v: nat, pos: nat, hist: seq<byte>)
    ensures hist + StreamBytes(v, pos, 0) == hist
  {
  }

  lemma {:induction false} StreamBytesSplit(v: nat, pos: nat, a: nat, b: nat)
    ensures StreamBytes(v, pos, a + b) == StreamBytes(v, pos, a) + StreamBytes(v, pos + 8 * a, b)
    decreases a
  {
    hide Low, Shr, Pow2;
    if a > 0 {
      StreamBytesSplit(v, pos + 8, a - 1, b);
    }
  }

  lemma {:induction false} StreamBytesOn(v: nat, pos: nat, a: nat, b: nat, hist: seq<byte>)
    requires a <= b
    ensures hist + StreamBytes(v, pos, b) == hist + StreamBytes(v, pos, a) + StreamBytes(v, pos + 8 * a, b - a)
  {
    StreamBytesSplit(v, pos, a, b - a);
    hide StreamBytes;
  }

  /** The state after n bytes of a stored block have been copied. */
  ghost function AfterStored(v: nat, s: State, n: nat): State
    requires s.m.IsStored? && n <= s.m.left
  {
    var h := s.hist + StreamBytes(v, s.pos, n);
    if n == s.m.left then NextBlock(s.last, s.pos + 8 * n, h) else State(IsStored(s.m.left - n), s.last, s.pos + 8 * n, h)
  }

  lemma {:induction false} StoredStep(x: Input, s: State, n: nat)
    requires s.m.IsStored? && n <= s.m.left && s.pos + 8 * n <= 8 * x.size
    ensures FromState(x, s) == FromState(x, AfterStored(x.v, s, n))
  {
    hide AfterBlock, StreamBytes, FromType;
    var h := s.hist + StreamBytes(x.v, s.pos, n);
    var left := s.m.left;
    StreamBytesOn(x.v, s.pos, n, left, s.hist);
    NextBlockIs(x, s.last, s.pos + 8 * n, h);
    NoBytes(x.v, s.pos + 8 * n, h);
    LeftAfter(x, s.pos, n);
    if 8 * left > BitsLeft(x, s.pos) {
      StreamBytesOn(x.v, s.pos, n, BitsLeft(x, s.pos) / 8, s.hist);
    }
  }

  lemma {:induction false} LeftAfter(x: Input, pos: nat, n: nat)
    requires pos + 8 * n <= 8 * x.size
    ensures BitsLeft(x, pos + 8 * n) == BitsLeft(x, pos) - 8 * n && BitsLeft(x, pos + 8 * n) / 8 == BitsLeft(x, pos) / 8 - n
  {
  }

  // ---------------------------------------------------------------- dynamic blocks

  /** The 14 bits of IBM_TABLE, taken apart. */
  lemma {:induction false} TableBits(w: nat)
    ensures var table := Low(w, 14);
            Hlit(table) == Low(w, 5) && Hdist(table) == Low(Shr(w, 5), 5) && Hclen(table) == Low(Shr(w, 10), 4) <= 15
            && Hlit(table) < 32 && Hdist(table) < 32
  {
    hide Low, Shr, Shl, Pow2;
    Pow2Values();
    LowAppend(w, 5, 9);
    LowAppend(Shr(w, 5), 5, 4);
    ShrShr(w, 5, 5);
    ShlMul(Low(Shr(w, 5), 9), 5);
    ShlMul(Low(Shr(w, 10), 4), 5);
    Digits(Low(w, 5), Low(Shr(w, 5), 5), Low(Shr(w, 10), 4));
  }

  lemma {:induction false} Digits(a: nat, b: nat, c: nat)
    requires a < 32 && b < 32
    ensures var t := a + 32 * (b + 32 * c); t % 32 == a && t / 32 % 32 == b && t / 1024 == c
  {
  }

  /** The state after the 14 bits of IBM_TABLE. */
  ghost function AfterTable(v: nat, s: State): State
  {
    var table := Low(Shr(v, s.pos), 14);
    if Hlit(table) > 29 || Hdist(table) > 29 then State(IsBad, s.last, s.pos, s.hist)
    else State(IsBtree(table, 0), s.last, s.pos + 14, s.hist)
  }

  lemma {:induction false} TableStep(x: Input, s: State)
    requires s.m.IsTable? && s.pos + 14 <= 8 * x.size
    ensures FromState(x, s) == FromState(x, AfterTable(x.v, s))
  {
    hide Low, Shr, FromTrees, Hlit, Hdist, Hclen, Pow2;
    Pow2Values();
    TableBits(Shr(x.v, s.pos));
    ShrShr(x.v, s.pos, 5);
    ShrShr(x.v, s.pos, 10);
  }

  /** One of the lengths of the code length code. */
  lemma {:induction false} BtreeStep(x: Input, s: State)
    requires s.m.IsBtree? && 3 * s.m.index <= s.pos && TableOk(s.m.table)
    ensures FromState(x, s) == FromState(x, State(IsBtree(s.m.table, s.m.index + 1), s.last, s.pos + 3, s.hist))
  {
    hide FromTrees, TableOk;
    assert s.pos + 3 - 3 * (s.m.index + 1) == s.pos - 3 * s.m.index;
  }

  lemma {:induction false} BtreeDone(x: Input, s: State, cl: seq<nat>)
    requires s.m.IsBtree? && TableOk(s.m.table) && s.m.index == Hclen(s.m.table) + 4 && 3 * s.m.index <= s.pos <= 8 * x.size
    requires cl == ReadClLens(x.v, s.pos - 3 * s.m.index, s.m.index)
    ensures |cl| == 19 && ValidLens(cl)
    ensures FromState(x, s) == FromState(x, if Accepted(cl) then State(IsDtree(s.m.table, cl, []), s.last, s.pos, s.hist)
                                            else State(IsBad, s.last, s.pos, s.hist))
  {
    hide FromLengths, ReadClLens, Accepted;
  }

  ghost predicate InDtree(s: State)
  {
    s.m.IsDtree? && TableOk(s.m.table) && |s.m.cl| == 19 && ValidLens(s.m.acc) && |s.m.acc| < 258 + Hlit(s.m.table) + Hdist(s.m.table)
  }

  lemma {:induction false} RunAdded(acc: seq<nat>, c: nat, j: nat)
    requires ValidLens(acc) && (c != 16 || acc != [])
    ensures ValidLens(acc + Times(if c == 16 then acc[|acc| - 1] else 0, j))
  {
  }

  /** What the code length symbol c of n bits does. */
  ghost function AfterLength(v: nat, s: State, c: nat, n: nat): State
    requires s.m.IsDtree?
  {
    var total := 258 + Hlit(s.m.table) + Hdist(s.m.table);
    if c < 16 then State(IsDtree(s.m.table, s.m.cl, s.m.acc + [c]), s.last, s.pos + n, s.hist)
    else
      var p := s.pos + n + RepBits(c);
      var j := RepBase(c) + Low(Shr(v, s.pos + n), RepBits(c));
      if |s.m.acc| + j > total || (c == 16 && s.m.acc == []) then State(IsBad, s.last, p, s.hist)
      else State(IsDtree(s.m.table, s.m.cl, s.m.acc + Times(if c == 16 then s.m.acc[|s.m.acc| - 1] else 0, j)), s.last, p, s.hist)
  }

  lemma {:induction false} InfLensNext(cl: seq<nat>, x: Input, pos: nat, acc: seq<nat>, total: nat)
    requires |cl| == 19 && ValidLens(acc) && |acc| < total
    ensures InfLens(cl, x, pos, acc, total) ==
            var r := NextLens(cl, x, pos, acc, total); if r.LensAre? then InfLens(cl, x, r.pos, r.lens, total) else r
  {
    hide NextLens;
  }

  /** One code length symbol. */
  lemma {:induction false} LengthStep(x: Input, s: State)
    requires InDtree(s) && s.pos + Longest(s.m.cl) <= 8 * x.size
    requires var w := Shr(x.v, s.pos);
             ClSym(s.m.cl, w) >= 16 ==> s.pos + ClUsed(s.m.cl, w) + RepBits(ClSym(s.m.cl, w)) <= 8 * x.size
    ensures var w := Shr(x.v, s.pos); FromState(x, s) == FromState(x, AfterLength(x.v, s, ClSym(s.m.cl, w), ClUsed(s.m.cl, w)))
  {
    hide FromCodes, TreesVerdict, ClSym, ClUsed, Hlit, Hdist, TableOk, Shr, Low, Times, Longest, RepBits, RepBase, InfLens;
    TableParts(s.m.table);
    ClSymIn(s.m.cl, Shr(x.v, s.pos));
    InfLensNext(s.m.cl, x, s.pos, s.m.acc, 258 + Hlit(s.m.table) + Hdist(s.m.table));
  }

  /** The code lengths are complete. */
  lemma {:induction false} DtreeDone(x: Input, s: State)
    requires s.m.IsDtree? && TableOk(s.m.table) && |s.m.cl| == 19 && ValidLens(s.m.acc)
    requires |s.m.acc| == 258 + Hlit(s.m.table) + Hdist(s.m.table)
    ensures var nl := 257 + Hlit(s.m.table); var lit, dist := s.m.acc[..nl], s.m.acc[nl..];
            ValidLens(lit) && ValidLens(dist) && 257 <= |lit| <= 286 && |dist| <= 30
            && FromState(x, s) == match TreesVerdict(lit, dist)
                                  case TreesBad => Faulty(s.pos, s.hist)
                                  case TreesFull => NoSpace(s.pos, s.hist)
                                  case TreesOk => FromCodes(x, s.last, lit, dist, s.pos, s.hist)
  {
    hide FromCodes, TreesVerdict, Hlit, Hdist;
    TableParts(s.m.table);
    var nl, nd := 257 + Hlit(s.m.table), 1 + Hdist(s.m.table);
    PiecesValid(s.m.acc, nl, nd);
    assert s.m.acc[nl..nl + nd] == s.m.acc[nl..];
  }

  // ---------------------------------------------------------------- blocks of codes

  /** Another place on the same run of the machine. */
  lemma {:induction false} CodesStep(x: Input, t: Tables, last: bool, s: S, s2: S)
    requires Run(t, x.v, x.size, s) == Run(t, x.v, x.size, s2)
    ensures FromState(x, State(IsCodes(t, s.c), last, s.pos, s.hist)) == FromState(x, State(IsCodes(t, s2.c), last, s2.pos, s2.hist))
  {
    hide Run, AfterCodes;
  }

  lemma {:induction false} CodesEnd(x: Input, t: Tables, last: bool, pos: nat, hist: seq<byte>)
    ensures FromState(x, State(IsCodes(t, AtWash), last, pos, hist)) == FromState(x, NextBlock(last, pos, hist))
    ensures FromState(x, State(IsCodes(t, AtBad), last, pos, hist)) == Faulty(pos, hist)
  {
    hide Run, AfterBlock, FromType;
    RunBad(t, x.v, x.size, S(AtWash, pos, hist));
    RunBad(t, x.v, x.size, S(AtBad, pos, hist));
    NextBlockIs(x, last, pos, hist);
  }

  // ---------------------------------------------------------------- where the input is not enough

  /** The bits that the mode asks for first are not there. */
  ghost predicate Lacks(x: Input, s: State)
  {
    match s.m
    case IsType => s.pos + 3 > 8 * x.size
    case IsLens => s.pos + 32 > 8 * x.size
    case IsStored(left) => left > 0 && s.pos == 8 * x.size
    case IsTable => s.pos + 14 > 8 * x.size
    case IsBtree(table, index) => TableOk(table) && index < Hclen(table) + 4 && 3 * index <= s.pos && s.pos + 3 > 8 * x.size
    case IsDtree(table, cl, acc) =>
      InDtree(s)
      && var w := Shr(x.v, s.pos);
         s.pos + Longest(cl) > 8 * x.size
         || (ClSym(cl, w) >= 16 && s.pos + ClUsed(cl, w) + RepBits(ClSym(cl, w)) > 8 * x.size)
    case IsCodes(t, c) => !Final(c) && !Moves(x.size, S(c, s.pos, s.hist))
    case _ => false
  }

  /** Then that is all that comes of the stream. */
  lemma {:induction false} LacksIsStarved(x: Input, s: State)
    requires Lacks(x, s)
    ensures FromState(x, s) == Starved(s.hist)
  {
    hide FromCodes, AfterBlock, FromLengths, FromTrees, Run, InDtree, TableOk, Moves, Shr, Low, ClSym, ClUsed, Longest, Hclen;
    match s.m
    case IsStored(left) => NoBytes(x.v, s.pos, s.hist);
    case IsBtree(table, index) => BtreeLacks(x, s);
    case IsDtree(table, cl, acc) => DtreeLacks(x, s);
    case IsCodes(t, c) => RunRests(t, x.v, x.size, S(c, s.pos, s.hist));
    case _ =>
  }

  lemma {:induction false} BtreeLacks(x: Input, s: State)
    requires s.m.IsBtree? && Lacks(x, s)
    ensures FromState(x, s) == Starved(s.hist)
  {
    hide FromLengths, ReadClLens, Accepted;
  }

  lemma {:induction false} DtreeLacks(x: Input, s: State)
    requires s.m.IsDtree? && Lacks(x, s)
    ensures FromState(x, s) == Starved(s.hist)
  {
    hide FromCodes, TreesVerdict, ClSym, ClUsed, Hlit, Hdist, TableOk, Shr, Low, Times, Longest, RepBits, RepBase, InfLens;
    TableParts(s.m.table);
    ClSymIn(s.m.cl, Shr(x.v, s.pos));
    InfLensNext(s.m.cl, x, s.pos, s.m.acc, 258 + Hlit(s.m.table) + Hdist(s.m.table));
  }

  // ---------------------------------------------------------------- the lookup of a code length symbol

  /** The table of the code length code gives the symbol and its bits. */
  lemma {:induction false} SlotIs(h: seq<Huft>, t: nat, m: nat, cl: seq<nat>, w: nat)
    requires ClSlot(h, t, m, cl, w) && ValidLens(cl) && |cl| == 19
    ensures t + Low(w, m) < |h| && h[t + Low(w, m)].base == ClSym(cl, w) < 19 && 1 <= h[t + Low(w, m)].bits == ClUsed(cl, w) <= m
  {
    hide Decode, Longest, IsLast;
    if Decode(cl, w).None? {
      var b := h[t + Low(w, m)].base;
      assert IsLast(cl, b);
      LastUnique(cl, b, ClSym(cl, w));
    }
  }

  lemma {:induction false} LastUnique(cl: seq<nat>, i: nat, j: nat)
    requires IsLast(cl, i) && IsLast(cl, j) && ValidLens(cl)
    ensures i == j
  {
    hide Slot, Below, Longest;
    if i != j { SlotInjective(cl, i, j); }
  }

  // ---------------------------------------------------------------- places on the way

  /** A block of codes whose machine is at s. */
  function InCodes(t: Tables, last: bool, s: S): State
  {
    State(IsCodes(t, s.c), last, s.pos, s.hist)
  }

  /** The state when the lengths cl of the code length code are known. */
  ghost function AfterBtree(a: State, cl: seq<nat>): State
    requires a.m.IsBtree? && ValidLens(cl)
  {
    if Accepted(cl) then State(IsDtree(a.m.table, cl, []), a.last, a.pos, a.hist) else State(IsBad, a.last, a.pos, a.hist)
  }

  ghost predicate FollowsBtree(v: nat, a: State, b: State)
    requires a.m.IsBtree?
  {
    var table, index := a.m.table, a.m.index;
    TableOk(table) && 3 * index <= a.pos && index <= Hclen(table) + 4
    && if index < Hclen(table) + 4 then b == State(IsBtree(table, index + 1), a.last, a.pos + 3, a.hist)
       else
         ClSmall(v, a.pos - 3 * index, index);
         b == AfterBtree(a, ReadClLens(v, a.pos - 3 * index, index))
  }

  lemma {:induction false} ClSmall(v: nat, pos: nat, n: nat)
    requires n <= 19
    ensures var cl := ReadClLens(v, pos, n); |cl| == 19 && ValidLens(cl) && forall i :: 0 <= i < 19 ==> cl[i] <= 7
  {
    hide ReadClLens;
  }

  /** All code lengths of a dynamic block are known. */
  ghost predicate DtreeFull(a: State)
  {
    a.m.IsDtree? && TableOk(a.m.table) && |a.m.cl| == 19 && ValidLens(a.m.acc) && |a.m.acc| == 258 + Hlit(a.m.table) + Hdist(a.m.table)
  }

  ghost predicate FollowsDtree(v: nat, a: State, b: State)
    requires a.m.IsDtree?
  {
    var w, nl := Shr(v, a.pos), 257 + Hlit(a.m.table);
    if InDtree(a) then b == AfterLength(v, a, ClSym(a.m.cl, w), ClUsed(a.m.cl, w))
    else
      DtreeFull(a)
      && (b == State(IsBad, a.last, a.pos, a.hist)
          || (b.m.IsCodes? && Agree(b.m.t, a.m.acc[..nl], a.m.acc[nl..]) && b == State(IsCodes(b.m.t, AtStart), a.last, a.pos, a.hist)))
  }

  /** b comes right after a; a block of codes may have any tables that decode its codes. */
  ghost predicate Follows(v: nat, a: State, b: State)
  {
    match a.m
    case IsType =>
      var fixed := if b.m.IsCodes? then b.m.t else Tables([], 0, 0, 0, 0);
      b == AfterType(v, a, fixed) && (b.m.IsCodes? ==> Agree(fixed, FixedLengths(), FixedDistances()))
    case IsLens => b == AfterLens(v, a)
    case IsStored(left) => left > 0 && b == AfterStored(v, a, 1)
    case IsTable => b == AfterTable(v, a)
    case IsBtree(_, _) => FollowsBtree(v, a, b)
    case IsDtree(_, _, _) => FollowsDtree(v, a, b)
    case IsCodes(t, c) =>
      b == if c.AtWash? then NextBlock(a.last, a.pos, a.hist) else InCodes(t, a.last, Micro(t, v, S(c, a.pos, a.hist)))
    case _ => false
  }

  ghost predicate Kept(v: nat, k: iset<State>)
  {
    forall a, b :: a in k && Follows(v, a, b) ==> b in k
  }

  /** inflate_blocks may come to b on its way from a. */
  ghost predicate Comes(v: nat, a: State, b: State)
  {
    forall k: iset<State> :: Kept(v, k) && a in k ==> b in k
  }

  lemma {:induction false} ComesSelf(v: nat, a: State)
    ensures Comes(v, a, a)
  {
    hide Kept;
  }

  lemma {:induction false} ComesOn(v: nat, a: State, b: State, c: State)
    requires Comes(v, a, b) && Comes(v, b, c)
    ensures Comes(v, a, c)
  {
    hide Kept;
  }

  lemma {:induction false} ComesNext(v: nat, a: State, b: State)
    requires Follows(v, a, b)
    ensures Comes(v, a, b)
  {
    hide Follows;
  }

  /** What holds at a and goes on from each place to the next holds at every place on the way. */
  lemma {:induction false} ComesIn(v: nat, a: State, b: State, k: iset<State>)
    requires Comes(v, a, b) && Kept(v, k) && a in k
    ensures b in k
  {
    hide Kept;
  }

  /** A place on the run of the machine is one on the way of its block. */
  lemma {:induction false} CodesCome(v: nat, t: Tables, last: bool, a: S, b: S)
    requires Leads(t, v, a, b)
    ensures Comes(v, InCodes(t, last, a), InCodes(t, last, b))
  {
    hide Micro, Follows;
    forall k: iset<State> | Kept(v, k) && InCodes(t, last, a) in k ensures InCodes(t, last, b) in k {
      var k2 := iset s: S | InCodes(t, last, s) in k;
      forall s: S | s in k2 ensures Micro(t, v, s) in k2 {
        CodesFollow(v, t, last, s);
        hide Kept;
        if !s.c.AtWash? { KeptOne(v, k, InCodes(t, last, s), InCodes(t, last, Micro(t, v, s))); }
      }
      assert Closed(t, v, k2);
    }
  }

  lemma {:induction false} CodesFollow(v: nat, t: Tables, last: bool, s: S)
    ensures if s.c.AtWash? then Micro(t, v, s) == s else Follows(v, InCodes(t, last, s), InCodes(t, last, Micro(t, v, s)))
  {
    hide Next;
    if s.c.AtWash? { WashStays(t, v, s); }
  }

  lemma {:induction false} WashStays(t: Tables, v: nat, s: S)
    requires s.c.AtWash?
    ensures Next(t, v, s) == s
  {
  }

  lemma {:induction false} KeptOne(v: nat, k: iset<State>, a: State, b: State)
    requires Kept(v, k) && a in k && Follows(v, a, b)
    ensures b in k
  {
    hide Follows;
  }

  lemma {:induction false} StoredComes(v: nat, a: State, n: nat)
    requires a.m.IsStored? && 0 < n <= a.m.left
    ensures Comes(v, a, AfterStored(v, a, n))
    decreases n
  {
    hide Comes, StreamBytes;
    StoredFollows(v, a);
    ComesNext(v, a, AfterStored(v, a, 1));
    if n > 1 {
      StreamBytesOn(v, a.pos, 1, n, a.hist);
      StoredComes(v, AfterStored(v, a, 1), n - 1);
      ComesOn(v, a, AfterStored(v, a, 1), AfterStored(v, a, n));
    }
  }

  lemma {:induction false} StoredFollows(v: nat, a: State)
    requires a.m.IsStored? && a.m.left > 0
    ensures Follows(v, a, AfterStored(v, a, 1))
  {
    hide AfterStored;
  }

  // ---------------------------------------------------------------- the same for all inputs

  /** b is a place on the way from a; and from both, the stream v ends in the same way, whatever its size from lim on. */
  ghost predicate Same(v: nat, lim: nat, a: State, b: State)
  {
    Comes(v, a, b) && forall size: nat :: lim <= size ==> FromState(Input(v, size), a) == FromState(Input(v, size), b)
  }

  lemma {:induction false} SameAll(v: nat, lim: nat, a: State, b: State)
    requires Comes(v, a, b) && forall size: nat :: lim <= size ==> FromState(Input(v, size), a) == FromState(Input(v, size), b)
    ensures Same(v, lim, a, b)
  {
    hide FromState, Comes;
  }

  lemma {:induction false} SameComes(v: nat, lim: nat, a: State, b: State)
    requires Same(v, lim, a, b)
    ensures Comes(v, a, b)
  {
    hide FromState, Comes;
  }

  lemma {:induction false} SameAt(v: nat, lim: nat, a: State, b: State, size: nat)
    requires Same(v, lim, a, b) && lim <= size
    ensures FromState(Input(v, size), a) == FromState(Input(v, size), b)
  {
    hide FromState, Comes;
  }

  lemma {:induction false} SameSelf(v: nat, lim: nat, a: State)
    ensures Same(v, lim, a, a)
  {
    hide FromState, Comes;
    ComesSelf(v, a);
  }

  lemma {:induction false} SameOn(v: nat, lim: nat, a: State, b: State, c: State)
    requires Same(v, lim, a, b) && Same(v, lim, b, c)
    ensures Same(v, lim, a, c)
  {
    hide FromState, Comes;
    ComesOn(v, a, b, c);
  }

  // Every step, for all inputs that hold the bits it takes.

  lemma {:induction false} TypeSame(v: nat, lim: nat, a: State, fixed: Tables)
    requires a.m.IsType? && |a.hist| >= WSIZE && Agree(fixed, FixedLengths(), FixedDistances()) && a.pos + 3 <= 8 * lim
    ensures Same(v, lim, a, AfterType(v, a, fixed))
  {
    hide *;
    forall size: nat | lim <= size ensures FromState(Input(v, size), a) == FromState(Input(v, size), AfterType(v, a, fixed)) {
      TypeStep(Input(v, size), a, fixed);
    }
    TypeFollows(v, a, fixed);
    ComesNext(v, a, AfterType(v, a, fixed));
    SameAll(v, lim, a, AfterType(v, a, fixed));
  }

  lemma {:induction false} TypeFollows(v: nat, a: State, fixed: Tables)
    requires a.m.IsType? && Agree(fixed, FixedLengths(), FixedDistances())
    ensures Follows(v, a, AfterType(v, a, fixed))
  {
    hide Agree, FixedLengths, FixedDistances, Low, Shr, Pad;
  }

  lemma {:induction false} LensSameHere(v: nat, lim: nat, a: State)
    requires a.m.IsLens? && a.pos + 32 <= 8 * lim
    ensures Same(v, lim, a, AfterLens(v, a))
  {
    hide *;
    forall size: nat | lim <= size ensures FromState(Input(v, size), a) == FromState(Input(v, size), AfterLens(v, a)) {
      LensStep(Input(v, size), a);
    }
    LensFollows(v, a);
    ComesNext(v, a, AfterLens(v, a));
    SameAll(v, lim, a, AfterLens(v, a));
  }

  lemma {:induction false} LensFollows(v: nat, a: State)
    requires a.m.IsLens?
    ensures Follows(v, a, AfterLens(v, a))
  {
    hide AfterLens;
  }

  lemma {:induction false} StoredSameHere(v: nat, lim: nat, a: State, n: nat)
    requires a.m.IsStored? && 0 < n <= a.m.left && a.pos + 8 * n <= 8 * lim
    ensures Same(v, lim, a, AfterStored(v, a, n))
  {
    hide *;
    forall size: nat | lim <= size ensures FromState(Input(v, size), a) == FromState(Input(v, size), AfterStored(v, a, n)) {
      StoredStep(Input(v, size), a, n);
    }
    StoredComes(v, a, n);
    SameAll(v, lim, a, AfterStored(v, a, n));
  }

  lemma {:induction false} TableSameHere(v: nat, lim: nat, a: State)
    requires a.m.IsTable? && a.pos + 14 <= 8 * lim
    ensures Same(v, lim, a, AfterTable(v, a))
  {
    hide *;
    forall size: nat | lim <= size ensures FromState(Input(v, size), a) == FromState(Input(v, size), AfterTable(v, a)) {
      TableStep(Input(v, size), a);
    }
    TableFollows(v, a);
    ComesNext(v, a, AfterTable(v, a));
    SameAll(v, lim, a, AfterTable(v, a));
  }

  lemma {:induction false} TableFollows(v: nat, a: State)
    requires a.m.IsTable?
    ensures Follows(v, a, AfterTable(v, a))
  {
    hide AfterTable;
  }

  lemma {:induction false} BtreeSame(v: nat, lim: nat, a: State)
    requires a.m.IsBtree? && 3 * a.m.index <= a.pos && TableOk(a.m.table) && a.m.index < Hclen(a.m.table) + 4
    ensures Same(v, lim, a, State(IsBtree(a.m.table, a.m.index + 1), a.last, a.pos + 3, a.hist))
  {
    hide *;
    var b := State(IsBtree(a.m.table, a.m.index + 1), a.last, a.pos + 3, a.hist);
    forall size: nat | lim <= size ensures FromState(Input(v, size), a) == FromState(Input(v, size), b) {
      BtreeStep(Input(v, size), a);
    }
    BtreeFollows(v, a);
    ComesNext(v, a, b);
    SameAll(v, lim, a, b);
  }

  lemma {:induction false} BtreeFollows(v: nat, a: State)
    requires a.m.IsBtree? && 3 * a.m.index <= a.pos && TableOk(a.m.table) && a.m.index <= Hclen(a.m.table) + 4
    ensures a.m.index <= 19
    ensures if a.m.index < Hclen(a.m.table) + 4 then Follows(v, a, State(IsBtree(a.m.table, a.m.index + 1), a.last, a.pos + 3, a.hist))
            else var cl := ReadClLens(v, a.pos - 3 * a.m.index, a.m.index); ValidLens(cl) && Follows(v, a, AfterBtree(a, cl))
  {
    TableParts(a.m.table);
    hide TableOk, Hclen, ReadClLens, ValidLens, AfterBtree;
    ClSmall(v, a.pos - 3 * a.m.index, a.m.index);
  }

  lemma {:induction false} BtreeDoneSame(v: nat, lim: nat, a: State, cl: seq<nat>)
    requires a.m.IsBtree? && TableOk(a.m.table) && a.m.index == Hclen(a.m.table) + 4 <= 19 && 3 * a.m.index <= a.pos <= 8 * lim
    requires cl == ReadClLens(v, a.pos - 3 * a.m.index, a.m.index)
    ensures |cl| == 19 && ValidLens(cl) && Same(v, lim, a, AfterBtree(a, cl))
  {
    hide FromState, Hclen, TableOk, ReadClLens, ValidLens, Accepted;
    BtreeDone(Input(v, lim), a, cl);
    forall size: nat | lim <= size ensures FromState(Input(v, size), a) == FromState(Input(v, size), AfterBtree(a, cl)) {
      BtreeDone(Input(v, size), a, cl);
    }
    BtreeFollows(v, a);
    hide Comes;
    ComesNext(v, a, AfterBtree(a, cl));
  }

  lemma {:induction false} LengthSame(v: nat, lim: nat, a: State, c: nat, n: nat)
    requires InDtree(a) && a.pos + Longest(a.m.cl) <= 8 * lim && (c >= 16 ==> a.pos + n + RepBits(c) <= 8 * lim)
    requires c == ClSym(a.m.cl, Shr(v, a.pos)) && n == ClUsed(a.m.cl, Shr(v, a.pos))
    ensures a.m.IsDtree? && Same(v, lim, a, AfterLength(v, a, c, n))
  {
    DtreeIs(a);
    hide *;
    forall size: nat | lim <= size ensures FromState(Input(v, size), a) == FromState(Input(v, size), AfterLength(v, a, c, n)) {
      LengthStep(Input(v, size), a);
    }
    LengthFollows(v, a);
    ComesNext(v, a, AfterLength(v, a, c, n));
    SameAll(v, lim, a, AfterLength(v, a, c, n));
  }

  lemma {:induction false} LengthFollows(v: nat, a: State)
    requires InDtree(a)
    ensures a.m.IsDtree? && Follows(v, a, AfterLength(v, a, ClSym(a.m.cl, Shr(v, a.pos)), ClUsed(a.m.cl, Shr(v, a.pos))))
  {
    hide AfterLength, ClSym, ClUsed, Shr, ValidLens, TableOk, Hlit, Hdist;
  }

  lemma {:induction false} DtreeIs(a: State)
    requires InDtree(a)
    ensures a.m.IsDtree?
  {
  }

  /** A state that ends as r says in every input from lim on. */
  ghost predicate Surely(v: nat, lim: nat, a: State, r: Finish)
  {
    forall size: nat :: lim <= size ==> FromState(Input(v, size), a) == r
  }

  lemma {:induction false} SurelyOn(v: nat, lim: nat, a: State, b: State, r: Finish)
    requires Same(v, lim, a, b) && Surely(v, lim, b, r)
    ensures Surely(v, lim, a, r)
  {
    hide FromState, Comes;
  }

  /** What the code lengths of a dynamic block lead to. */
  lemma {:induction false} DtreeDoneSame(v: nat, lim: nat, a: State, t: Tables)
    requires a.m.IsDtree? && TableOk(a.m.table) && |a.m.cl| == 19 && ValidLens(a.m.acc) && |a.hist| >= WSIZE
    requires |a.m.acc| == 258 + Hlit(a.m.table) + Hdist(a.m.table)
    ensures var nl := 257 + Hlit(a.m.table); var lit, dist := a.m.acc[..nl], a.m.acc[nl..];
            ValidLens(lit) && ValidLens(dist)
            && match TreesVerdict(lit, dist)
               case TreesBad => Same(v, lim, a, State(IsBad, a.last, a.pos, a.hist))
               case TreesFull => Surely(v, lim, a, NoSpace(a.pos, a.hist))
               case TreesOk => Agree(t, lit, dist) ==> Same(v, lim, a, State(IsCodes(t, AtStart), a.last, a.pos, a.hist))
  {
    hide FromCodes, TreesVerdict, Agree, Hlit, Hdist, TableOk, ValidLens, AfterCodes, Run, FromLengths, Comes;
    DtreeDone(Input(v, lim), a);
    DtreeComes(v, a, t);
    var nl := 257 + Hlit(a.m.table);
    var lit, dist := a.m.acc[..nl], a.m.acc[nl..];
    match TreesVerdict(lit, dist)
    case TreesBad =>
      forall size: nat | lim <= size ensures FromState(Input(v, size), a) == Faulty(a.pos, a.hist) {
        DtreeDone(Input(v, size), a);
      }
      assert Same(v, lim, a, State(IsBad, a.last, a.pos, a.hist));
    case TreesFull =>
      forall size: nat | lim <= size ensures FromState(Input(v, size), a) == NoSpace(a.pos, a.hist) {
        DtreeDone(Input(v, size), a);
      }
    case TreesOk =>
      if Agree(t, lit, dist) {
        forall size: nat | lim <= size
          ensures FromState(Input(v, size), a) == FromState(Input(v, size), State(IsCodes(t, AtStart), a.last, a.pos, a.hist))
        {
          DtreeDone(Input(v, size), a);
          CodesSame(Input(v, size), a.last, t, lit, dist, a.pos, a.hist);
        }
      }
  }

  lemma {:induction false} DtreeComes(v: nat, a: State, t: Tables)
    requires DtreeFull(a)
    ensures a.m.IsDtree? && 257 + Hlit(a.m.table) <= |a.m.acc| && Comes(v, a, State(IsBad, a.last, a.pos, a.hist))
    ensures var nl := 257 + Hlit(a.m.table);
            Agree(t, a.m.acc[..nl], a.m.acc[nl..]) ==> Comes(v, a, State(IsCodes(t, AtStart), a.last, a.pos, a.hist))
  {
    hide Comes, Agree, ValidLens, Hlit, Hdist, TableOk;
    var nl := 257 + Hlit(a.m.table);
    ComesNext(v, a, State(IsBad, a.last, a.pos, a.hist));
    if Agree(t, a.m.acc[..nl], a.m.acc[nl..]) { ComesNext(v, a, State(IsCodes(t, AtStart), a.last, a.pos, a.hist)); }
  }

  lemma {:induction false} CodesEndSame(v: nat, lim: nat, t: Tables, last: bool, pos: nat, hist: seq<byte>)
    ensures Same(v, lim, State(IsCodes(t, AtWash), last, pos, hist), NextBlock(last, pos, hist))
    ensures Surely(v, lim, State(IsCodes(t, AtBad), last, pos, hist), Faulty(pos, hist))
  {
    hide FromState, NextBlock, Comes;
    ComesNext(v, State(IsCodes(t, AtWash), last, pos, hist), NextBlock(last, pos, hist));
    forall size: nat | lim <= size
      ensures FromState(Input(v, size), State(IsCodes(t, AtWash), last, pos, hist)) == FromState(Input(v, size), NextBlock(last, pos, hist))
      ensures FromState(Input(v, size), State(IsCodes(t, AtBad), last, pos, hist)) == Faulty(pos, hist)
    {
      CodesEnd(Input(v, size), t, last, pos, hist);
    }
  }

  lemma {:induction false} SurelyFor(v: nat, lim: nat, a: State, r: Finish, size: nat)
    requires Surely(v, lim, a, r) && lim <= size
    ensures FromState(Input(v, size), a) == r
  {
    hide FromState;
  }

  lemma {:induction false} SurelyAt(v: nat, lim: nat, a: State, r: Finish)
    requires Surely(v, lim, a, r)
    ensures FromState(Input(v, lim), a) == r
  {
    hide FromState;
  }

  /** What holds for all inputs from one size on holds from a larger one on. */
  lemma {:induction false} SameLater(v: nat, lim: nat, lim2: nat, a: State, b: State)
    requires Same(v, lim, a, b) && lim <= lim2
    ensures Same(v, lim2, a, b)
  {
    hide FromState, Comes;
  }

  // ---------------------------------------------------------------- blocks that end before a byte of the input

  /** The first b bytes of the input hold the end of the block of codes, and eight bits or more after it. */
  ghost predicate EndsBack(v: nat, b: nat, a: State)
  {
    a.m.IsCodes? && var g := Run(a.m.t, v, b, S(a.m.c, a.pos, a.hist)); g.c.AtWash? && g.pos + 8 <= 8 * b
  }

  /** From here on no block of codes ends eight bits or more before byte b of the input, but for the last block. */
  ghost predicate Past(v: nat, b: nat, a: State)
  {
    match a.m
    case IsLens => a.pos + 40 > 8 * b
    case IsTable => a.pos + 22 > 8 * b
    case IsDtree(_, cl, _) =>
      a.pos + 8 > 8 * b
      || (InDtree(a)
          && var w := Shr(v, a.pos); ClSym(cl, w) >= 16 && a.pos + ClUsed(cl, w) + RepBits(ClSym(cl, w)) + 8 > 8 * b)
    case IsCodes(_, _) => a.last || !EndsBack(v, b, a)
    case IsDry => true
    case IsBad => true
    case _ => a.pos + 8 > 8 * b
  }

  /** A block of codes has tables that its machine can follow. */
  ghost predicate Sound(v: nat, a: State)
  {
    |a.hist| >= WSIZE && (a.m.IsCodes? ==> TablesOk(a.m.t) && Healthy(a.m.t, v, S(a.m.c, a.pos, a.hist)))
  }

  lemma {:induction false} EndsBackMore(v: nat, b: nat, c: nat, a: State)
    requires EndsBack(v, b, a) && b <= c
    ensures EndsBack(v, c, a)
  {
    RunFinal(a.m.t, v, b, c, S(a.m.c, a.pos, a.hist));
    hide Run;
  }

  lemma {:induction false} MicroBack(v: nat, b: nat, t: Tables, last: bool, s: S)
    requires Sound(v, InCodes(t, last, s)) && EndsBack(v, b, InCodes(t, last, Micro(t, v, s)))
    ensures EndsBack(v, b, InCodes(t, last, s))
  {
    hide Run, Micro, Next, TablesOk, Healthy, Need;
    var s2 := Micro(t, v, s);
    if Moves(b, s) {
      RunMicro(t, v, b, s);
    } else if Final(s.c) {
      FinalStays(t, v, s);
    } else {
      StepFar(t, v, b, s);
      RunGrows(t, v, b, s2);
    }
  }

  lemma {:induction false} FinalStays(t: Tables, v: nat, s: S)
    requires Final(s.c)
    ensures Micro(t, v, s) == s
  {
    hide Low, Shr;
  }

  lemma {:induction false} PastCodes(v: nat, b: nat, a: State, a2: State)
    requires a.m.IsCodes? && Sound(v, a) && Past(v, b, a) && Follows(v, a, a2)
    ensures Sound(v, a2) && Past(v, b, a2)
  {
    hide Run, Micro, TablesOk, Healthy;
    var t, s := a.m.t, S(a.m.c, a.pos, a.hist);
    assert a == InCodes(t, a.last, s);
    if a.m.c.AtWash? {
      RunRests(t, v, b, s);
    } else {
      HealthyMicro(t, v, s);
      MicroHist(t, v, s);
      if EndsBack(v, b, a2) { MicroBack(v, b, t, a.last, s); }
    }
  }

  lemma {:induction false} MicroHist(t: Tables, v: nat, s: S)
    ensures s.hist <= Micro(t, v, s).hist
  {
    hide Low, Shr, AfterLen, AfterDist;
  }

  lemma {:induction false} StartsPast(v: nat, b: nat, t: Tables, lit: seq<nat>, dist: seq<nat>, last: bool, pos: nat, hist: seq<byte>)
    requires Agree(t, lit, dist) && |hist| >= WSIZE && pos + 8 > 8 * b
    ensures Sound(v, State(IsCodes(t, AtStart), last, pos, hist)) && Past(v, b, State(IsCodes(t, AtStart), last, pos, hist))
  {
    AgreeOk(t, lit, dist);
    RunGrows(t, v, b, S(AtStart, pos, hist));
    hide Run, Agree, TablesOk;
  }

  lemma {:induction false} PastDtree(v: nat, b: nat, a: State, a2: State)
    requires a.m.IsDtree? && Sound(v, a) && Past(v, b, a) && FollowsDtree(v, a, a2)
    ensures Sound(v, a2) && Past(v, b, a2)
  {
    hide EndsBack, Agree, TablesOk, Healthy, ClSym, ClUsed, RepBits, Shr, Low, Hlit, Hdist, TableOk, Times, ValidLens;
    if !InDtree(a) && a2.m.IsCodes? {
      var nl := 257 + Hlit(a.m.table);
      StartsPast(v, b, a2.m.t, a.m.acc[..nl], a.m.acc[nl..], a.last, a.pos, a.hist);
    }
  }

  lemma {:induction false} PastType(v: nat, b: nat, a: State, a2: State)
    requires a.m.IsType? && Sound(v, a) && Past(v, b, a) && Follows(v, a, a2)
    ensures Sound(v, a2) && Past(v, b, a2)
  {
    hide EndsBack, Agree, TablesOk, Healthy, Shr, Low, Pad, FixedLengths, FixedDistances;
    if a2.m.IsCodes? { StartsPast(v, b, a2.m.t, FixedLengths(), FixedDistances(), a2.last, a.pos + 3, a.hist); }
  }

  lemma {:induction false} PastOther(v: nat, b: nat, a: State, a2: State)
    requires !a.m.IsType? && !a.m.IsCodes? && !a.m.IsDtree? && Sound(v, a) && Past(v, b, a) && Follows(v, a, a2)
    ensures Sound(v, a2) && Past(v, b, a2)
  {
    hide EndsBack, Agree, TablesOk, Healthy, ClSym, ClUsed, Shr, Low, Accepted, ReadClLens, StreamBytes, Hlit, Hdist, Hclen, TableOk, InDtree, ValidLens;
  }

  lemma {:induction false} PastNext(v: nat, b: nat, a: State, a2: State)
    requires Sound(v, a) && Past(v, b, a) && Follows(v, a, a2)
    ensures Sound(v, a2) && Past(v, b, a2)
  {
    match a.m
    case IsType => PastType(v, b, a, a2);
    case IsCodes(_, _) => PastCodes(v, b, a, a2);
    case IsDtree(_, _, _) =>
      hide Sound, Past, FollowsDtree;
      PastDtree(v, b, a, a2);
    case _ => PastOther(v, b, a, a2);
  }

  /** What is past stays past. */
  lemma {:induction false} PastOn(v: nat, b: nat, a: State, a2: State)
    requires Sound(v, a) && Past(v, b, a) && Comes(v, a, a2)
    ensures Sound(v, a2) && Past(v, b, a2)
  {
    var k := iset x: State | Sound(v, x) && Past(v, b, x);
    hide Sound, Past, Follows, Comes;
    forall x, y | x in k && Follows(v, x, y) ensures y in k {
      PastNext(v, b, x, y);
    }
    ComesIn(v, a, a2, k);
  }

  /** Where the first b bytes of the input are not enough, it is past them. */
  lemma {:induction false} LacksPast(v: nat, b: nat, a: State)
    requires Lacks(Input(v, b), a) && Sound(v, a) && (a.m.IsDtree? ==> Longest(a.m.cl) <= 7)
    ensures Past(v, b, a)
  {
    hide TablesOk, Healthy, ClSym, ClUsed, Shr, Run, RepBits, TableOk, Hclen, Longest;
    match a.m
    case IsCodes(t, c) => RunRests(t, v, b, S(c, a.pos, a.hist));
    case _ =>
  }

  /** Where the caller's input buffer begins; whether WASH has stepped to before it; and whether a block is still to be read from
      there. */
  datatype Place = Place(base: nat, under: bool, astray: bool)

  /** WASH will step to before the input buffer, in a block that is not the last one. */
  ghost predicate CaughtAt(v: nat, p: Place, a: State)
  {
    !p.astray && !p.under && !a.last && EndsBack(v, p.base, a)
  }

  /** It will not. */
  ghost predicate CalmAt(v: nat, p: Place, a: State)
  {
    !p.astray && if p.under then LastOver(a) else Past(v, p.base, a)
  }

  /** The last block is over, at least its codes. */
  predicate LastOver(a: State)
  {
    a.last && (a.m.IsDry? || (a.m.IsCodes? && a.m.c.AtWash?))
  }

  lemma {:induction false} OverOn(v: nat, a: State, a2: State)
    requires LastOver(a) && Comes(v, a, a2)
    ensures LastOver(a2)
  {
    var k := iset x: State | LastOver(x);
    hide Comes, Micro;
    assert Kept(v, k);
    ComesIn(v, a, a2, k);
  }

  lemma {:induction false} CalmOn(v: nat, p: Place, a: State, a2: State)
    requires CalmAt(v, p, a) && Sound(v, a) && Comes(v, a, a2)
    ensures CalmAt(v, p, a2)
  {
    hide Past, LastOver, Sound, Comes;
    if p.under { OverOn(v, a, a2); } else { PastOn(v, p.base, a, a2); }
  }

  /** What comes of a place p at the state a by the time of the place p2 at the state a2; lost tells that the blocks have been given up. */
  ghost predicate Turns(v: nat, p: Place, a: State, p2: Place, a2: State, lost: bool)
  {
    (p == Place(0, false, false) ==> p2 == p) && (p.astray ==> p2.astray) && (!p2.under ==> p2.base == p.base)
    && (p.under ==> p2.under)
    && (CalmAt(v, p, a) ==> !p2.astray && (lost || CalmAt(v, p2, a2)))
    && (CaughtAt(v, p, a) ==> p2.astray || (!lost && CaughtAt(v, p2, a2)))
  }

  lemma {:induction false} TurnsOn(v: nat, p: Place, a: State, p1: Place, a1: State, p2: Place, a2: State, lost: bool)
    requires Turns(v, p, a, p1, a1, false) && Turns(v, p1, a1, p2, a2, lost)
    ensures Turns(v, p, a, p2, a2, lost)
  {
    hide CalmAt, CaughtAt;
  }

  lemma {:induction false} TurnsSelf(v: nat, p: Place, a: State)
    ensures Turns(v, p, a, p, a, false)
  {
    hide Past, LastOver, EndsBack;
  }

  /** Outside of the codes of a block nothing turns. */
  lemma {:induction false} TurnsSteady(v: nat, p: Place, a: State, a2: State, lost: bool)
    requires !a.m.IsCodes? && Sound(v, a) && (lost || Comes(v, a, a2))
    ensures Turns(v, p, a, p, a2, lost)
  {
    hide Past, LastOver, Sound, Comes;
    if CalmAt(v, p, a) && !lost { CalmOn(v, p, a, a2); }
  }

  /** The place after inflate_codes has left its machine at s. */
  function Slip(p: Place, last: bool, s: S): Place
  {
    var back := s.c.AtWash? && s.pos + 8 <= 8 * p.base;
    var under := p.under || back;
    Place(if back then p.base - 1 else p.base, under, p.astray || (under && !last))
  }

  /** A call of inflate_codes takes the machine from s0 to s. */
  lemma {:induction false} CodesFate(v: nat, lim: nat, p: Place, t: Tables, last: bool, s0: S, s: S)
    requires Sound(v, InCodes(t, last, s0)) && Healthy(t, v, s) && Leads(t, v, s0, s) && Run(t, v, lim, s0) == Run(t, v, lim, s) && p.base <= lim
    ensures Turns(v, p, InCodes(t, last, s0), Slip(p, last, s), InCodes(t, last, s), false)
    ensures CaughtAt(v, p, InCodes(t, last, s0)) ==> (s.c.AtWash? ==> Slip(p, last, s).astray) && !s.c.AtBad?
  {
    hide TablesOk, Healthy, Leads, Run, Comes, Past;
    CodesCome(v, t, last, s0, s);
    var a0, a := InCodes(t, last, s0), InCodes(t, last, s);
    if CalmAt(v, p, a0) {
      CalmOn(v, p, a0, a);
      if s.c.AtWash? && s.pos + 8 <= 8 * p.base { PastWash(v, p, t, last, s); }
    }
    if CaughtAt(v, p, a0) {
      RunFinal(t, v, p.base, lim, s0);
      RunBack(t, v, p.base, lim, s);
      if Final(s.c) { RunRests(t, v, p.base, s); }
    }
  }

  lemma {:induction false} PastWash(v: nat, p: Place, t: Tables, last: bool, s: S)
    requires CalmAt(v, p, InCodes(t, last, s)) && s.c.AtWash? && s.pos + 8 <= 8 * p.base
    ensures last && LastOver(InCodes(t, last, s))
  {
    RunRests(t, v, p.base, s);
    hide Run;
  }

  /** The block of codes is over, and the next one begins. */
  lemma {:induction false} OverTurns(v: nat, p: Place, a: State, p2: Place, mid: State, a2: State)
    requires Turns(v, p, a, p2, mid, false) && (CaughtAt(v, p, a) ==> p2.astray) && Sound(v, mid)
    requires mid.m.IsCodes? && mid.m.c.AtWash? && a2 == NextBlock(mid.last, mid.pos, mid.hist)
    ensures Turns(v, p, a, p2, a2, false)
  {
    ComesNext(v, mid, a2);
    hide Past, LastOver, Sound, Comes, CaughtAt;
    if CalmAt(v, p2, mid) { CalmOn(v, p2, mid, a2); }
  }

  /** It is one or the other. */
  lemma {:induction false} NotBoth(v: nat, p: Place, a: State)
    ensures !CaughtAt(v, p, a) || !CalmAt(v, p, a)
  {
    hide Run;
  }

  lemma {:induction false} NewPlace(v: nat, p: Place, a: State)
    requires !p.under
    ensures !p.astray && !a.last && EndsBack(v, p.base, a) ==> CaughtAt(v, p, a) && !CalmAt(v, p, a)
    ensures !p.astray && (a.last || !EndsBack(v, p.base, a)) && Past(v, p.base, a) ==> CalmAt(v, p, a) && !CaughtAt(v, p, a)
  {
    NotBoth(v, p, a);
    hide EndsBack, Past;
  }

  /** Where the input there is, of size bytes, is not enough, the block of codes at hand does not end in it; nor does it end with an error. */
  lemma {:induction false} LacksEnd(v: nat, size: nat, b: nat, a: State)
    requires b <= size && EndsBack(v, b, a)
    ensures !Lacks(Input(v, size), a) && a.m.IsCodes? && !a.m.c.AtBad? && EndsBack(v, size, a)
  {
    var s := S(a.m.c, a.pos, a.hist);
    EndsBackMore(v, b, size, a);
    hide Moves;
    if !Moves(size, s) { RunRests(a.m.t, v, size, s); }
    hide Run;
  }
}
