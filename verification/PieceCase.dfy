/** An entry whose data are read in two pieces, of which inflate reads a byte before the second one. */
module PieceCase {
  import opened Bits
  import opened BitStream
  import opened Canonical
  import opened HuftSpec
  import opened HuftBuild
  import opened HuftSpace
  import opened Deflate
  import opened DeflateStream
  import opened InflateSpec
  import opened InflateTokens
  import opened InflateTrees
  import opened InflateBlocksSpec
  import opened InflateBlockSteps
  import opened InflateRoundTrip
  import opened SpareByte
  import opened Window
  import opened BitBuffer
  import opened Inflate
  import opened InflateBlocks
  import opened Entry

  // ---------------------------------------------------------------- the blocks

  /** Zero bytes of one bit each in the first block. */
  const MANYZEROS: nat := 130954

  /** The lengths of the code length code: symbols 1 and 18 have two bits, 2 to 5 three. */
  const CL: seq<nat> := [0, 2, 3, 3, 3, 3, 0, 0, 0, 0, 0, 0, 0, 0, 0, 0, 0, 0, 2]

  /** The literal 0 has one bit, the end of the block two; four others have up to five. */
  function Lits(): seq<nat>
  {
    [1, 3, 4, 5, 5] + Times(0, 251) + [2]
  }

  function Dists(): seq<nat>
  {
    [1]
  }

  /** The items that spell them. */
  const OPS: seq<Op> := [Len(1), Len(3), Len(4), Len(5), Len(5), ManyZeros(127), ManyZeros(102), Len(2), Len(1)]

  function Head(): Header
  {
    Header(CL, 18, Lits(), Dists(), OPS)
  }

  function ZeroToks(n: nat): seq<Tok>
  {
    seq(n, _ => Lit(0))
  }

  /** The zeros. */
  function First(): Block
  {
    Dynamic(Head(), ZeroToks(MANYZEROS))
  }

  /** And an empty last block. */
  function TwoBlocks(): seq<Block>
  {
    [First(), Fixed([])]
  }

  lemma {:induction false} Powers()
    ensures Pow2(11) == 2048 && Pow2(12) == 4096 && Pow2(13) == 8192 && Pow2(14) == 16384 && Pow2(15) == 32768 && SPACE == 65536
  {
    Pow2Values();
    MorePowers();
  }

  lemma {:induction false} ClKraft()
    ensures ValidLens(CL) && Kraft(CL) == SPACE
  {
    Powers();
    hide Pow2, Kraft, Times;
    assert ValidLens([]) && Kraft([]) == 0 by { KraftNone(); }
    KraftPad([], Times(0, 1));
    var a0 := [] + Times(0, 1);
    KraftOne(a0, 2);
    KraftOne(a0 + [2], 3);
    KraftOne(a0 + [2] + [3], 3);
    KraftOne(a0 + [2] + [3] + [3], 3);
    KraftOne(a0 + [2] + [3] + [3] + [3], 3);
    var a1 := a0 + [2] + [3] + [3] + [3] + [3];
    KraftPad(a1, Times(0, 12));
    KraftOne(a1 + Times(0, 12), 2);
    assert CL == a1 + Times(0, 12) + [2];
  }

  lemma {:induction false} LitsKraft()
    ensures ValidLens(Lits()) && Kraft(Lits()) == SPACE && |Lits()| == 257
    ensures ValidLens(Dists()) && Kraft(Dists()) == 0x8000
  {
    Powers();
    hide Pow2, Kraft, Times;
    assert ValidLens([]) && Kraft([]) == 0 by { KraftNone(); }
    KraftOne([], 1);
    assert [] + [1] == [1];
    KraftOne([1], 3);
    KraftOne([1] + [3], 4);
    KraftOne([1] + [3] + [4], 5);
    KraftOne([1] + [3] + [4] + [5], 5);
    var a := [1] + [3] + [4] + [5] + [5];
    KraftPad(a, Times(0, 251));
    KraftOne(a + Times(0, 251), 2);
    assert Lits() == a + Times(0, 251) + [2];
  }

  lemma {:induction false} LitsAre()
    ensures |Lits()| == 257 && Lits()[0] == 1 && Lits()[3] == 5 && Lits()[256] == 2 && forall i :: 0 <= i < 257 ==> Lits()[i] <= 5
  {
  }

  lemma {:induction false} Bounds5(l: seq<nat>)
    requires |l| > 3 && l[0] == 1 && l[3] == 5 && forall i :: 0 <= i < |l| ==> l[i] <= 5
    ensures Longest(l) == 5 && RootBits(l, 9) == 5 && !NoCodes(l)
  {
    hide Longest, Shortest;
    assert l[3] <= Longest(l);
    assert Shortest(l) <= l[0];
  }

  lemma {:induction false} OthersAre()
    ensures Longest(Dists()) == 1 && !NoCodes(Dists()) && Longest(CL) <= 7 && !NoCodes(CL)
  {
    hide Longest;
    assert Dists()[0] <= Longest(Dists());
    if Longest(CL) > 0 { assert Longest(CL) in CL; }
    assert CL[1] == 2;
  }

  lemma {:induction false} AllOk()
    ensures EachOk(CL, OPS) && |OPS| == 9
  {
    hide Spelled;
  }

  lemma {:induction false} FirstSpelled()
    ensures Spelled(OPS, 5) == [1, 3, 4, 5, 5]
  {
    assert |OPS| == 9 && Spelled(OPS, 0) == [];
    hide Spelled;
    SpelledNext(OPS, 0);
    SpelledNext(OPS, 1);
    SpelledNext(OPS, 2);
    SpelledNext(OPS, 3);
    SpelledNext(OPS, 4);
  }

  lemma {:induction false} CostIs()
    ensures |OPS| == 9 && (forall j :: 0 <= j < 9 ==> OpSym(OPS[j]) < 19) && OpsCost(CL, OPS, 0) == 37
  {
    assert OpsCost(CL, OPS, 6) == 9 + 3 + 2;
    assert OpsCost(CL, OPS, 3) == 3 + 3 + 9 + OpsCost(CL, OPS, 6);
  }

  lemma {:induction false} AllSpelled()
    ensures |OPS| == 9 && Spelled(OPS, 9) == Lits() + Dists()
  {
    FirstSpelled();
    hide Spelled, Times;
    ZeroRuns(Spelled(OPS, 5));
    SpelledNext(OPS, 5);
    SpelledNext(OPS, 6);
    SpelledNext(OPS, 7);
    SpelledNext(OPS, 8);
    assert Spelled(OPS, 9) == Spelled(OPS, 7) + [2] + [1];
  }

  lemma {:induction false} ZeroRuns(a: seq<nat>)
    ensures OpRun(OpRun(a, ManyZeros(127)), ManyZeros(102)) == a + Times(0, 251)
  {
  }

  lemma {:induction false} HeadOps()
    ensures OpsOk(CL, [], OPS, Lits() + Dists()) && |OpsBits(CL, [], OPS, Lits() + Dists())| == 37
  {
    AllOk();
    CostIs();
    SpelledOk(CL, OPS, 0);
    AllSpelled();
    assert Spelled(OPS, 0) == [];
    hide OpsOk, OpsBits, Lits, OPS, Spelled;
    assert OPS[0..] == OPS;
  }

  lemma {:induction false} HeadIsOk()
    ensures HeaderOk(Head()) && |HeaderBits(Head())| == 105
  {
    hide Kraft, OpsOk, OpsBits, Lits, Longest, ClBits, OPS, ValidLens, SPACE, CL, Zag;
    ClFacts();
    ClKraft();
    LitsKraft();
    HeadOps();
    Powers();
    assert ClValid(CL);
  }

  lemma {:induction false} ClFacts()
    ensures |CL| == 19 && (forall i :: 0 <= i < 19 ==> CL[i] < 8) && CL[Zag(18)] == 0
  {
  }

  lemma {:induction false} HeadAccepted()
    ensures ValidLens(CL) && ValidLens(Lits()) && ValidLens(Dists()) && Accepted(CL) && BothAccepted(Lits(), Dists())
  {
    ClKraft();
    LitsKraft();
    OthersAre();
    LitsAre();
    Bounds5(Lits());
    Powers();
    hide Kraft, Lits, Longest, NoCodes, RootBits;
  }

  lemma {:induction false} ZerosOk(n: nat, m: nat, out: seq<byte>)
    ensures ToksOk(Lits(), Dists(), m, ZeroToks(n)) && |Lits()| == 257 && |ToksBits(Lits(), Dists(), m, ZeroToks(n))| == n + 2
    ensures m == |out| ==> Expand(Lits(), Dists(), out, ZeroToks(n)) == out + Times(0, n)
    decreases n
  {
    LitsAre();
    hide Lits, CodeBits;
    if n > 0 {
      assert ZeroToks(n)[1..] == ZeroToks(n - 1);
      if m == |out| {
        ZerosOk(n - 1, m + 1, out + [0]);
        assert out + [0] + Times(0, n - 1) == out + Times(0, n);
      } else {
        ZerosOk(n - 1, m + 1, []);
      }
    }
  }

  /** A stream of two blocks. */
  ghost function PairBits(b0: Block, b1: Block): seq<bool>
    requires BlockOk(0, b0) && BlockOk(|ExpandBlock([], b0)|, b1)
  {
    var head := LsbBits(0, 1) + (LsbBits(Kind(b0), 2) + BodyBits(3, 0, b0));
    head + (LsbBits(1, 1) + (LsbBits(Kind(b1), 2) + BodyBits(|head| + 3, |ExpandBlock([], b0)|, b1)))
  }

  lemma {:induction false} TwoUnfold(b0: Block, b1: Block)
    requires BlockOk(0, b0) && BlockOk(|ExpandBlock([], b0)|, b1)
    ensures BlocksOk([], [b0, b1]) && ExpandBlocks([], [b0, b1]) == ExpandBlock(ExpandBlock([], b0), b1)
    ensures StreamBits(0, [], [b0, b1]) == PairBits(b0, b1)
  {
    hide BlockOk, ExpandBlock, BodyBits, LsbBits, Kind;
    var out := ExpandBlock([], b0);
    assert [b0, b1][1..] == [b1];
    assert [b1][1..] == [];
    var head := LsbBits(0, 1) + (LsbBits(Kind(b0), 2) + BodyBits(3, 0, b0));
    var head1 := LsbBits(1, 1) + (LsbBits(Kind(b1), 2) + BodyBits(|head| + 3, |out|, b1));
    EndOfStream(|head| + |head1|, ExpandBlock(out, b1), [b1][1..]);
    assert head1 + [] == head1;
  }

  lemma {:induction false} FirstOk()
    ensures BlockOk(0, First()) && Strict(First()) && ExpandBlock([], First()) == Times(0, MANYZEROS)
    ensures |BodyBits(3, 0, First())| == 131061
    ensures HeaderOk(Head()) && ToksOk(Lits(), Dists(), 0, ZeroToks(MANYZEROS)) && |Lits()| == 257
            && BodyBits(3, 0, First()) == HeaderBits(Head()) + ToksBits(Lits(), Dists(), 0, ZeroToks(MANYZEROS))
  {
    hide ZeroToks, HeaderOk, HeaderBits, Lits, Times, ToksBits, ToksOk, Expand, Accepted, BothAccepted, CL, OPS;
    HeadIsOk();
    HeadAccepted();
    LitsAre();
    ZerosOk(MANYZEROS, 0, []);
    assert [] + Times(0, MANYZEROS) == Times(0, MANYZEROS);
  }

  lemma {:induction false} EmptyBlock(pos: nat, n: nat, out: seq<byte>)
    ensures BlockOk(n, Fixed([])) && |BodyBits(pos, n, Fixed([]))| == 7 && Strict(Fixed([]))
    ensures ExpandBlock(out, Fixed([])) == out
  {
    FixedOk();
    assert |FixedLengths()| == 288 && FixedLengths()[256] == 7;
    hide FixedDistances, FixedLengths;
  }

  lemma {:induction false} TwoOk()
    ensures var bs := TwoBlocks();
            BlocksOk([], bs) && (forall b :: b in bs ==> Strict(b)) && ExpandBlocks([], bs) == Times(0, MANYZEROS)
            && BlockOk(0, First()) && BlockOk(|ExpandBlock([], First())|, Fixed([]))
            && StreamBits(0, [], bs) == PairBits(First(), Fixed([])) && |StreamBits(0, [], bs)| == 131074
  {
    hide *;
    TwoIs();
    FirstOk();
    var n := |ExpandBlock([], First())|;
    EmptyBlock(131067, n, Times(0, MANYZEROS));
    TwoUnfold(First(), Fixed([]));
    PairSize(First(), Fixed([]));
  }

  lemma {:induction false} TwoIs()
    ensures TwoBlocks() == [First(), Fixed([])]
  {
  }

  lemma {:induction false} PairSize(b0: Block, b1: Block)
    requires BlockOk(0, b0) && BlockOk(|ExpandBlock([], b0)|, b1)
    ensures |PairBits(b0, b1)| == 6 + |BodyBits(3, 0, b0)| + |BodyBits(6 + |BodyBits(3, 0, b0)|, |ExpandBlock([], b0)|, b1)|
  {
    hide BlockOk, ExpandBlock, BodyBits;
  }

  // ---------------------------------------------------------------- what a stream of them holds

  /** A stream that begins with the two blocks. */
  ghost predicate Coded(v: nat)
  {
    BlocksOk([], TwoBlocks()) && Begins(v, StreamBits(0, [], TwoBlocks()))
  }

  lemma {:induction false} CodedParts(v: nat)
    requires Coded(v)
    ensures Low(Shr(v, 0), 1) == 0 && Low(Shr(v, 1), 2) == 2
    ensures HeaderOk(Head()) && Begins(Shr(v, 3), HeaderBits(Head()))
    ensures |Lits()| == 257 && ToksOk(Lits(), Dists(), 0, ZeroToks(MANYZEROS))
            && Begins(Shr(v, 108), ToksBits(Lits(), Dists(), 0, ZeroToks(MANYZEROS)))
  {
    hide *;
    TwoOk();
    FirstOk();
    CodedIs(v);
    PairParts(v, First(), Fixed([]));
    HeadIsOk();
    FirstKind();
    BeginsAppend(Shr(v, 3), HeaderBits(Head()), ToksBits(Lits(), Dists(), 0, ZeroToks(MANYZEROS)));
    ShrShr(v, 3, 105);
  }

  lemma {:induction false} CodedIs(v: nat)
    requires Coded(v)
    ensures BlocksOk([], TwoBlocks()) && Begins(v, StreamBits(0, [], TwoBlocks()))
  {
  }

  lemma {:induction false} FirstKind()
    ensures Kind(First()) == 2
  {
  }

  lemma {:induction false} PairParts(v: nat, b0: Block, b1: Block)
    requires BlockOk(0, b0) && BlockOk(|ExpandBlock([], b0)|, b1) && Begins(v, PairBits(b0, b1))
    ensures Low(Shr(v, 0), 1) == 0 && Low(Shr(v, 1), 2) == Kind(b0) && Begins(Shr(v, 3), BodyBits(3, 0, b0))
  {
    hide BlockOk, ExpandBlock, BodyBits, Begins, Low, Shr, LsbBits, Pow2, Kind, Head, ZeroToks, First;
    Pow2Values();
    KindSmall(b0);
    assert Shr(v, 0) == v by { LowNone(v); }
    var l, k, body := LsbBits(0, 1), LsbBits(Kind(b0), 2), BodyBits(3, 0, b0);
    var head := l + (k + body);
    var tail := LsbBits(1, 1) + (LsbBits(Kind(b1), 2) + BodyBits(|head| + 3, |ExpandBlock([], b0)|, b1));
    BeginsAppend(v, head, tail);
    BeginsAppend(v, l, k + body);
    BeginsAppend(Shr(v, 1), k, body);
    ShrShr(v, 1, 2);
    BeginsLsb(v, 0, 1);
    BeginsLsb(Shr(v, 1), Kind(b0), 2);
  }

  lemma {:induction false} KindSmall(b: Block)
    ensures Kind(b) <= 2
  {
  }

  /** The codes of the zeros and of the end. */
  lemma {:induction false} CodeAt(v: nat, pos: nat, m: nat, n: nat, j: nat)
    requires |Lits()| == 257 && ToksOk(Lits(), Dists(), m, ZeroToks(n)) && Begins(Shr(v, pos), ToksBits(Lits(), Dists(), m, ZeroToks(n))) && j <= n
    ensures Decode(Lits(), Shr(v, pos + j)) == Some(if j < n then 0 else 256)
    decreases j
  {
    LitsKraft();
    LitsAre();
    hide Lits, Kraft, CodeBits, Begins, Shr, Decode, ValidLens;
    if n == 0 {
      ReadsBack(Lits(), 256, Shr(v, pos));
    } else {
      assert ZeroToks(n)[1..] == ZeroToks(n - 1);
      BeginsAppend(Shr(v, pos), CodeBits(Lits(), 0), ToksBits(Lits(), Dists(), m + 1, ZeroToks(n - 1)));
      ReadsBack(Lits(), 0, Shr(v, pos));
      ShrShr(v, pos, 1);
      if j > 0 { CodeAt(v, pos + 1, m + 1, n - 1, j - 1); }
    }
  }

  lemma {:induction false} SymAt(v: nat, j: nat)
    requires Coded(v) && j <= MANYZEROS
    ensures Decode(Lits(), Shr(v, 108 + j)) == Some(if j < MANYZEROS then 0 else 256)
  {
    hide *;
    CodedParts(v);
    CodeAt(v, 108, 0, MANYZEROS, j);
  }

  /** All that is looked up in the first table is five bits. */
  lemma {:induction false} LookFive(b: nat)
    ensures Look(Lits(), 9, b) == 5
  {
    LitsAre();
    LitsKraft();
    Bounds5(Lits());
    Powers();
    PositionBound(b);
    CountIn(Lits(), 5);
    assert Lits()[3] == 5;
    hide Lits, Kraft, Longest, RootBits, ReachOf, Count, Rev, SPACE, NoCodes;
    CfgIsOk(Lits(), 257, [], [], 9);
    hide CfgOk;
    OneReach(CfgOf(Lits(), 257, [], [], 9), Rev(b, 16));
  }

  lemma {:induction false} ZeroTok(v: nat, j: nat)
    requires Coded(v) && j <= MANYZEROS
    ensures |Lits()| == 257 && |Dists()| == 1
    ensures var w := Shr(v, 108 + j);
            Wanted(Lits(), Dists(), w) == 5 && InfTok(Lits(), Dists(), w) == if j < MANYZEROS then Emit(1, 0) else Stop(2)
  {
    hide Coded, Lits, Shr, Decode, Look, ReadMatch, MANYZEROS;
    SymAt(v, j);
    LitsAre();
    LookFive(Shr(v, 108 + j));
  }

  /** The code at pos ends its block with n more zeros, at the bit end. */
  ghost predicate EndsWith(v: nat, size: nat, pos: nat, h: seq<byte>, n: nat, end: nat)
  {
    |Lits()| == 257 && InfToks(Lits(), Dists(), v, size, pos, h) == Done(end, h + Times(0, n))
  }

  /** From any of the zeros on, the block ends at the same place. */
  lemma {:induction false} ZerosEnd(v: nat, size: nat, j: nat, h: seq<byte>)
    requires Coded(v) && j <= MANYZEROS && size >= UNZ_BUFSIZE
    ensures EndsWith(v, size, 108 + j, h, MANYZEROS - j, 110 + MANYZEROS)
    decreases MANYZEROS - j
  {
    hide Coded, Lits, Dists, Shr, InfTok, Wanted, BadAt, CopyBack, InfToks;
    ZeroTok(v, j);
    InfUnfold(Lits(), Dists(), v, size, 108 + j, h);
    if j < MANYZEROS {
      ZerosEnd(v, size, j + 1, h + [0]);
      assert h + [0] + Times(0, MANYZEROS - (j + 1)) == h + Times(0, MANYZEROS - j);
    } else {
      assert h + Times(0, 0) == h;
    }
  }

  // ---------------------------------------------------------------- the way through the first block

  lemma {:induction false} HeadRead(v: nat)
    requires Coded(v)
    ensures Low(Shr(v, 3), 5) == 0 && Low(Shr(v, 8), 5) == 0 && Low(Shr(v, 13), 4) == 14 && ReadClLens(v, 17, 18) == CL
    ensures ValidLens([]) && ReadLens(CL, v, 71, [], 258) == LensGood(108, Lits() + Dists())
  {
    hide *;
    CodedParts(v);
    HeadIsOk();
    HeadIs();
    HeaderBack(v, 3, Head());
    ClCount(v, 3, Head());
    LitsAre();
    GoodLens(v, 3, Lits(), Dists());
  }

  lemma {:induction false} HeadIs()
    ensures Head().cl == CL && Head().lit == Lits() && Head().dist == Dists() && Head().hclen == 18 && |Dists()| == 1
  {
  }

  /** What has been read when the codes of a header are known. */
  lemma {:induction false} GoodLens(v: nat, pos: nat, lit: seq<nat>, dist: seq<nat>)
    requires ReadCodes(v, pos).CodesGood? && ReadCodes(v, pos).lit == lit && ReadCodes(v, pos).dist == dist
    ensures var hclen := Low(Shr(v, pos + 10), 4) + 4;
            hclen <= 19 && Low(Shr(v, pos), 5) + 257 == |lit| && Low(Shr(v, pos + 5), 5) + 1 == |dist| && ValidLens([])
            && ReadLens(ReadClLens(v, pos + 14, hclen), v, pos + 14 + 3 * hclen, [], |lit| + |dist|) == LensGood(ReadCodes(v, pos).pos, lit + dist)
  {
    hide Low, Shr, Kraft, ReadClLens, ReadLens, Pow2;
    Pow2Values();
    var n := Low(Shr(v, pos), 5) + 257;
    var hclen := Low(Shr(v, pos + 10), 4) + 4;
    var r := ReadLens(ReadClLens(v, pos + 14, hclen), v, pos + 14 + 3 * hclen, [], n + (Low(Shr(v, pos + 5), 5) + 1));
    assert r.lens == r.lens[..n] + r.lens[n..];
  }

  /** Hlit, Hdist and Hclen of the header. */
  predicate HeadTable(table: nat)
  {
    Hlit(table) == 0 && Hdist(table) == 0 && Hclen(table) == 14
  }

  /** Before the codes. */
  ghost predicate Early(v: nat, a: State)
  {
    a.hist == Blank() && !a.last
    && match a.m
       case IsType => a.pos == 0
       case IsTable => a.pos == 3
       case IsBtree(table, index) => HeadTable(table) && index <= 18 && a.pos == 17 + 3 * index
       case IsDtree(table, cl, acc) =>
         HeadTable(table) && cl == CL && ValidLens(acc) && |acc| <= 258
         && ReadLens(CL, v, a.pos, acc, 258) == LensGood(108, Lits() + Dists())
       case _ => false
  }

  /** In a literal/length code that begins at from. */
  ghost predicate Within(t: Tables, v: nat, from: nat, need: nat, tree: nat, pos: nat)
  {
    var w, w2 := Walk(t.h, t.ltree, t.lbits, Shr(v, from)), Walk(t.h, tree, need, Shr(v, pos));
    w.Leaf? && w2.Leaf? && w.entry == w2.entry && from + w.used == pos + w2.used
  }

  /** After j zeros. */
  ghost predicate AtZero(v: nat, t: Tables, s: S, j: nat)
  {
    j <= MANYZEROS && s.hist == Blank() + Times(0, j)
    && match s.c
       case AtStart => s.pos == 108 + j
       case AtLen(need, tree) => Within(t, v, 108 + j, need, tree, s.pos)
       case AtLit(b) => b == 0 && j < MANYZEROS && s.pos == 109 + j
       case AtWash => j == MANYZEROS && s.pos == 110 + j
       case _ => false
  }

  ghost predicate InZeros(v: nat, a: State)
  {
    !a.last && a.m.IsCodes? && Agree(a.m.t, Lits(), Dists()) && exists j: nat :: AtZero(v, a.m.t, S(a.m.c, a.pos, a.hist), j)
  }

  /** Past the first block. */
  predicate Late(a: State)
  {
    a.pos >= 110 + MANYZEROS && |a.hist| >= WSIZE + MANYZEROS
  }

  ghost predicate OnWay(v: nat, a: State)
  {
    Early(v, a) || InZeros(v, a) || Late(a) || a.m.IsBad?
  }

  lemma {:induction false} EarlyType(v: nat, a: State, b: State)
    requires Coded(v) && Early(v, a) && a.m.IsType? && Follows(v, a, b)
    ensures Early(v, b)
  {
    hide Coded, Low, Shr, Blank, FixedLengths, FixedDistances, Agree, Begins, HeaderBits, ToksBits, ReadLens, Lits, ZeroToks, HeaderOk, ToksOk;
    CodedParts(v);
  }

  lemma {:induction false} EarlyTable(v: nat, a: State, b: State)
    requires Coded(v) && Early(v, a) && a.m.IsTable? && Follows(v, a, b)
    ensures Early(v, b)
  {
    hide Coded, Low, Shr, Blank, ReadLens, Lits, Hlit, Hdist, Hclen, ReadClLens, CL, Kraft, ValidLens;
    HeadRead(v);
    InflateBlockSteps.TableBits(Shr(v, 3));
    ShrShr(v, 3, 5);
    ShrShr(v, 3, 10);
  }

  lemma {:induction false} EarlyBtree(v: nat, a: State, b: State)
    requires Coded(v) && Early(v, a) && a.m.IsBtree? && Follows(v, a, b)
    ensures Early(v, b) || b.m.IsBad?
  {
    hide Coded, Low, Shr, Blank, ReadLens, Lits, Dists, Hlit, Hdist, Hclen, ReadClLens, CL, Accepted, ValidLens;
    HeadRead(v);
  }

  lemma {:induction false} TableIs(table: nat)
    requires HeadTable(table)
    ensures TableOk(table) && 258 + Hlit(table) + Hdist(table) == 258
  {
  }

  lemma {:induction false} EarlyDtree(v: nat, a: State, b: State)
    requires Coded(v) && Early(v, a) && a.m.IsDtree? && FollowsDtree(v, a, b)
    ensures Early(v, b) || InZeros(v, b) || b.m.IsBad?
  {
    hide Coded, Low, Shr, Blank, ReadLens, Lits, Dists, Hlit, Hdist, Hclen, CL, ClSym, ClUsed, AfterLength, Agree, ValidLens, HeadTable, NextLens;
    TableIs(a.m.table);
    LitsAre();
    ClValidHere();
    if |a.m.acc| < 258 {
      ReadLensNext(CL, v, a.pos, a.m.acc, 258);
      AfterNext(v, a);
    } else {
      ReadLensDone(CL, v, a.pos, a.m.acc, 258);
      assert (Lits() + Dists())[..257] == Lits() && (Lits() + Dists())[257..] == Dists();
      assert Blank() + Times(0, 0) == Blank();
      if b.m.IsCodes? { assert AtZero(v, b.m.t, S(b.m.c, b.pos, b.hist), 0); }
    }
  }

  lemma {:induction false} ClValidHere()
    ensures |CL| == 19 && ValidLens(CL) && |Lits() + Dists()| == 258
  {
  }

  /** A code length symbol that both decoders take in the same way. */
  lemma {:induction false} AfterNext(v: nat, a: State)
    requires InDtree(a) && var n := NextLens(a.m.cl, Ample(v, a.pos), a.pos, a.m.acc, 258 + Hlit(a.m.table) + Hdist(a.m.table)); n.LensAre?
    ensures a.m.IsDtree? && var n := NextLens(a.m.cl, Ample(v, a.pos), a.pos, a.m.acc, 258 + Hlit(a.m.table) + Hdist(a.m.table));
            AfterLength(v, a, ClSym(a.m.cl, Shr(v, a.pos)), ClUsed(a.m.cl, Shr(v, a.pos))) ==
            State(IsDtree(a.m.table, a.m.cl, n.lens), a.last, n.pos, a.hist)
  {
    hide Low, Shr, Hlit, Hdist, ClSym, ClUsed, ValidLens, TableOk, Times, RepBits, RepBase, Longest;
  }

  /** What a lookup in the first table starts from. */
  lemma {:induction false} LitWalk(t: Tables, v: nat, j: nat)
    requires Coded(v) && Agree(t, Lits(), Dists()) && j <= MANYZEROS
    ensures var w := Walk(t.h, t.ltree, t.lbits, Shr(v, 108 + j));
            w.Leaf? && w.reach == 5 && w.used == (if j < MANYZEROS then 1 else 2) && w.entry.exop == (if j < MANYZEROS then 0 else 96)
            && (j < MANYZEROS ==> w.entry.base == 0) && w.entry.bits >= 1
  {
    hide Coded, Walk, Shr, Lits, Dists, Decode, Look, ValidLens, NoLengths, DistTables, Longest;
    SymAt(v, j);
    LookFive(Shr(v, 108 + j));
    LitsAre();
    assert LitEntry(Lits(), Walk(t.h, t.ltree, t.lbits, Shr(v, 108 + j)), Shr(v, 108 + j));
  }

  lemma {:induction false} ZeroStep(v: nat, t: Tables, s: S, j: nat)
    requires Coded(v) && Agree(t, Lits(), Dists()) && AtZero(v, t, s, j) && !s.c.AtWash?
    ensures var s2 := Micro(t, v, s); AtZero(v, t, s2, j) || AtZero(v, t, s2, j + 1)
  {
    hide Coded, Walk, Shr, Low, Lits, Dists, Agree, Blank, AtZero;
    match s.c
    case AtLen(_, _) => LenStep(v, t, s, j);
    case AtStart =>
      AtZeroIs(v, t, s, j);
      LitWalk(t, v, j);
      StartZero(v, t, s, j);
    case AtLit(_) =>
      LitStep(v, t, s, j);
    case _ => AtZeroIs(v, t, s, j);
  }

  lemma {:induction false} AtZeroIs(v: nat, t: Tables, s: S, j: nat)
    requires AtZero(v, t, s, j)
    ensures j <= MANYZEROS && s.hist == Blank() + Times(0, j)
    ensures s.c.AtStart? || s.c.AtLen? || s.c.AtLit? || s.c.AtWash?
    ensures s.c.AtStart? ==> s.pos == 108 + j
    ensures s.c.AtLen? ==> Within(t, v, 108 + j, s.c.need, s.c.tree, s.pos)
  {
    hide Within, Blank;
  }

  lemma {:induction false} StartZero(v: nat, t: Tables, s: S, j: nat)
    requires AtZero(v, t, s, j) && s.c.AtStart? && Walk(t.h, t.ltree, t.lbits, Shr(v, 108 + j)).Leaf?
    ensures AtZero(v, t, Micro(t, v, s), j)
  {
    hide Walk, Shr, Blank;
  }

  lemma {:induction false} LitStep(v: nat, t: Tables, s: S, j: nat)
    requires AtZero(v, t, s, j) && s.c.AtLit?
    ensures AtZero(v, t, Micro(t, v, s), j + 1)
  {
    hide Within, Blank;
    assert Blank() + Times(0, j) + [0] == Blank() + Times(0, j + 1);
  }

  lemma {:induction false} LenStep(v: nat, t: Tables, s: S, j: nat)
    requires Coded(v) && Agree(t, Lits(), Dists()) && AtZero(v, t, s, j) && s.c.AtLen?
    ensures AtZero(v, t, Micro(t, v, s), j)
  {
    hide Coded, Walk, Shr, Low, Lits, Dists, Agree, Blank, IsLink, Times;
    LitWalk(t, v, j);
    WalkStep(t.h, s.c.tree, s.c.need, Shr(v, s.pos));
    var e := t.h[s.c.tree + Low(Shr(v, s.pos), s.c.need)];
    ShrShr(v, s.pos, e.bits);
    EntryKinds(e);
  }

  lemma {:induction false} ZerosNext(v: nat, a: State, b: State)
    requires Coded(v) && InZeros(v, a) && Follows(v, a, b)
    ensures InZeros(v, b) || Late(b)
  {
    hide Coded, AtZero, Agree, Lits, Dists, Micro;
    var t, s := a.m.t, S(a.m.c, a.pos, a.hist);
    var j: nat :| AtZero(v, t, s, j);
    if a.m.c.AtWash? {
      ZerosOver(v, t, s, j);
    } else {
      ZeroStep(v, t, s, j);
    }
  }

  lemma {:induction false} ZerosOver(v: nat, t: Tables, s: S, j: nat)
    requires AtZero(v, t, s, j) && s.c.AtWash?
    ensures s.pos == 110 + MANYZEROS && |s.hist| == WSIZE + MANYZEROS
  {
    BlankLong();
    hide Blank;
  }

  /** Bits are only consumed, and bytes only produced. */
  lemma {:induction false} FollowsGrow(v: nat, a: State, b: State)
    requires Follows(v, a, b)
    ensures a.pos <= b.pos && |a.hist| <= |b.hist|
  {
    hide Agree, ClSym, ClUsed, Shr, Low, Accepted, ReadClLens, StreamBytes, Hlit, Hdist, Hclen, TableOk, ValidLens, FixedLengths, FixedDistances,
         Micro, Times, RepBits, RepBase, Pad, Longest;
    if a.m.IsCodes? { MicroGrows(a.m.t, v, S(a.m.c, a.pos, a.hist)); }
  }

  lemma {:induction false} MicroGrows(t: Tables, v: nat, s: S)
    ensures s.pos <= Micro(t, v, s).pos && s.hist <= Micro(t, v, s).hist
  {
    hide Low, Shr, AfterLen, AfterDist;
  }

  lemma {:induction false} WayNext(v: nat, a: State, b: State)
    requires Coded(v) && OnWay(v, a) && Follows(v, a, b)
    ensures OnWay(v, b)
  {
    hide Coded, InZeros;
    if InZeros(v, a) {
      ZerosNext(v, a, b);
    } else if Late(a) {
      FollowsGrow(v, a, b);
    } else if Early(v, a) {
      EarlyNext(v, a, b);
    } else {
      BadStops(v, a, b);
    }
  }

  lemma {:induction false} BadStops(v: nat, a: State, b: State)
    requires a.m.IsBad?
    ensures !Follows(v, a, b)
  {
  }

  lemma {:induction false} EarlyNext(v: nat, a: State, b: State)
    requires Coded(v) && Early(v, a) && Follows(v, a, b)
    ensures Early(v, b) || InZeros(v, b) || b.m.IsBad?
  {
    hide Coded, InZeros;
    match a.m
    case IsType => EarlyType(v, a, b);
    case IsTable => EarlyTable(v, a, b);
    case IsBtree(_, _) => EarlyBtree(v, a, b);
    case IsDtree(_, _, _) => EarlyDtree(v, a, b);
    case _ => EarlyOnly(v, a);
  }

  lemma {:induction false} EarlyOnly(v: nat, a: State)
    requires Early(v, a)
    ensures a.m.IsType? || a.m.IsTable? || a.m.IsBtree? || a.m.IsDtree?
  {
    hide Blank, ReadLens, Lits, Dists, HeadTable;
  }

  /** Every place on the way from the beginning. */
  lemma {:induction false} TheWay(v: nat, a: State)
    requires Coded(v) && Comes(v, Begin(), a)
    ensures OnWay(v, a)
  {
    hide Coded, OnWay, Follows, Comes;
    var k := iset x: State | OnWay(v, x);
    forall x, y | x in k && Follows(v, x, y) ensures y in k {
      WayNext(v, x, y);
    }
    BeginsEarly(v);
    ComesIn(v, Begin(), a, k);
  }

  lemma {:induction false} BeginsEarly(v: nat)
    ensures OnWay(v, Begin())
  {
    hide InZeros;
  }

  // ---------------------------------------------------------------- the first call

  /** The first call asks for so many bytes, that the window is full when the last zero or the one before is at hand. */
  const ASKED: nat := 98185

  lemma {:induction false} Numbers()
    ensures MANYZEROS == 130954 && ASKED == 98185 && WSIZE == 32768 && UNZ_BUFSIZE == 16384
  {
  }

  /** The first piece holds all the zeros. */
  lemma {:induction false} ManyOut(v: nat, size: nat)
    requires Coded(v) && size >= UNZ_BUFSIZE
    ensures |FromState(Input(v, size), Begin()).hist| >= WSIZE + MANYZEROS
  {
    hide *;
    Numbers();
    var x := Input(v, size);
    BlankLong();
    CodedParts(v);
    FirstOk();
    HeadIsOk();
    HeadAccepted();
    HeadIs();
    LitsAre();
    TypeIsKind(x, 0, Blank());
    KindIs(x, 3, Blank());
    HeaderClose(v, 3, Head());
    HeaderBackHere(x, false, 3, Blank(), Head());
    ZerosEnd(v, size, 0, Blank());
    BeginIs(x);
    CodesOut(x, 108, Blank(), MANYZEROS, 110 + MANYZEROS);
  }

  lemma {:induction false} BeginIs(x: Input)
    ensures FromState(x, Begin()) == FromType(x, 0, Blank())
  {
    hide FromType, Blank;
  }

  lemma {:induction false} KindIs(x: Input, pos: nat, hist: seq<byte>)
    ensures FromKind(x, false, 2, pos, hist) == FromTable(x, false, pos, hist)
  {
    hide FromTable;
  }

  lemma {:induction false} CodesOut(x: Input, pos: nat, hist: seq<byte>, n: nat, end: nat)
    requires EndsWith(x.v, x.size, pos, hist, n, end)
    ensures |Lits()| == 257 && |Dists()| == 1 && |FromCodes(x, false, Lits(), Dists(), pos, hist).hist| >= |hist| + n
  {
    LitsAre();
    hide Lits, InfToks, FromType, AfterBlock;
    AfterIs(x, false, end, hist + Times(0, n));
    TypeGrows(x, end, hist + Times(0, n));
    InfGrows(Lits(), Dists(), x.v, x.size, pos, hist);
  }

  /** From a literal zero on, the block ends where it does. */
  lemma {:induction false} LitEndsBack(v: nat, t: Tables, last: bool, s: S, j: nat)
    requires Coded(v) && Agree(t, Lits(), Dists()) && AtZero(v, t, s, j) && s.c.AtLit?
    ensures EndsBack(v, UNZ_BUFSIZE, InCodes(t, last, s)) && s.pos == 109 + j
  {
    hide Coded, Agree, Lits, Dists, Run, Blank, InfToks;
    Numbers();
    BlankLong();
    var s2 := S(AtStart, s.pos, s.hist + [0]);
    LitNext(v, t, s, j);
    RunNext(t, v, UNZ_BUFSIZE, s);
    ZerosEnd(v, UNZ_BUFSIZE, j + 1, s2.hist);
    RunIsToks(t, Lits(), Dists(), v, UNZ_BUFSIZE, s2.pos, s2.hist);
  }

  lemma {:induction false} LitNext(v: nat, t: Tables, s: S, j: nat)
    requires AtZero(v, t, s, j) && s.c.AtLit?
    ensures s.pos == 109 + j && j < MANYZEROS && |s.hist| >= WSIZE && Next(t, v, s) == S(AtStart, s.pos, s.hist + [0])
    ensures Moves(UNZ_BUFSIZE, s)
  {
    Numbers();
    BlankLong();
    hide Blank;
  }

  /** The blocks after so many bytes have been put out with none to spare. */
  ghost predicate Halted(z: Blocks, v: nat)
    reads z, z.s, z.s.window, z.hufts
  {
    z.Fit(z.s.Loaded()) && z.V() == v && UNZ_BUFSIZE <= z.s.bounds.lim && |z.s.out| == ASKED
    && Same(v, z.s.bounds.lim, Begin(), z.At(z.s.Loaded())) && (z.Hungry() || z.Choked())
  }

  lemma {:induction false} HistNow(z: Blocks, v: nat)
    requires Halted(z, v)
    ensures var a := z.At(z.s.Loaded());
            a.hist == z.s.hist && |a.hist| == WSIZE + ASKED + Pending(z.s.read, z.s.write) && Pending(z.s.read, z.s.write) <= WSIZE
            && a.last == z.last && Comes(v, Begin(), a)
  {
    var r := z.s.Loaded();
    z.FitSaved();
    z.RingOut();
    z.AtHist(r);
    SameComes(v, z.s.bounds.lim, Begin(), z.At(r));
    PendingBound(z.s);
    hide Inflater.Saved, Blocks.Fit, Blocks.At, Same, Comes, Pending, Blocks.Hungry, Blocks.Choked;
  }

  lemma {:induction false} PendingBound(s: Inflater)
    requires s.Saved()
    ensures Pending(s.read, s.write) <= WSIZE
  {
    RingBounds(s.window[..], s.read, s.write, s.hist, s.out);
  }

  /** They are in the first block, with its last zero or the one before it at hand. */
  lemma {:induction false} HaltsInZeros(z: Blocks, v: nat)
    requires Coded(v) && Halted(z, v)
    ensures !z.Hungry() && z.Choked() && z.mode == CODES && !z.last && InZeros(v, z.At(z.s.Loaded()))
  {
    var r := z.s.Loaded();
    var a := z.At(r);
    HistNow(z, v);
    z.AtMode(r);
    SameAt(v, z.s.bounds.lim, Begin(), a, z.s.bounds.lim);
    hide Coded, Inflater.Saved, Blocks.Fit, Blocks.At, Same, Comes, Pending, InZeros, Lacks, FromState, Inflater.Full, Early;
    TheWay(v, a);
    Numbers();
    ManyOut(v, z.s.bounds.lim);
    if z.Hungry() { LacksIsStarved(Input(v, z.s.bounds.lim), a); }
    if Early(v, a) { EarlyOnly(v, a); }
    if InZeros(v, a) { ZerosCodes(v, a); }
    ModeIs(z, r);
  }

  lemma {:induction false} ZerosCodes(v: nat, a: State)
    requires InZeros(v, a)
    ensures a.m.IsCodes? && !a.last
  {
  }

  lemma {:induction false} ModeIs(z: Blocks, r: Regs)
    requires z.Choked()
    ensures z.At(r).m.IsStored? || z.At(r).m.IsCodes? || z.At(r).m.IsDry?
    ensures z.At(r).m.IsCodes? ==> z.mode == CODES
  {
    hide Pending, Inflater.Full;
  }

  /** A literal zero whose code has been looked up. */
  lemma {:induction false} TakenFar(v: nat, t: Tables, from: nat, pos: nat, taken: nat)
    requires Agree(t, Lits(), Dists()) && CodeTaken(t, v, from, 0, pos, taken)
    ensures pos + 4 <= taken
  {
    hide Walk, Shr, Lits, Dists, Decode, Look, ValidLens, NoLengths, DistTables, Longest;
    LookFive(Shr(v, from));
    LitsAre();
    assert LitEntry(Lits(), Walk(t.h, t.ltree, t.lbits, Shr(v, from)), Shr(v, from));
  }

  /** The last zero or the one before is at hand. */
  lemma {:induction false} ZeroAtHand(z: Blocks, v: nat) returns (j: nat)
    requires Coded(v) && Halted(z, v)
    ensures z.mode == CODES && !z.last && z.s.Control().AtLit? && 109 + j >= 131061
    ensures Agree(z.s.t, Lits(), Dists()) && AtZero(v, z.s.t, z.s.Cur(z.s.Loaded()), j)
    ensures z.Fit(z.s.Loaded()) && z.V() == v
  {
    HaltsInZeros(z, v);
    HistNow(z, v);
    var r := z.s.Loaded();
    HaltedFit(z, v);
    z.CodesFit(r);
    var a := z.At(r);
    hide Coded, Halted, Blocks.Fit, Blocks.At, Agree, Lits, Dists, Pending, AtZero, Comes, Pos, Inflater.Control, Blocks.Choked, Blocks.Shape,
         TablesOk, Healthy, Inflater.Live, Inflater.Traced;
    j :| AtZero(v, a.m.t, S(a.m.c, a.pos, a.hist), j);
    ZeroHist(v, a.m.t, S(a.m.c, a.pos, a.hist), j);
    Numbers();
    FullHere(z);
  }

  lemma {:induction false} HaltedFit(z: Blocks, v: nat)
    requires Halted(z, v)
    ensures z.Fit(z.s.Loaded()) && z.V() == v
  {
    hide Blocks.Fit, Blocks.At, Blocks.Hungry, Blocks.Choked, Same;
  }

  lemma {:induction false} ZeroHist(v: nat, t: Tables, s: S, j: nat)
    requires AtZero(v, t, s, j)
    ensures |s.hist| == WSIZE + j && (s.c.AtWash? ==> j == MANYZEROS) && !s.c.AtCopy?
  {
    BlankLong();
    hide Blank, Within;
  }

  lemma {:induction false} FullHere(z: Blocks)
    requires z.Choked() && z.mode == CODES
    ensures z.s.Control().AtWash? || ((z.s.Control().AtLit? || z.s.Control().AtCopy?) && Pending(z.s.read, z.s.write) >= WSIZE - 1)
  {
    hide Pending;
  }

  /** All of the first piece is taken, and the block ends a byte before its end. */
  lemma {:induction false} FirstTaken(z: Blocks, v: nat)
    requires Coded(v) && Halted(z, v)
    ensures z.mode == CODES && !z.last && z.s.next_in == UNZ_BUFSIZE && EndsBack(v, UNZ_BUFSIZE, z.At(z.s.Loaded()))
  {
    var r := z.s.Loaded();
    var j := ZeroAtHand(z, v);
    z.CodesFit(r);
    z.FitBound(r);
    hide Coded, Halted, Blocks.Fit, Blocks.At, Agree, Lits, Dists, AtZero, Blocks.Shape, TablesOk, Healthy, Inflater.Live, Inflater.Traced, EndsBack, Pos;
    LitEndsBack(v, z.s.t, z.last, z.s.Cur(r), j);
    LitTaken(z.s, r, v, j);
    Numbers();
  }

  lemma {:induction false} LitTaken(s: Inflater, r: Regs, v: nat, j: nat)
    requires s.Traced(r) && s.Control().AtLit? && Agree(s.t, Lits(), Dists()) && s.V() == v && AtZero(v, s.t, s.Cur(r), j)
    ensures Pos(r) + 4 <= 8 * r.p && Pos(r) == 109 + j && j < MANYZEROS
  {
    hide Agree, Lits, Dists, Blank, Within, CodeTaken, OnCode, Pos;
    TakenFar(v, s.t, s.from, Pos(r), 8 * r.p);
  }

  // ---------------------------------------------------------------- the entry

  /** A file that is such an entry, of 16400 bytes. */
  ghost predicate IsPieceFile(data: seq<byte>)
  {
    |data| == 16400 && Coded(BytesVal(data))
  }

  lemma {:induction false} PieceDecoded(data: seq<byte>)
    requires IsPieceFile(data)
    ensures Decoded(data) == Times(0, MANYZEROS) && Entry.Verdict(data).Ended?
  {
    hide *;
    PieceFacts(data);
    TwoOk();
    CodedIs(BytesVal(data));
    DecodedEncoding(data, TwoBlocks());
  }

  lemma {:induction false} PieceFacts(data: seq<byte>)
    requires IsPieceFile(data)
    ensures |data| == 16400 && Coded(BytesVal(data)) && TwoBlocks() != []
  {
    hide Coded;
  }

  /** A reader of that file. */
  ghost predicate ReadsPiece(r: Reader, data: seq<byte>)
    reads r, r.z, r.z.s, r.z.s.window, r.z.hufts
  {
    IsPieceFile(data) && r.Ok() && r.compression_method != 0 && r.file == data && r.start == 0 && r.csize == 16400 && r.usize == 200000
  }

  lemma {:induction false} PieceData(r: Reader, data: seq<byte>)
    requires r.file == data && r.start == 0 && r.csize == |data|
    ensures r.Data() == data
  {
    assert data[0..|data|] == data;
  }

  lemma {:induction false} PieceOk(r: Reader, data: seq<byte>)
    requires ReadsPiece(r, data)
    ensures r.Data() == data && r.Flow() && r.Paused() && (r.im != IM_ASTRAY ==> r.z.s.out == r.delivered)
    ensures r.im == IM_DONE ==> r.delivered == Decoded(data)
    ensures r.im != IM_BAD && r.im != IM_LOST
  {
    hide Blocks.Fit, Blocks.At, Blocks.Caught, Blocks.Calm, Blocks.Hungry, Blocks.Choked, Reader.Counts, Entry.Verdict, Decoded, Same,
         Reader.InPiece, Reader.InFirst, BytesVal, Coded;
    PieceData(r, data);
    PieceDecoded(data);
  }

  /** When it has stopped for want of room after the first call, WASH is going to step back. */
  lemma {:induction false} PieceDoomed(r: Reader, data: seq<byte>)
    requires ReadsPiece(r, data) && |r.delivered| == ASKED && r.im != IM_ASTRAY
    ensures r.Doomed()
  {
    PieceOk(r, data);
    PieceDecoded(data);
    Numbers();
    hide Reader.Ok, Reader.Flow, Reader.Doomed, Coded, Decoded, Entry.Verdict, Times, BytesVal, Reader.Data, Reader.Paused;
    assert r.im == IM_BLOCKS;
    PieceHalted(r, data);
    FirstTaken(r.z, BytesVal(data));
    NowEarly(r, data);
  }

  lemma {:induction false} PieceHalted(r: Reader, data: seq<byte>)
    requires IsPieceFile(data) && r.Flow() && r.Paused() && r.im == IM_BLOCKS && r.Data() == data && r.csize == 16400 && |r.z.s.out| == ASKED
    ensures Halted(r.z, BytesVal(data)) && Coded(BytesVal(data))
  {
    hide Blocks.Fit, Blocks.At, Blocks.Caught, Blocks.Calm, Blocks.Hungry, Blocks.Choked, Entry.Verdict, Decoded, Same, Reader.InFirst, BytesVal,
         Coded, FromState, Reader.Data;
    Numbers();
    if r.z.s.bounds.lim == 0 {
      r.OutPrefix(0);
      NoInput(BytesVal(data));
    }
    Pieces(r.z.s.bounds.lim);
  }

  lemma {:induction false} NoInput(v: nat)
    ensures |FromState(Input(v, 0), Begin()).hist| == WSIZE
  {
    BlankLong();
    hide Low, Shr, Blank, FixedLengths, FixedDistances;
  }

  lemma {:induction false} Pieces(lim: nat)
    requires lim <= 16400 && (lim == 16400 || lim % UNZ_BUFSIZE == 0) && lim > 0
    ensures lim == UNZ_BUFSIZE || lim == 16400
    ensures PieceStart(16400) == UNZ_BUFSIZE
  {
  }

  lemma {:induction false} NowEarly(r: Reader, data: seq<byte>)
    requires IsPieceFile(data) && r.Flow() && r.im == IM_BLOCKS && r.Data() == data && r.csize == 16400
    requires r.z.mode == CODES && !r.z.last && r.z.s.next_in == UNZ_BUFSIZE && EndsBack(BytesVal(data), UNZ_BUFSIZE, r.z.At(r.z.s.Loaded()))
    ensures r.Doomed()
  {
    hide Blocks.Fit, Entry.Verdict, Decoded, Same, Reader.InFirst, BytesVal, Coded, FromState, Reader.Data, EndsBack, InflateBlockSteps.Past, Inflater.Loaded;
    r.z.AtHist(r.z.s.Loaded());
    hide Blocks.At;
    Pieces(if r.z.s.bounds.lim == 0 then 16400 else r.z.s.bounds.lim);
  }

  /** There is such a file. */
  ghost function PieceFile(): seq<byte>
  {
    TwoOk();
    ToBytes(BitsVal(StreamBits(0, [], TwoBlocks())), 16400)
  }

  lemma {:induction false} PieceFileIs()
    ensures IsPieceFile(PieceFile())
  {
    hide BlocksOk, StreamBits, ToBytes, BitsVal, BytesVal, Begins, TwoBlocks;
    TwoOk();
    PackedBegins(StreamBits(0, [], TwoBlocks()), 16400);
  }

  /** The entry whose second piece is read wrongly: two calls, of which the second one lets inflate step to before read_buffer. */
  method GoesAstray(data: seq<byte>) returns (first: seq<byte>, out: Outcome)
    requires IsPieceFile(data)
    ensures Decoded(data) == Times(0, MANYZEROS) && first == Times(0, ASKED) && out.Wild?
  {
    hide Reader.Ok, Decoded, Entry.Verdict, Reader.Data, Coded, Times, Reader.Doomed, BytesVal;
    PieceDecoded(data);
    Numbers();
    var r := new Reader(data, 0, 0, 16400, 200000, 0, 8);
    PieceData(r, data);
    r.Totals();
    out, first := r.Read(ASKED);
    PieceOk(r, data);
    ZerosCut(first);
    PieceDoomed(r, data);
    r.Totals();
    var second;
    out, second := r.Read(200000);
    PieceOk(r, data);
  }

  lemma {:induction false} ZerosCut(a: seq<byte>)
    ensures |a| <= MANYZEROS && a <= Times(0, MANYZEROS) ==> a == Times(0, |a|)
  {
  }
}
