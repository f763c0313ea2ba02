/** inflate_blocks of DuiLib/XUnzip.cpp on its real state. Whatever input and output limits its calls are given, what it
    delivers is what the blocks decode to. */
module InflateBlocks {
  import opened Bits
  import opened BitStream
  import opened Canonical
  import opened HuftSpec
  import opened Deflate
  import opened DeflateStream
  import opened InflateSpec
  import opened InflateTokens
  import opened InflateTrees
  import opened InflateBlocksSpec
  import opened InflateBlockSteps
  import opened Window
  import opened BitBuffer
  import opened Inflate
  import opened FixedTables

  const Z_MEM_ERROR: int := -4

  datatype BlockMode = TYPE | LENS | STORED | TABLE | BTREE | DTREE | CODES | DRY | DONE | BAD

  function Weight(m: Mode): nat
  {
    match m case IsBtree(_, _) => 4 case IsDtree(_, _, _) => 3 case IsCodes(_, _) => 2 case _ => 1
  }

  /** s2 is further on. */
  predicate Ahead(size: nat, s: State, s2: State)
  {
    s2.pos <= 8 * size && (s2.pos > s.pos || (s2.pos == s.pos && Weight(s2.m) < Weight(s.m)))
  }

  /** The lengths of the code length code read so far, from bit pos on. */
  ghost predicate BtreeRead(blens: seq<nat>, v: nat, pos: nat, n: nat)
  {
    n <= 19 <= |blens| && forall i :: 0 <= i < n ==> blens[Zag(i)] == Low(Shr(v, pos + 3 * i), 3)
  }

  /** The block part of inflate_blocks_state; the rest of it is in s. */
  class Blocks {
    const s: Inflater
    const hufts: array<Huft>
    const fixed: Tables            // fixed_tl and fixed_td

    var mode: BlockMode
    var last: bool
    var left: nat
    var table: nat
    var index: nat
    var blens: seq<nat>
    var bb: nat
    var tb: nat

    // set when WASH has stepped to before the caller's input buffer and a block is still to be read from there
    var astray: bool

    /** The lengths that the bit length tree was built from. */
    ghost var cl: seq<nat>

    ghost function V(): nat { BytesVal(s.input) }

    function Total(): nat
      reads this`table
    {
      258 + Hlit(table) + Hdist(table)
    }

    ghost function CurMode(): Mode
      reads this, s
    {
      match mode
      case TYPE => IsType
      case LENS => IsLens
      case STORED => IsStored(left)
      case TABLE => IsTable
      case BTREE => IsBtree(table, index)
      case DTREE => IsDtree(table, cl, if index <= |blens| then blens[..index] else [])
      case CODES => IsCodes(s.t, s.Control())
      case DRY => IsDry
      case DONE => IsDry
      case BAD => IsBad
    }

    /** Where the decoding of the blocks is. */
    ghost function At(r: Regs): State
      reads this, s
    {
      State(CurMode(), last, Pos(r), s.hist)
    }

    ghost predicate ModeOk(r: Regs)
      reads this, s, hufts
    {
      match mode
      case LENS => r.k % 8 == 0
      case STORED => r.k == 0 && r.b == 0 && left > 0
      case BTREE =>
        TableOk(table) && index <= Hclen(table) + 4 && 3 * index <= Pos(r) && |blens| == Total()
        && BtreeRead(blens, BytesVal(s.input), Pos(r) - 3 * index, index)
      case DTREE =>
        TableOk(table) && index <= Total() == |blens| && |cl| == 19 && ValidLens(blens[..index])
        && ClTable(hufts[..], tb, bb, cl) && bb == HuftBuild.Longest(cl) && ValidLens(cl)
      case CODES => TablesOk(s.t) && Healthy(s.t, BytesVal(s.input), s.Cur(r)) && (s.mode == END ==> r.k < 8) && s.Traced(r)
      case DONE => s.read == r.q
      case _ => true
    }

    ghost predicate Shape()
      reads s`hist
    {
      hufts.Length == HuftBuild.MANY && Agree(fixed, FixedLengths(), FixedDistances()) && |s.hist| >= WSIZE
    }

    ghost predicate Fit(r: Regs)
      reads this, s, s.window, hufts
    {
      s.Live(r) && r.k < (if mode == LENS || mode == BAD then 33 else 16) && Shape() && ModeOk(r)
    }

    /** All the input is taken, and it does not hold the bits that are asked for next. */
    ghost predicate Hungry()
      reads this, s
    {
      s.avail_in == 0 && Lacks(Input(V(), s.bounds.lim), At(s.Loaded()))
    }

    /** There is no room for output, and nothing can be done without: the window is full; or a block of codes or the last block is
        over and not all is delivered. */
    ghost predicate Choked()
      reads this, s
    {
      s.avail_out == 0 && Pending(s.read, s.write) > 0
      && match mode
         case STORED => s.Full()
         case CODES => s.Control().AtWash? || ((s.Control().AtLit? || s.Control().AtCopy?) && s.Full())
         case DRY => true
         case _ => false
    }

    ghost function Where(): Place
      reads this`astray, s`base, s`under
    {
      Place(s.base, s.under, astray)
    }

    /** WASH will step to before the input buffer, in a block that is not the last one. */
    ghost predicate Caught()
      reads this, s
    {
      CaughtAt(V(), Where(), At(s.Loaded()))
    }

    /** It will not. */
    ghost predicate Calm()
      reads this, s
    {
      CalmAt(V(), Where(), At(s.Loaded()))
    }

    /** Nothing can be done without more input, and nothing is there to deliver. */
    ghost predicate Stuck(r: Regs)
      reads this, s
    {
      r.n == 0 && Lacks(Input(V(), s.bounds.lim), At(r)) && Pending(s.read, r.q) == 0
    }

    /** From st and from here, the stream ends in the same way, however the input goes on. */
    ghost predicate On(r: Regs, bd: Bounds, st: State)
      reads this, s
    {
      s.bounds == bd && Same(V(), bd.lim, st, At(r))
    }

    /** What is produced is delivered, as long as there is room. */
    ghost predicate Flushed()
      reads s
    {
      s.avail_out > 0 ==> Pending(s.read, s.write) == 0
    }

    /** How inflate_blocks returns. */
    ghost predicate LeftOk(rc: int, bd: Bounds, st: State)
      reads this, s, s.window, hufts
    {
      Flushed() && s.Saved() && |s.hist| >= WSIZE && s.bounds == bd
      && if rc == Z_MEM_ERROR then Surely(V(), bd.lim, st, NoSpace(Pos(s.Loaded()), s.hist))
         else Fit(s.Loaded()) && On(s.Loaded(), bd, st)
              && if rc == Z_STREAM_END then mode == DONE && Pending(s.read, s.write) == 0
                 else if rc == Z_DATA_ERROR then mode == BAD || (mode == CODES && s.mode == BADCODE)
                 else s.Going(rc, s.avail_in) && (Hungry() || Choked())
    }

    /** A case that broke to the next round. */
    ghost predicate Went(r: Regs, rc: int, bd: Bounds, st: State)
      reads this, s, s.window, hufts
    {
      Fit(r) && s.Going(rc, r.n) && On(r, bd, st) && Ahead(bd.lim, st, At(r))
    }

    // ---------------------------------------------------------------- the ways to leave

    lemma {:induction false} FitBound(r: Regs)
      requires Fit(r)
      ensures s.Live(r) && Pos(r) + r.k == 8 * r.p <= 8 * s.bounds.lim && r.p + r.n == s.bounds.lim && r.q <= WSIZE && |s.hist| >= WSIZE
    {
      hide ModeOk, Agree;
      s.PosBound(r);
    }

    lemma {:induction false} OnSelf(r: Regs)
      ensures On(r, s.bounds, At(r))
    {
      hide FromState;
    }

    /** LEAVE up to the return. */
    method Save(r: Regs, rc0: int) returns (rc: int)
      requires Fit(r) && mode != DONE
      modifies s
      ensures Where() == old(Where())
      ensures Fit(s.Loaded()) && At(s.Loaded()) == old(At(r)) && Pos(s.Loaded()) == Pos(r) && s.bounds == old(s.bounds)
      ensures s.bitk == r.k && s.avail_in == r.n && s.mode == old(s.mode) && s.hist == old(s.hist) && Flushed()
      ensures old(s.avail_out) == 0 ==> s.avail_out == 0 && Pending(s.read, s.write) == old(Pending(s.read, r.q))
      ensures rc == rc0 || (rc0 == Z_BUF_ERROR && rc == Z_OK)
      ensures old(Pending(s.read, r.q)) == 0 ==> rc == rc0
    {
      hide Inflater.Live, Agree, Healthy, TablesOk, ClTable, BtreeRead, TableOk, Pos, Pending, HuftBuild.Longest;
      rc := s.Leave(r, rc0);
    }

    lemma {:induction false} FitSaved()
      requires Fit(s.Loaded())
      ensures s.Saved() && |s.hist| >= WSIZE
    {
      hide ModeOk, Agree;
    }

    /** LEAVE with an error. */
    method LeaveBad(r: Regs, ghost bd: Bounds, ghost st: State) returns (rc: int)
      requires Fit(r) && mode == BAD && On(r, bd, st)
      modifies s
      ensures Where() == old(Where())
      ensures LeftOk(rc, bd, st)
    {
      hide Fit, Same, Pos, At, Pending, Inflater.Loaded, Inflater.Saved;
      rc := Save(r, Z_DATA_ERROR);
      FitSaved();
    }

    /** LEAVE for want of output. */
    method LeaveFull(r: Regs, rc0: int, ghost bd: Bounds, ghost st: State) returns (rc: int)
      requires Fit(r) && On(r, bd, st) && s.Going(rc0, r.n) && s.avail_out == 0 && Pending(s.read, r.q) > 0
      requires mode == DRY || (mode == STORED && Pending(s.read, r.q) >= WSIZE - 1)
      modifies s
      ensures Where() == old(Where())
      ensures LeftOk(rc, bd, st)
    {
      hide Fit, Same, Pos, At, Pending, Inflater.Loaded, Inflater.Saved;
      rc := Save(r, rc0);
      FitSaved();
    }

    /** LEAVE for want of input. */
    method Starve(r: Regs, rc0: int, ghost bd: Bounds, ghost st: State) returns (rc: int)
      requires Fit(r) && mode != DONE && s.Going(rc0, r.n) && r.n == 0 && On(r, bd, st) && Lacks(Input(V(), s.bounds.lim), At(r))
      modifies s
      ensures Where() == old(Where())
      ensures LeftOk(rc, bd, st)
      ensures old(Pending(s.read, r.q)) == 0 ==> rc == rc0
    {
      hide Fit, Same, Pos, Pending, Inflater.Loaded, Inflater.Saved, Lacks, FromState, CurMode;
      rc := Save(r, rc0);
      FitSaved();
    }

    /** inflate_blocks_new; the caller's input is data. */
    constructor (data: seq<byte>, space: array<Huft>)
      requires space.Length == HuftBuild.MANY
      ensures fresh(s) && fresh(s.window) && s.input == data && hufts == space && Fit(s.Loaded())
      ensures Where() == Place(0, false, false) && Hungry()
      ensures At(s.Loaded()) == State(IsType, false, 0, Blank()) && s.hist == Blank() && s.out == [] && s.next_in == 0 && s.avail_in == 0 && s.bounds == Bounds(0, 0, 0)
    {
      hide FixedLengths, FixedDistances, FixedPair, Agree;
      FixedAgree();
      s := new Inflater(data);
      hufts, fixed := space, FixedPair();
      mode, last, left, table, index, blens, bb, tb, astray := TYPE, false, 0, 0, 0, [], 0, 0, false;
      cl := [];
    }

    // ---------------------------------------------------------------- IBM_TYPE

    /** What is missing when nothing can be done. */
    lemma {:induction false} StuckWants(r: Regs)
      requires Stuck(r) && s.Live(r)
      ensures mode == TYPE ==> r.k < 3
      ensures mode == LENS ==> r.k < 32
      ensures mode == TABLE ==> r.k < 14
      ensures mode == BTREE ==> index < Hclen(table) + 4 && r.k < 3
      ensures mode == DTREE ==>
                InDtree(At(r))
                && (r.k < HuftBuild.Longest(cl)
                    || (ClSym(cl, Shr(V(), Pos(r))) >= 16 && r.k < ClUsed(cl, Shr(V(), Pos(r))) + RepBits(ClSym(cl, Shr(V(), Pos(r))))))
      ensures mode == CODES ==> s.Idle(r)
      ensures mode != DRY && mode != DONE && mode != BAD
    {
      s.PosBound(r);
      hide Inflater.Live, Pos, Hclen, TableOk, InDtree, HuftBuild.Longest, ClSym, ClUsed, RepBits, Shr, Pending;
    }

    lemma {:induction false} LoadedIn()
      ensures s.Loaded().n == s.avail_in
    {
    }

    /** Bits asked for in vain are not in the input. */
    lemma {:induction false} NotThere(r: Regs, j: nat)
      requires s.Live(r) && r.n == 0 && r.k < j
      ensures Pos(r) + j > 8 * s.bounds.lim && Pos(r) <= 8 * s.bounds.lim
    {
      s.PosBound(r);
      hide Inflater.Live, Pos;
    }

    method DoType(r0: Regs, rc0: int) returns (gone: bool, r: Regs, rc: int)
      requires Fit(r0) && s.Going(rc0, r0.n) && mode == TYPE
      modifies this, s
      ensures Where() == old(Where())
      ensures if gone then LeftOk(rc, old(s.bounds), old(At(r0))) else Went(r, rc, old(s.bounds), old(At(r0)))
      ensures old(Stuck(r0)) ==> gone && rc == rc0
    {
      hide Inflater.Live, Agree, Healthy, TablesOk, ClTable, BtreeRead, Same, TableOk, Pos, LeftOk, Went, HuftBuild.Longest;
      FitBound(r0);
      if Stuck(r0) { StuckWants(r0); }
      var ok;
      ok, r, rc := s.NeedBits(r0, 3, rc0);
      if !ok {
        OnSelf(r);
        NotThere(r, 3);
        rc := Starve(r, rc, s.bounds, At(r));
        return true, r, rc;
      }
      gone, r, rc := TakeType(r, rc);
    }

    lemma {:induction false} ThreeBits(w: nat)
      ensures Low(w, 3) % 2 == Low(w, 1) && Low(w, 3) / 2 == Low(Shr(w, 1), 2)
    {
    }

    /** Go to a byte boundary. */
    method ToByte(r0: Regs) returns (r: Regs)
      requires s.Live(r0)
      ensures s.Live(r) && r.k % 8 == 0 && r.k <= r0.k && Pos(r) == Pos(r0) + Pad(Pos(r0))
      ensures r.n == r0.n
    {
      hide Inflater.Live, Pad, Pos, Dumped;
      PadBits(r0);
      s.DumpLive(r0, r0.k % 8);
      r := Dumped(r0, r0.k % 8);
    }

    /** What the three header bits say is to be done. */
    method EnterType(r0: Regs) returns (r: Regs)
      requires s.Live(r0) && 3 <= r0.k < 16 && Shape() && mode == TYPE
      modifies this`mode, this`last, s`t, s`mode
      ensures Fit(r) && At(r) == AfterType(V(), old(At(r0)), fixed) && mode != DONE
      ensures r.n == r0.n
    {
      hide Inflater.Live, Agree, Healthy, TablesOk, Low, Shr, Pad, Dumped, FixedLengths, FixedDistances, Pos;
      s.PosBound(r0);
      s.DumpLive(r0, 3);
      ThreeBits(Shr(BytesVal(s.input), Pos(r0)));
      ShrShr(BytesVal(s.input), Pos(r0), 1);
      var b := Low(r0.b, 3);
      last := b % 2 == 1;
      r := Dumped(r0, 3);
      var kind := b / 2;
      if kind == 0 {
        r := ToByte(r);
        mode := LENS;
      } else if kind == 1 {
        AgreeOk(fixed, FixedLengths(), FixedDistances());
        s.NewCodes(fixed);
        StartHealthy(r);
        mode := CODES;
      } else if kind == 2 {
        mode := TABLE;
      } else {
        mode := BAD;
      }
    }

    /** The three header bits are there. */
    method TakeType(r0: Regs, rc0: int) returns (gone: bool, r: Regs, rc: int)
      requires s.Live(r0) && 3 <= r0.k < 16 && Shape() && s.Going(rc0, r0.n) && mode == TYPE
      modifies this, s
      ensures Where() == old(Where())
      ensures if gone then LeftOk(rc, old(s.bounds), old(At(r0))) else Went(r, rc, old(s.bounds), old(At(r0)))
    {
      hide Inflater.Live, Agree, Fit, Same, Pos, LeftOk, Low, Shr, Pad;
      rc := rc0;
      s.PosBound(r0);
      TypeSame(V(), s.bounds.lim, At(r0), fixed);
      r := EnterType(r0);
      FitBound(r);
      gone := mode == BAD;
      if gone { rc := LeaveBad(r, old(s.bounds), old(At(r0))); }
    }

    lemma {:induction false} PadBits(r: Regs)
      requires s.Live(r)
      ensures Pad(Pos(r)) == r.k % 8
    {
      s.PosBound(r);
      hide Inflater.Live, Pad;
      PadIs(r.p, r.k);
    }

    lemma {:induction false} StartHealthy(r: Regs)
      requires |s.hist| >= WSIZE && s.mode == START
      ensures Healthy(s.t, BytesVal(s.input), s.Cur(r)) && s.Traced(r)
    {
    }

    // ---------------------------------------------------------------- stored blocks

    /** NEEDBITS(32) at a byte boundary. */
    method NeedWord(r0: Regs, rc0: int) returns (ok: bool, r: Regs, rc: int)
      requires s.Live(r0) && r0.k % 8 == 0 && r0.k <= 32
      ensures s.Live(r) && Pos(r) == Pos(r0) && r.q == r0.q && r.m == r0.m && r.k % 8 == 0 && r.k <= 32
      ensures ok <==> r.k == 32
      ensures !ok ==> r.n == 0
      ensures rc == if r.n < r0.n then Z_OK else rc0
      ensures r.n <= r0.n && (r0.n == 0 ==> r == r0)
    {
      hide *;
      r, rc := r0, rc0;
      while r.k < 32
        invariant s.Live(r) && Pos(r) == Pos(r0) && r.q == r0.q && r.m == r0.m && r.k % 8 == 0 && r.k <= 32
        invariant rc == (if r.n < r0.n then Z_OK else rc0) && r.n <= r0.n && (r0.n == 0 ==> r == r0)
        decreases r.n
      {
        if r.n == 0 { return false, r, rc; }
        rc := Z_OK;
        s.GrabLive(r);
        r := Grabbed(s.input, r);
      }
      ok := true;
    }

    method DoLens(r0: Regs, rc0: int) returns (gone: bool, r: Regs, rc: int)
      requires Fit(r0) && s.Going(rc0, r0.n) && mode == LENS
      modifies this, s
      ensures Where() == old(Where())
      ensures if gone then LeftOk(rc, old(s.bounds), old(At(r0))) else Went(r, rc, old(s.bounds), old(At(r0)))
      ensures old(Stuck(r0)) ==> gone && rc == rc0
    {
      hide Inflater.Live, Agree, Healthy, TablesOk, ClTable, BtreeRead, Same, TableOk, Pos, LeftOk, Went, HuftBuild.Longest;
      FitBound(r0);
      if Stuck(r0) { StuckWants(r0); }
      var ok;
      ok, r, rc := NeedWord(r0, rc0);
      if !ok {
        OnSelf(r);
        NotThere(r, 32);
        rc := Starve(r, rc, s.bounds, At(r));
        return true, r, rc;
      }
      gone, r, rc := TakeLens(r, rc);
    }

    lemma {:induction false} WordBits(r: Regs)
      requires s.Live(r) && r.k == 32
      ensures Low(r.b, 16) == Low(Shr(BytesVal(s.input), Pos(r)), 16) <= 0xffff
      ensures Low(Shr(r.b, 16), 16) == Low(Shr(BytesVal(s.input), Pos(r) + 16), 16) <= 0xffff
      ensures Pos(r) + 32 <= 8 * s.bounds.lim && Pos(r) + 32 == 8 * r.p
    {
      hide Inflater.Live, Pos, Low, Shr, Pow2;
      Pow2Values();
      s.PosBound(r);
      s.DumpLive(r, 16);
      s.DumpLive(Dumped(r, 16), 16);
    }

    lemma {:induction false} ClearLive(r: Regs)
      requires s.Live(r)
      ensures s.Live(r.(b := 0, k := 0)) && Pos(r.(b := 0, k := 0)) == 8 * r.p
    {
      hide Ring, Room;
      ClearOk(BytesVal(s.input), r);
      hide BufOk;
    }

    /** The check of the two lengths of a stored block. */
    method EnterLens(r0: Regs) returns (r: Regs)
      requires s.Live(r0) && r0.k == 32 && Shape() && mode == LENS
      modifies this`mode, this`left
      ensures Fit(r) && mode != DONE && Pos(r0) + 32 <= 8 * s.bounds.lim && (mode != BAD ==> Pos(r) == Pos(r0) + 32)
      ensures At(r) == AfterLens(V(), old(At(r0)))
      ensures r.n == r0.n
    {
      hide Inflater.Live, Agree, Pos, Low, Shr;
      WordBits(r0);
      ClearLive(r0);
      r := r0;
      if 0xffff - Low(Shr(r0.b, 16), 16) != Low(r0.b, 16) {
        mode := BAD;
      } else {
        left := Low(r0.b, 16);
        r := r.(b := 0, k := 0);  // dump bits
        mode := if left > 0 then STORED else if last then DRY else TYPE;
      }
    }

    method TakeLens(r0: Regs, rc0: int) returns (gone: bool, r: Regs, rc: int)
      requires s.Live(r0) && r0.k == 32 && Shape() && s.Going(rc0, r0.n) && mode == LENS
      modifies this, s
      ensures Where() == old(Where())
      ensures if gone then LeftOk(rc, old(s.bounds), old(At(r0))) else Went(r, rc, old(s.bounds), old(At(r0)))
    {
      hide Inflater.Live, Agree, Fit, Same, Pos, LeftOk, Low, Shr;
      rc := rc0;
      r := EnterLens(r0);
      LensSameHere(V(), s.bounds.lim, old(At(r0)));
      gone := mode == BAD;
      if gone { rc := LeaveBad(r, old(s.bounds), old(At(r0))); }
    }

    /** memcpy from the input to the window. */
    method CopyIn(r0: Regs, n: nat) returns (r: Regs)
      requires s.Live(r0) && r0.k == 0 && r0.b == 0 && n <= r0.n && n <= r0.m
      modifies s.window, s`hist
      ensures s.Live(r) && r == r0.(p := r0.p + n, n := r0.n - n, q := r0.q + n, m := r0.m - n) && Pos(r) == Pos(r0) + 8 * n
      ensures s.hist == old(s.hist) + StreamBytes(BytesVal(s.input), Pos(r0), n)
    {
      hide Inflater.Live, BytesVal;
      s.PosBound(r0);
      r := r0;
      var i := 0;
      while i < n
        invariant 0 <= i <= n && s.Live(r) && r == r0.(p := r0.p + i, n := r0.n - i, q := r0.q + i, m := r0.m - i)
        invariant s.hist == old(s.hist) + s.input[r0.p..r0.p + i]
      {
        r := s.OutByte(r, s.input[r0.p + i]);
        NextByte(r);
        r := r.(p := r.p + 1, n := r.n - 1);
        i := i + 1;
      }
      SliceBytes(s.input, r0.p, n);
    }

    lemma {:induction false} NextByte(r: Regs)
      requires s.Live(r) && r.k == 0 && r.b == 0 && r.n > 0
      ensures s.Live(r.(p := r.p + 1, n := r.n - 1))
    {
      hide Ring, Room;
      ClearOk(BytesVal(s.input), r.(p := r.p + 1));
      hide BufOk;
    }

    method DoStored(r0: Regs, rc0: int) returns (gone: bool, r: Regs, rc: int)
      requires Fit(r0) && s.Going(rc0, r0.n) && mode == STORED
      modifies this, s, s.window
      ensures Where() == old(Where())
      ensures if gone then LeftOk(rc, old(s.bounds), old(At(r0))) else Went(r, rc, old(s.bounds), old(At(r0)))
      ensures old(Stuck(r0)) ==> gone && rc == rc0
    {
      hide Inflater.Live, Agree, Healthy, TablesOk, ClTable, BtreeRead, Same, TableOk, Pos, LeftOk, Went, HuftBuild.Longest, Pending;
      OnSelf(r0);
      if r0.n == 0 {
        FitBound(r0);
        rc := Starve(r0, rc0, s.bounds, At(r0));
        return true, r0, rc;
      }
      var ok;
      ok, r, rc := s.NeedOut(r0, rc0);
      SamePos(r, r0);
      if !ok {
        rc := LeaveFull(r, rc, s.bounds, At(r0));
        return true, r, rc;
      }
      r := TakeStored(r, rc);
      gone := false;
    }

    lemma {:induction false} SamePos(r: Regs, r2: Regs)
      requires r.k == r2.k && r.p == r2.p
      ensures Pos(r) == Pos(r2)
    {
    }

    /** As many bytes as input, window and block allow. */
    method TakeStored(r0: Regs, ghost rc: int) returns (r: Regs)
      requires Fit(r0) && rc == Z_OK && mode == STORED && r0.n > 0 && r0.m > 0
      modifies this, s, s.window
      ensures Where() == old(Where())
      ensures Went(r, rc, old(s.bounds), old(At(r0)))
    {
      hide Inflater.Live, Agree, Healthy, TablesOk, ClTable, BtreeRead, Same, TableOk, Pos, StreamBytes, HuftBuild.Longest;
      s.PosBound(r0);
      var n := Least(Least(left, r0.n), r0.m);
      r := CopyIn(r0, n);
      s.PosBound(r);
      StoredSameHere(V(), s.bounds.lim, old(At(r0)), n);
      left := left - n;
      if left == 0 { mode := if last then DRY else TYPE; }
    }

    // ---------------------------------------------------------------- dynamic blocks

    method DoTable(r0: Regs, rc0: int) returns (gone: bool, r: Regs, rc: int)
      requires Fit(r0) && s.Going(rc0, r0.n) && mode == TABLE
      modifies this, s
      ensures Where() == old(Where())
      ensures if gone then LeftOk(rc, old(s.bounds), old(At(r0))) else Went(r, rc, old(s.bounds), old(At(r0)))
      ensures old(Stuck(r0)) ==> gone && rc == rc0
    {
      hide Inflater.Live, Agree, Healthy, TablesOk, ClTable, BtreeRead, Same, TableOk, Pos, LeftOk, Went, HuftBuild.Longest;
      FitBound(r0);
      if Stuck(r0) { StuckWants(r0); }
      var ok;
      ok, r, rc := s.NeedBits(r0, 14, rc0);
      if !ok {
        OnSelf(r);
        NotThere(r, 14);
        rc := Starve(r, rc, s.bounds, At(r));
        return true, r, rc;
      }
      gone, r, rc := TakeTable(r, rc);
    }

    method TakeTable(r0: Regs, rc0: int) returns (gone: bool, r: Regs, rc: int)
      requires s.Live(r0) && 14 <= r0.k < 22 && Shape() && s.Going(rc0, r0.n) && mode == TABLE
      modifies this, s
      ensures Where() == old(Where())
      ensures if gone then LeftOk(rc, old(s.bounds), old(At(r0))) else Went(r, rc, old(s.bounds), old(At(r0)))
    {
      hide Inflater.Live, Agree, Healthy, TablesOk, ClTable, Same, Pos, LeftOk, Low, Shr, Hlit, Hdist, Hclen, HuftBuild.Longest;
      s.PosBound(r0);
      s.DumpLive(r0, 14);
      TableSameHere(V(), s.bounds.lim, At(r0));
      TableBits(Shr(V(), Pos(r0)));
      gone, r, rc := false, r0, rc0;
      table := Low(r0.b, 14);
      if Hlit(table) > 29 || Hdist(table) > 29 {
        mode := BAD;
        rc := LeaveBad(r, old(s.bounds), old(At(r0)));
        return true, r, rc;
      }
      blens := seq(Total(), _ => 0);
      r := Dumped(r, 14);
      index := 0;
      mode := BTREE;
    }

    /** One of the lengths of the code length code. */
    method TakeClLen(r0: Regs, ghost bd: Bounds, ghost st: State) returns (r: Regs)
      requires s.Live(r0) && 3 <= r0.k < 18 && Shape() && mode == BTREE && ModeOk(r0) && index < Hclen(table) + 4 && On(r0, bd, st)
      modifies this`blens, this`index
      ensures Fit(r) && On(r, bd, st) && mode == BTREE && index == old(index) + 1 && Pos(r) == Pos(r0) + 3
      ensures r.n == r0.n
    {
      hide Inflater.Live, Agree, Healthy, TablesOk, ClTable, Same, Pos, Low, Shr, TableOk, BtreeRead, HuftBuild.Longest;
      s.DumpLive(r0, 3);
      BtreeSame(V(), bd.lim, At(r0));
      SameOn(V(), bd.lim, st, At(r0), State(IsBtree(table, index + 1), last, Pos(r0) + 3, s.hist));
      TableParts(table);
      BtreeMore(blens, V(), Pos(r0) - 3 * index, index, Low(r0.b, 3));
      blens := blens[Zag(index) := Low(r0.b, 3)];
      index := index + 1;
      r := Dumped(r0, 3);
    }

    lemma {:induction false} BtreeMore(blens: seq<nat>, v: nat, pos: nat, n: nat, x: nat)
      requires BtreeRead(blens, v, pos, n) && n < 19 && x == Low(Shr(v, pos + 3 * n), 3)
      ensures BtreeRead(blens[Zag(n) := x], v, pos, n + 1)
    {
      hide Low, Shr, Zag;
      forall i | 0 <= i < n ensures Zag(i) != Zag(n) {
        if Zag(i) == Zag(n) { ZagDistinct(i, n); }
      }
    }

    method DoBtree(r0: Regs, rc0: int) returns (gone: bool, r: Regs, rc: int)
      requires Fit(r0) && s.Going(rc0, r0.n) && mode == BTREE
      modifies this, s, hufts
      ensures Where() == old(Where())
      ensures if gone then LeftOk(rc, old(s.bounds), old(At(r0))) else Went(r, rc, old(s.bounds), old(At(r0)))
      ensures old(Stuck(r0)) ==> gone && rc == rc0
    {
      hide Inflater.Live, Fit, ModeOk, Shape, Same, Pos, LeftOk, Went, Lacks, Hclen;
      r, rc := r0, rc0;
      ghost var bd, st := s.bounds, At(r0);
      OnSelf(r0);
      while index < 4 + Hclen(table)
        invariant Fit(r) && On(r, bd, st) && s.Going(rc, r.n) && mode == BTREE && Pos(r) >= Pos(r0)
        invariant Where() == old(Where())
        invariant old(Stuck(r0)) ==> Stuck(r) && rc == rc0
        decreases 4 + Hclen(table) - index
        modifies this`blens, this`index, s
      {
        BtreeFit(r);
        if Stuck(r) { StuckWants(r); }
        ghost var r1 := r;
        var ok;
        ok, r, rc := s.NeedBits(r, 3, rc);
        ModeSame(r1, r);
        if !ok {
          FitAgain(r);
          NotThere(r, 3);
          BtreeWants(r);
          rc := Starve(r, rc, bd, st);
          return true, r, rc;
        }
        r := TakeClLen(r, bd, st);
      }
      BtreeFit(r);
      if Stuck(r) { StuckWants(r); }
      gone, rc := FinishBtree(r, rc, bd, st);
    }

    lemma {:induction false} BtreeWants(r: Regs)
      requires mode == BTREE && ModeOk(r) && index < Hclen(table) + 4 && Pos(r) + 3 > 8 * s.bounds.lim
      ensures Lacks(Input(V(), s.bounds.lim), At(r))
    {
      hide BtreeRead, Pos, TableOk;
    }

    lemma {:induction false} BtreeFit(r: Regs)
      requires Fit(r) && mode == BTREE
      ensures s.Live(r) && r.k < 16 && Shape() && ModeOk(r) && index <= Hclen(table) + 4
    {
    }

    lemma {:induction false} FitAgain(r: Regs)
      requires s.Live(r) && r.k < 16 && Shape() && ModeOk(r)
      ensures Fit(r)
    {
      hide Inflater.Live, ModeOk, Shape;
    }

    lemma {:induction false} ModeSame(r: Regs, r2: Regs)
      requires Pos(r) == Pos(r2) && (mode == BTREE || mode == DTREE)
      ensures ModeOk(r) ==> ModeOk(r2)
      ensures At(r) == At(r2)
    {
      hide Pos, TableOk, BtreeRead, ClTable, ValidLens, HuftBuild.Longest;
    }

    /** The lengths not sent are zero. */
    method ZeroRest(b0: seq<nat>, n: nat, ghost v: nat, ghost pos: nat) returns (b: seq<nat>)
      requires BtreeRead(b0, v, pos, n)
      ensures |b| == |b0| && b[..19] == ReadClLens(v, pos, n)
    {
      hide Low, Shr, Zag, ReadClLens;
      b := b0;
      var i := n;
      while i < 19
        invariant n <= i <= 19 && |b| == |b0|
        invariant forall k :: 0 <= k < i ==> b[Zag(k)] == if k < n then Low(Shr(v, pos + 3 * k), 3) else 0
      {
        forall k | 0 <= k < i ensures Zag(k) != Zag(i) {
          if Zag(k) == Zag(i) { ZagDistinct(k, i); }
        }
        b := b[Zag(i) := 0];
        i := i + 1;
      }
      forall k | 0 <= k < 19 ensures b[..19][k] == ReadClLens(v, pos, n)[k] {
        ZagInverse(k);
        ClAt(v, pos, n, UnZag(k));
        assert k == Zag(UnZag(k));
      }
    }

    /** The bit length tree is made. */
    method MakeBits(r: Regs) returns (t: int)
      requires Fit(r) && mode == BTREE && index == Hclen(table) + 4
      modifies this`blens, this`tb, this`bb, hufts
      ensures Fit(r) && At(r) == old(At(r)) && |blens| >= 19 && ValidLens(blens[..19])
      ensures t == if Accepted(blens[..19]) then HuftBuild.Z_OK else Z_DATA_ERROR
      ensures t == HuftBuild.Z_OK ==> ClTable(hufts[..], tb, bb, blens[..19]) && bb == HuftBuild.Longest(blens[..19])
      ensures index <= 19 && 3 * index <= Pos(r) && blens[..19] == ReadClLens(V(), Pos(r) - 3 * index, index) && TableOk(table)
      ensures Ordered(blens[..19], V(), Pos(r) - 3 * index, index)
    {
      hide Inflater.Live, Agree, Pos, ReadClLens, Accepted, ClTable, Hlit, Hdist, Hclen, Kraft, Low, Shr, Zag, HuftBuild.Longest, Ordered;
      ghost var v, pos := V(), Pos(r) - 3 * index;
      TableParts(table);
      ClOrder(v, pos, index);
      var b := ZeroRest(blens, index, v, pos);
      ClSmall(v, pos, index);
      ReadAll(b, v, pos, index);
      blens := b;
      t, tb, bb := TreesBits(b[..19], hufts);
      MemCode();
    }

    lemma {:induction false} MemCode()
      ensures HuftBuild.Z_MEM_ERROR == Z_MEM_ERROR && HuftBuild.Z_DATA_ERROR == Z_DATA_ERROR && HuftBuild.Z_OK == Z_OK
    {
    }

    lemma {:induction false} ReadAll(b: seq<nat>, v: nat, pos: nat, n: nat)
      requires n <= 19 <= |b| && b[..19] == ReadClLens(v, pos, n)
      ensures BtreeRead(b, v, pos, n)
    {
      hide Low, Shr, Zag, ReadClLens;
      forall i | 0 <= i < n ensures b[Zag(i)] == Low(Shr(v, pos + 3 * i), 3) {
        ClAt(v, pos, n, i);
        assert b[Zag(i)] == b[..19][Zag(i)];
      }
    }

    /** The bit length tree has been made: on to the code lengths. */
    method StartDtree(r: Regs, rc: int, ghost bd: Bounds, ghost st: State)
      requires Fit(r) && On(r, bd, st) && s.Going(rc, r.n) && mode == BTREE && index == Hclen(table) + 4 <= 19 && 3 * index <= Pos(r)
      requires st.m.IsBtree? && st.pos <= Pos(r) && TableOk(table)
      requires |blens| >= 19 && ValidLens(blens[..19]) && blens[..19] == ReadClLens(V(), Pos(r) - 3 * index, index)
      requires ClTable(hufts[..], tb, bb, blens[..19]) && bb == HuftBuild.Longest(blens[..19]) && Accepted(blens[..19])
      modifies this`index, this`cl, this`mode
      ensures Went(r, rc, bd, st)
    {
      hide Inflater.Live, Agree, Healthy, TablesOk, Same, Pos, Went, ReadClLens, Accepted, ClTable, Hlit, Hdist, Hclen, Kraft, BtreeRead, HuftBuild.Longest;
      s.PosBound(r);
      BtreeDoneSame(V(), bd.lim, At(r), blens[..19]);
      ghost var mid := At(r);
      index := 0;
      cl := blens[..19];
      mode := DTREE;
      NoLensYet();
      SameOn(V(), bd.lim, st, mid, At(r));
      WentDtree(r, rc, bd, st);
    }

    method FinishBtree(r: Regs, rc0: int, ghost bd: Bounds, ghost st: State) returns (gone: bool, rc: int)
      requires Fit(r) && On(r, bd, st) && s.Going(rc0, r.n) && mode == BTREE && index == Hclen(table) + 4
      requires st.m.IsBtree? && st.pos <= Pos(r)
      modifies this, s, hufts
      ensures Where() == old(Where())
      ensures if gone then LeftOk(rc, bd, st) else Went(r, rc, bd, st)
    {
      hide Fit, Same, Pos, Went, ReadClLens, Accepted, ClTable, Hlit, Hdist, Hclen, BtreeRead, TableOk, HuftBuild.Longest;
      rc := rc0;
      FitBound(r);
      BtreeFit(r);
      var t := MakeBits(r);
      gone := t != HuftBuild.Z_OK;
      if gone {
        BtreeDoneSame(V(), bd.lim, At(r), blens[..19]);
        ghost var mid := At(r);
        mode := BAD;
        SameOn(V(), bd.lim, st, mid, At(r));
        BadFit(r);
        rc := LeaveBad(r, bd, st);
      } else {
        StartDtree(r, rc, bd, st);
      }
    }

    lemma {:induction false} BadFit(r: Regs)
      requires s.Live(r) && r.k < 33 && Shape() && mode == BAD
      ensures Fit(r)
    {
    }

    lemma {:induction false} NoLensYet()
      ensures ValidLens(blens[..0]) && blens[..0] == []
    {
    }

    lemma {:induction false} WentDtree(r: Regs, rc: int, bd: Bounds, st: State)
      requires s.Live(r) && r.k < 16 && Shape() && s.Going(rc, r.n) && mode == DTREE && ModeOk(r) && On(r, bd, st)
      requires st.pos <= Pos(r) && Weight(st.m) > 3
      ensures Went(r, rc, bd, st)
    {
      s.PosBound(r);
      hide Inflater.Live, Agree, Healthy, TablesOk, Same, Pos, ClTable, HuftBuild.Longest;
    }

    lemma {:induction false} DtreeFit(r: Regs)
      requires Fit(r) && mode == DTREE
      ensures s.Live(r) && r.k < 16 && Shape() && ModeOk(r) && index <= Total() == |blens| && 1 <= bb <= 7 && bb == HuftBuild.Longest(cl)
      ensures At(r).m == IsDtree(table, cl, blens[..index]) && TableOk(table)
      ensures index < Total() ==> InDtree(At(r))
    {
      hide Inflater.Live, Shape, TableOk, ClSlot, Hlit, Hdist, HuftBuild.Longest;
    }

    /** The symbol and the bits that stand at the position. */
    ghost predicate Found(r: Regs, c: nat, n: nat)
      reads this`cl
    {
      var w := Shr(V(), Pos(r));
      c == ClSym(cl, w) < 19 && 1 <= n == ClUsed(cl, w) <= 7
    }

    /** The lookup of a code length symbol. */
    method Look(r: Regs) returns (n: nat, c: nat)
      requires Fit(r) && mode == DTREE && r.k >= bb
      ensures Found(r, c, n) && n <= bb
    {
      hide Inflater.Live, Shape, TableOk, Shr, Low, Hlit, Hdist, Pos, HuftBuild.Longest, ClSym, ClUsed;
      ghost var w := Shr(V(), Pos(r));
      s.DumpLive(r, bb);
      assert ClSlot(hufts[..], tb, bb, cl, w);
      SlotIs(hufts[..], tb, bb, cl, w);
      var h := hufts[tb + Low(r.b, bb)];
      n, c := h.bits, h.base;
    }

    /** One round of the loop that reads the code lengths. */
    method OneLength(r0: Regs, rc0: int, ghost bd: Bounds, ghost st: State) returns (gone: bool, r: Regs, rc: int)
      requires Fit(r0) && mode == DTREE && index < Total() && On(r0, bd, st) && s.Going(rc0, r0.n)
      modifies this`blens, this`index, this`mode, s
      ensures Where() == old(Where())
      ensures if gone then LeftOk(rc, bd, st)
              else Fit(r) && mode == DTREE && On(r, bd, st) && s.Going(rc, r.n) && Pos(r) >= Pos(r0) && index > old(index)
      ensures old(Stuck(r0)) ==> gone && rc == rc0
    {
      hide Fit, ModeOk, Shape, Same, Pos, LeftOk, Shr, Low, At, RepBits, InDtree, Inflater.Live, HuftBuild.Longest, Lacks, ClSym, ClUsed;
      DtreeFit(r0);
      if Stuck(r0) { StuckWants(r0); }
      var ok;
      ok, r, rc := s.NeedBits(r0, bb, rc0);
      ModeSame(r0, r);
      if !ok {
        FitAgain(r);
        NotThere(r, bb);
        DtreeWants(r);
        rc := Starve(r, rc, bd, st);
        return true, r, rc;
      }
      FitAgain(r);
      var n, c := Look(r);
      if c < 16 {
        r := Short(r, n, c, bd, st);
        gone := false;
      } else {
        FewBits(c);
        gone, r, rc := Repeat(r, rc, n, c, bd, st);
      }
    }

    lemma {:induction false} FewBits(c: nat)
      requires 16 <= c < 19
      ensures RepBits(c) <= 7
    {
    }

    lemma {:induction false} DtreeWants(r: Regs)
      requires Fit(r) && mode == DTREE && index < Total() && Pos(r) + bb > 8 * s.bounds.lim
      ensures Lacks(Input(V(), s.bounds.lim), At(r))
    {
      DtreeFit(r);
      AtPos(r);
      hide Fit, InDtree, Shr, HuftBuild.Longest, Pos, ClSym, ClUsed, At;
    }

    lemma {:induction false} RepeatWants(r: Regs, c: nat, n: nat)
      requires Fit(r) && mode == DTREE && index < Total() && Found(r, c, n) && c >= 16 && Pos(r) + n + RepBits(c) > 8 * s.bounds.lim
      ensures Lacks(Input(V(), s.bounds.lim), At(r))
    {
      DtreeFit(r);
      AtPos(r);
      hide Fit, InDtree, Shr, HuftBuild.Longest, Pos, ClSym, ClUsed, RepBits, At;
    }

    /** A code length itself. */
    method Short(r0: Regs, n: nat, c: nat, ghost bd: Bounds, ghost st: State) returns (r: Regs)
      requires Fit(r0) && mode == DTREE && index < Total() && On(r0, bd, st) && n <= bb <= r0.k && Found(r0, c, n) && c < 16
      modifies this`blens, this`index
      ensures Fit(r) && On(r, bd, st) && Pos(r) >= Pos(r0) && index == old(index) + 1
      ensures r.n == r0.n
    {
      hide Inflater.Live, Shape, Same, Pos, Shr, Low, InDtree, TableOk, ClTable, Hlit, Hdist, ValidLens, HuftBuild.Longest, ClSym, ClUsed;
      DtreeFit(r0);
      s.PosBound(r0);
      ghost var a := At(r0);
      s.DumpLive(r0, n);
      LengthSame(V(), bd.lim, a, c, n);
      LenAdded(blens[..index], c);
      AddOne(blens, index, c);
      blens := blens[index := c];
      index := index + 1;
      r := Dumped(r0, n);
      SameOn(V(), bd.lim, st, a, At(r));
    }

    lemma {:induction false} AddOne(b: seq<nat>, i: nat, c: nat)
      requires i < |b|
      ensures b[i := c][..i + 1] == b[..i] + [c]
    {
    }

    lemma {:induction false} LenAdded(acc: seq<nat>, c: nat)
      requires ValidLens(acc) && c < 16
      ensures ValidLens(acc + [c])
    {
    }

    /** A repeat count. */
    method Repeat(r0: Regs, rc0: int, n: nat, c: nat, ghost bd: Bounds, ghost st: State) returns (gone: bool, r: Regs, rc: int)
      requires Fit(r0) && mode == DTREE && index < Total() && On(r0, bd, st) && s.Going(rc0, r0.n) && n <= bb <= r0.k
      requires Found(r0, c, n) && 16 <= c < 19 && 1 <= n <= 7
      modifies this`blens, this`index, this`mode, s
      ensures Where() == old(Where())
      ensures if gone then LeftOk(rc, bd, st)
              else Fit(r) && mode == DTREE && On(r, bd, st) && s.Going(rc, r.n) && Pos(r) >= Pos(r0) && index > old(index)
      ensures old(Stuck(r0)) && r0.k >= bb ==> gone && rc == rc0
    {
      hide Fit, ModeOk, Shape, Same, Pos, LeftOk, Shr, Low, At, InDtree, Inflater.Live, Hlit, Hdist, HuftBuild.Longest, Lacks, ClSym, ClUsed;
      DtreeFit(r0);
      if Stuck(r0) { StuckWants(r0); }
      FitBound(r0);
      var i := if c == 18 then 7 else c - 14;
      var ok;
      ok, r, rc := s.NeedBits(r0, n + i, rc0);
      ModeSame(r0, r);
      if !ok {
        FitAgain(r);
        NotThere(r, n + i);
        RepeatWants(r, c, n);
        rc := Starve(r, rc, bd, st);
        return true, r, rc;
      }
      gone, r := TakeRepeat(r, n, c, i, bd, st);
      if gone {
        rc := LeaveBad(r, bd, st);
      }
    }

    lemma {:induction false} AtPos(r: Regs)
      ensures At(r).pos == Pos(r) && (mode == DTREE && index <= |blens| ==> At(r).m == IsDtree(table, cl, blens[..index]))
    {
      hide Pos;
    }

    method RepeatCount(r0: Regs, n: nat, c: nat, i: nat) returns (j: nat, r: Regs)
      requires s.Live(r0) && n + i <= r0.k
      ensures s.Live(r) && Pos(r) == Pos(r0) + n + i && r.k == r0.k - n - i
      ensures j == RepBase(c) + Low(Shr(BytesVal(s.input), Pos(r0) + n), i) && j > 0
      ensures r.n == r0.n
    {
      hide Inflater.Live, Pos, Shr, Low, Dumped;
      j := if c == 18 then 11 else 3;
      s.DumpLive(r0, n);
      r := Dumped(r0, n);
      s.DumpLive(r, i);
      j := j + Low(r.b, i);
      r := Dumped(r, i);
    }

    lemma {:induction false} RepeatIs(v: nat, a: State, c: nat, n: nat, j: nat)
      requires a.m.IsDtree? && 16 <= c && j == RepBase(c) + Low(Shr(v, a.pos + n), RepBits(c))
      ensures AfterLength(v, a, c, n) ==
              if |a.m.acc| + j > 258 + Hlit(a.m.table) + Hdist(a.m.table) || (c == 16 && a.m.acc == [])
              then State(IsBad, a.last, a.pos + n + RepBits(c), a.hist)
              else State(IsDtree(a.m.table, a.m.cl, a.m.acc + Times(if c == 16 then a.m.acc[|a.m.acc| - 1] else 0, j)), a.last,
                         a.pos + n + RepBits(c), a.hist)
    {
      hide Low, Shr, Hlit, Hdist, Times, RepBase, RepBits;
    }

    /** The run goes into the list of lengths, if it fits. */
    method PutRun(c: nat, j: nat) returns (bad: bool)
      requires mode == DTREE && index < Total() == |blens| && j > 0 && ValidLens(blens[..index])
      modifies this`blens, this`index, this`mode
      ensures bad == (old(index) + j > Total() || (c == 16 && old(index) < 1)) && |blens| == old(|blens|)
      ensures if bad then mode == BAD
              else mode == DTREE && index == old(index) + j <= |blens| && ValidLens(blens[..index])
                   && blens[..index] == old(blens[..index]) + Times(if c == 16 then old(blens[index - 1]) else 0, j)
    {
      hide ValidLens, Times, Hlit, Hdist;
      bad := index + j > Total() || (c == 16 && index < 1);
      if bad {
        mode := BAD;
      } else {
        RunAdded(blens[..index], c, j);
        var x := if c == 16 then blens[index - 1] else 0;
        blens := FillRun(blens, index, x, j);
        index := index + j;
      }
    }

    method EnterRepeat(r0: Regs, n: nat, c: nat, i: nat) returns (bad: bool, r: Regs)
      requires s.Live(r0) && Shape() && ModeOk(r0) && mode == DTREE && index < Total()
      requires 16 <= c < 19 && i == RepBits(c) && n + i <= r0.k && (r0.k < 16 || r0.k < n + i + 8)
      modifies this`blens, this`index, this`mode
      ensures Fit(r) && Pos(r) >= Pos(r0) && r.n == r0.n && if bad then mode == BAD else mode == DTREE && index > old(index)
      ensures old(At(r0)).m.IsDtree? && At(r) == AfterLength(V(), old(At(r0)), c, n)
    {
      hide Inflater.Live, Shape, Pos, Shr, Low, TableOk, ClTable, Hlit, Hdist, ValidLens, Times, RepBase, RepBits, HuftBuild.Longest, AfterLength;
      var j;
      j, r := RepeatCount(r0, n, c, i);
      RepeatIs(V(), At(r0), c, n, j);
      bad := PutRun(c, j);
    }

    method TakeRepeat(r0: Regs, n: nat, c: nat, i: nat, ghost bd: Bounds, ghost st: State) returns (bad: bool, r: Regs)
      requires s.Live(r0) && Shape() && ModeOk(r0) && mode == DTREE && index < Total() && On(r0, bd, st)
      requires Found(r0, c, n) && 16 <= c < 19 && i == RepBits(c) && Pos(r0) + bb <= 8 * bd.lim && bb == HuftBuild.Longest(cl)
      requires n + i <= r0.k && (r0.k < 16 || r0.k < n + i + 8) && InDtree(At(r0))
      modifies this`blens, this`index, this`mode
      ensures Fit(r) && On(r, bd, st) && Pos(r) >= Pos(r0)
      ensures if bad then mode == BAD else mode == DTREE && index > old(index)
      ensures r.n == r0.n
    {
      hide Inflater.Live, Shape, ModeOk, Fit, Same, Pos, Shr, Low, InDtree, AfterLength, Total, HuftBuild.Longest, ClSym, ClUsed;
      AtPos(r0);
      s.PosBound(r0);
      ghost var a := At(r0);
      LengthSame(V(), bd.lim, a, c, n);
      bad, r := EnterRepeat(r0, n, c, i);
      SameOn(V(), bd.lim, st, a, At(r));
    }

    method FillRun(b0: seq<nat>, n: nat, x: nat, j: nat) returns (b: seq<nat>)
      requires j > 0 && n + j <= |b0|
      ensures |b| == |b0| && b[..n + j] == b0[..n] + Times(x, j)
    {
      b := b0;
      var i, m := n, j;
      while m > 0
        invariant i + m == n + j && n <= i && |b| == |b0|
        invariant b[..i] == b0[..n] + Times(x, i - n)
      {
        b := b[i := x];
        i := i + 1;
        m := m - 1;
      }
    }

    method DoDtree(r0: Regs, rc0: int) returns (gone: bool, r: Regs, rc: int)
      requires Fit(r0) && s.Going(rc0, r0.n) && mode == DTREE
      modifies this, s, hufts
      ensures Where() == old(Where())
      ensures if gone then LeftOk(rc, old(s.bounds), old(At(r0))) else Went(r, rc, old(s.bounds), old(At(r0)))
      ensures old(Stuck(r0)) ==> gone && rc == rc0
    {
      hide Inflater.Live, Fit, ModeOk, Shape, Same, Pos, LeftOk, Went, At, Hlit, Hdist, HuftBuild.Longest;
      r, rc, gone := r0, rc0, false;
      ghost var bd, st := s.bounds, At(r0);
      OnSelf(r0);
      DtreeFit(r0);
      AtPos(r0);
      while index < Total()
        invariant Fit(r) && On(r, bd, st) && s.Going(rc, r.n) && mode == DTREE && Pos(r) >= Pos(r0) && table == old(table)
        invariant Where() == old(Where())
        invariant old(Stuck(r0)) ==> Stuck(r) && rc == rc0
        decreases Total() - index
        modifies this`blens, this`index, this`mode, s
      {
        gone, r, rc := OneLength(r, rc, bd, st);
        if gone { return; }
      }
      DtreeFit(r);
      if Stuck(r) { StuckWants(r); }
      gone, rc := FinishDtree(r, rc, bd, st);
    }

    /** The code lengths are complete: make the tables. */
    method FinishDtree(r: Regs, rc0: int, ghost bd: Bounds, ghost st: State) returns (gone: bool, rc: int)
      requires Fit(r) && On(r, bd, st) && s.Going(rc0, r.n) && mode == DTREE && index == Total()
      requires st.m.IsDtree? && st.pos <= Pos(r)
      modifies this, s, hufts
      ensures Where() == old(Where())
      ensures if gone then LeftOk(rc, bd, st) else Went(r, rc, bd, st)
    {
      hide Fit, Same, Surely, Pos, Went, TableOk, Inflater.Live, ModeOk, At, Hlit, Hdist, TreesVerdict, Agree, ValidLens, HuftBuild.Longest, LeftOk;
      rc := rc0;
      FitBound(r);
      DtreeFit(r);
      ghost var mid := At(r);
      AllLens(r);
      var nl := 257 + Hlit(table);
      var e, tables := TreesDynamic(nl, 1 + Hdist(table), blens, hufts);
      MemCode();
      DtreeDoneSame(V(), bd.lim, mid, tables);
      gone := e != HuftBuild.Z_OK;
      if e == Z_MEM_ERROR {
        SurelyOn(V(), bd.lim, st, mid, NoSpace(Pos(r), s.hist));
        rc := LeaveMem(r, bd, st);
      } else if gone {
        mode := BAD;
        AtBadIs(r);
        SameOn(V(), bd.lim, st, mid, At(r));
        BadFit(r);
        rc := LeaveBad(r, bd, st);
      } else {
        AgreeOk(tables, blens[..nl], blens[nl..]);
        StartCodes(r, tables);
        SameOn(V(), bd.lim, st, mid, At(r));
        WentCodes(r, rc, bd, st);
      }
    }

    /** LEAVE for want of table space. */
    method LeaveMem(r: Regs, ghost bd: Bounds, ghost st: State) returns (rc: int)
      requires s.Live(r) && |s.hist| >= WSIZE && s.bounds == bd && Surely(V(), bd.lim, st, NoSpace(Pos(r), s.hist))
      modifies s
      ensures Where() == old(Where())
      ensures LeftOk(rc, bd, st)
    {
      hide Surely, Inflater.Live, Pos, Pending;
      rc := s.Leave(r, Z_MEM_ERROR);
    }

    lemma {:induction false} AtBadIs(r: Regs)
      requires mode == BAD
      ensures At(r) == State(IsBad, last, Pos(r), s.hist)
    {
    }

    lemma {:induction false} AllLens(r: Regs)
      requires mode == DTREE && ModeOk(r) && index == Total() && |s.hist| >= WSIZE
      ensures ValidLens(blens) && At(r).m == IsDtree(table, cl, blens) && |cl| == 19 && TableOk(table) && |At(r).hist| >= WSIZE
      ensures Hlit(table) <= 29 && Hdist(table) <= 29 && |blens| == 258 + Hlit(table) + Hdist(table)
      ensures blens[257 + Hlit(table)..257 + Hlit(table) + (1 + Hdist(table))] == blens[257 + Hlit(table)..]
      ensures At(r) == State(IsDtree(table, cl, blens), last, Pos(r), s.hist)
    {
      hide ClTable, Pos, HuftBuild.Longest;
      assert blens[..index] == blens;
    }

    /** inflate_codes_new for a block of codes. */
    method StartCodes(r: Regs, tables: Tables)
      requires s.Live(r) && r.k < 16 && Shape() && TablesOk(tables)
      modifies s`t, s`mode, this`mode
      ensures s.Live(r) && Shape() && mode == CODES && ModeOk(r) && At(r) == State(IsCodes(tables, AtStart), last, Pos(r), s.hist)
    {
      hide Inflater.Live, TablesOk, Pos, Agree;
      s.NewCodes(tables);
      StartHealthy(r);
      mode := CODES;
    }

    lemma {:induction false} WentCodes(r: Regs, rc: int, bd: Bounds, st: State)
      requires s.Live(r) && r.k < 16 && Shape() && s.Going(rc, r.n) && mode == CODES && ModeOk(r) && On(r, bd, st)
      requires st.pos <= Pos(r) && Weight(st.m) > 2
      ensures Went(r, rc, bd, st)
    {
      s.PosBound(r);
      hide Inflater.Live, Agree, Healthy, TablesOk, Same, Pos;
    }

    // ---------------------------------------------------------------- blocks of codes, and the end

    lemma {:induction false} CodesFit(r: Regs)
      requires Fit(r) && mode == CODES
      ensures s.Live(r) && r.k < 16 && Shape() && TablesOk(s.t) && Healthy(s.t, BytesVal(s.input), s.Cur(r)) && (s.mode == END ==> r.k < 8)
      ensures At(r) == State(IsCodes(s.t, s.Control()), last, Pos(r), s.hist) && s.Traced(r)
    {
      hide Inflater.Live, Agree, Healthy, TablesOk, Pos, OnCode, CodeTaken;
    }

    /** What inflate_codes leaves is a block of codes, further on. */
    lemma {:induction false} CodesKept(rc: int, s0: S)
      requires s.LeftOk(rc, s0) && mode == CODES && TablesOk(s.t) && hufts.Length == HuftBuild.MANY
      requires Agree(fixed, FixedLengths(), FixedDistances())
      ensures Fit(s.Loaded()) && At(s.Loaded()) == State(IsCodes(s.t, s.Control()), last, Pos(s.Loaded()), s.hist)
      ensures s.Control().AtWash? ==> s.bitk < 8
    {
      hide Inflater.Live, Agree, TablesOk, Pos, Run, LitLeaf, DistLeaf, Walk, DistsOk;
    }

    lemma {:induction false} CodesSameHere(a: S, b: S)
      requires s.Joined(a, b)
      ensures Same(V(), s.bounds.lim, State(IsCodes(s.t, a.c), last, a.pos, a.hist), State(IsCodes(s.t, b.c), last, b.pos, b.hist))
    {
      hide FromState, Run, Leads, Comes;
      CodesCome(V(), s.t, last, a, b);
      forall size: nat | s.bounds.lim <= size
        ensures FromState(Input(V(), size), State(IsCodes(s.t, a.c), last, a.pos, a.hist)) ==
                FromState(Input(V(), size), State(IsCodes(s.t, b.c), last, b.pos, b.hist))
      {
        assert Run(s.t, s.V(), size, a) == Run(s.t, s.V(), size, b);
        CodesStep(Input(V(), size), s.t, last, a, b);
      }
    }

    /** Why inflate_codes has stopped. */
    lemma {:induction false} CodesStopped(rc: int, s0: S)
      requires s.LeftOk(rc, s0) && mode == CODES
      ensures Flushed()
      ensures if rc == Z_STREAM_END then s.Control() == AtWash
              else if rc == Z_DATA_ERROR then s.mode == BADCODE
              else s.Going(rc, s.avail_in) && (Hungry() || Choked())
    {
      hide Healthy, Run, Ring, Pos, Leads, Inflater.Traced;
      s.PosBound(s.Loaded());
      hide BufOk;
      RingBounds(s.window[..], s.read, s.write, s.hist, s.out);
    }

    /** The flush after inflate_codes has returned. */
    method FlushSaved(rc0: int) returns (rc: int)
      requires Fit(s.Loaded()) && mode == CODES && Flushed()
      modifies s`out, s`avail_out, s`total_out, s`read, s`write
      ensures Fit(s.Loaded()) && At(s.Loaded()) == old(At(s.Loaded())) && Pos(s.Loaded()) == old(Pos(s.Loaded())) && Flushed()
      ensures s.avail_in == old(s.avail_in) && (old(Hungry()) ==> Hungry()) && (old(Choked()) ==> Choked())
      ensures rc == rc0 || (rc0 == Z_BUF_ERROR && rc == Z_OK)
      ensures old(Pending(s.read, s.write)) == 0 ==> rc == rc0
    {
      hide Agree, TablesOk, Healthy, BufOk, Ring, Pending, Room, Lacks, OnCode, CodeTaken;
      rc := s.Flush(rc0);
    }

    method DoCodes(r0: Regs, rc0: int) returns (gone: bool, r: Regs, rc: int)
      requires Fit(r0) && s.Going(rc0, r0.n) && mode == CODES
      modifies this, s, s.window
      ensures if gone then LeftOk(rc, old(s.bounds), old(At(r0))) else Went(r, rc, old(s.bounds), old(At(r0)))
      ensures old(Stuck(r0)) ==> gone && rc == rc0
      ensures Turns(V(), old(Where()), old(At(r0)), Where(), At(if gone then s.Loaded() else r), false) && rc != Z_MEM_ERROR
    {
      hide Fit, Same, Pos, Went, LeftOk, Inflater.Live, ModeOk, At, TablesOk, Healthy, Agree, Inflater.Control, Inflater.Loaded, Turns, Inflater.Traced;
      CodesFit(r0);
      if Stuck(r0) { StuckWants(r0); }
      s.Update(r0);
      UpdatedFit(r0);
      CodesFit(s.Loaded());
      LoadedIn();
      gone, r, rc := CallCodes(rc0);
    }

    /** inflate_codes, and what its result asks for. */
    method CallCodes(rc0: int) returns (gone: bool, r: Regs, rc: int)
      requires Fit(s.Loaded()) && s.Going(rc0, s.avail_in) && mode == CODES
      modifies this, s, s.window
      ensures if gone then LeftOk(rc, old(s.bounds), old(At(s.Loaded()))) else Went(r, rc, old(s.bounds), old(At(s.Loaded())))
      ensures old(s.Idle(s.Loaded())) ==> gone && rc == rc0
      ensures Turns(V(), old(Where()), old(At(s.Loaded())), Where(), At(if gone then s.Loaded() else r), false) && rc != Z_MEM_ERROR
    {
      hide Fit, Same, Pos, Went, LeftOk, Inflater.Live, ModeOk, At, Inflater.Control, Inflater.Loaded, Turns, CaughtAt, Hungry, Choked, Inflater.Idle, Flushed, Sound;
      r := s.Loaded();
      ghost var bd, st, p := s.bounds, At(r), Where();
      CodesFit(r);
      AtHist(r);
      rc := GoCodes(rc0);
      gone := rc != Z_STREAM_END;
      if gone {
        rc := LeaveCodes(rc, bd, st);
      } else {
        ghost var mid := At(s.Loaded());
        rc := Z_OK;
        r := LeaveBlock(bd, st);
        OverTurns(V(), p, st, Where(), mid, At(r));
      }
    }

    lemma {:induction false} UpdatedFit(r: Regs)
      requires s.Live(r) && r.k < 16 && Shape() && mode == CODES && TablesOk(s.t) && s.Loaded() == r
      requires Healthy(s.t, BytesVal(s.input), s.Cur(r)) && (s.mode == END ==> r.k < 8) && s.Traced(r)
      ensures Fit(s.Loaded())
    {
      hide Inflater.Live, Agree, Healthy, TablesOk, Pos, OnCode, CodeTaken;
    }

    /** The call of inflate_codes. */
    method GoCodes(rc0: int) returns (rc: int)
      requires Fit(s.Loaded()) && s.Going(rc0, s.avail_in) && mode == CODES
      modifies this`astray, s, s.window
      ensures Fit(s.Loaded()) && On(s.Loaded(), old(s.bounds), old(At(s.Loaded()))) && Flushed()
      ensures if rc == Z_STREAM_END then s.Control() == AtWash && old(Pos(s.Loaded())) <= Pos(s.Loaded())
              else if rc == Z_DATA_ERROR then s.mode == BADCODE
              else s.Going(rc, s.avail_in) && (Hungry() || Choked())
      ensures Turns(V(), old(Where()), old(At(s.Loaded())), Where(), At(s.Loaded()), false)
      ensures rc == Z_STREAM_END && old(Caught()) ==> astray
      ensures old(s.Idle(s.Loaded())) ==> rc == rc0 && Pending(s.read, s.write) == 0
    {
      hide Fit, Same, Inflater.Live, ModeOk, At, TablesOk, Healthy, Run, Inflater.LeftOk, Inflater.Loaded, Inflater.Joined, Inflater.Running,
           Inflater.Idle, Pos, Inflater.Control, Hungry, Choked, Agree, FixedLengths, FixedDistances, Lacks, Flushed, Turns, CaughtAt,
           Inflater.Slipped, Inflater.Traced, Sound;
      ghost var s0, p, st := s.Cur(s.Loaded()), Where(), At(s.Loaded());
      CodesReady(rc0);
      rc := s.Codes(rc0);
      if s.under && !last { astray := true; }
      CodesKept(rc, s0);
      CodesMoved(rc, s0);
      CodesSameHere(s0, s.Cur(s.Loaded()));
      CodesStopped(rc, s0);
      CodesTurn(rc, s0, p);
    }

    lemma {:induction false} CodesReady(rc: int)
      requires Fit(s.Loaded()) && s.Going(rc, s.avail_in) && mode == CODES
      ensures s.Running(s.Loaded(), rc, s.Cur(s.Loaded())) && s.base <= s.bounds.lim && Shape() && TablesOk(s.t)
      ensures At(s.Loaded()) == InCodes(s.t, last, s.Cur(s.Loaded())) && Sound(V(), At(s.Loaded()))
    {
      CodesFit(s.Loaded());
      SoundFit(s.Loaded());
      s.JoinedSelf(s.Cur(s.Loaded()));
      FitBound(s.Loaded());
      s.InBuffer(s.Loaded());
      hide Fit, Inflater.Live, TablesOk, Healthy, Inflater.Joined, Inflater.Traced, Shape, Sound;
    }

    lemma {:induction false} CodesTurn(rc: int, s0: S, p: Place)
      requires s.LeftOk(rc, s0) && s.Slipped(p.base, p.under) && Sound(V(), InCodes(s.t, last, s0)) && p.base <= s.bounds.lim
      ensures var s2 := s.Cur(s.Loaded());
              Turns(V(), p, InCodes(s.t, last, s0), Slip(p, last, s2), InCodes(s.t, last, s2), false)
              && (rc == Z_STREAM_END && CaughtAt(V(), p, InCodes(s.t, last, s0)) ==> Slip(p, last, s2).astray)
              && Slip(p, last, s2) == Place(s.base, s.under, p.astray || (s.under && !last))
    {
      hide Inflater.Saved, Healthy, Leads, Run, Turns, CaughtAt, Pos, Inflater.Traced, Sound;
      CodesFate(V(), s.bounds.lim, p, s.t, last, s0, s.Cur(s.Loaded()));
    }

    lemma {:induction false} CodesMoved(rc: int, s0: S)
      requires s.LeftOk(rc, s0)
      ensures s.Joined(s0, s.Cur(s.Loaded()))
      ensures rc == Z_STREAM_END ==> s0.pos <= Pos(s.Loaded())
    {
      hide Inflater.Saved, Healthy, Run, Pos, Leads, Inflater.Traced;
      if rc == Z_STREAM_END {
        RunGrows(s.t, V(), s.bounds.lim, s0);
        RunBad(s.t, V(), s.bounds.lim, s.Cur(s.Loaded()));
      }
    }

    method LeaveCodes(rc0: int, ghost bd: Bounds, ghost st: State) returns (rc: int)
      requires Fit(s.Loaded()) && mode == CODES && On(s.Loaded(), bd, st) && Flushed()
      requires if rc0 == Z_DATA_ERROR then s.mode == BADCODE else s.Going(rc0, s.avail_in) && (Hungry() || Choked())
      modifies s`out, s`avail_out, s`total_out, s`read, s`write
      ensures LeftOk(rc, bd, st) && At(s.Loaded()) == old(At(s.Loaded())) && rc != Z_MEM_ERROR
      ensures old(Pending(s.read, s.write)) == 0 ==> rc == rc0
    {
      hide Fit, Same, Pos, At, Inflater.Loaded, Inflater.Saved, Hungry, Choked, Pending, FromState;
      AtHist(s.Loaded());
      rc := FlushSaved(rc0);
      FitSaved();
    }

    lemma {:induction false} AtHist(r: Regs)
      ensures At(r).hist == s.hist && At(r).pos == Pos(r) && At(r).last == last
    {
    }

    /** The block of codes is over. */
    method LeaveBlock(ghost bd: Bounds, ghost st: State) returns (r: Regs)
      requires Fit(s.Loaded()) && mode == CODES && On(s.Loaded(), bd, st) && s.Control() == AtWash
      requires st.m.IsCodes? && st.pos <= Pos(s.Loaded())
      modifies this`mode
      ensures Went(r, Z_OK, bd, st) && At(r) == NextBlock(last, Pos(r), s.hist)
      ensures old(At(s.Loaded())) == State(IsCodes(s.t, AtWash), last, Pos(r), s.hist) && Sound(V(), old(At(s.Loaded())))
    {
      r := s.Loaded();
      FitBound(r);
      CodesFit(r);
      hide Same, Inflater.Live, Healthy, TablesOk, Agree, Inflater.Loaded, Pos;
      ghost var mid := At(r);
      CodesEndSame(V(), bd.lim, s.t, last, Pos(r), s.hist);
      mode := if last then DRY else TYPE;
      SameOn(V(), bd.lim, st, mid, At(r));
    }

    method DoDry(r0: Regs, rc0: int) returns (rc: int)
      requires Fit(r0) && s.Going(rc0, r0.n) && mode == DRY
      modifies this`mode, s
      ensures Where() == old(Where())
      ensures LeftOk(rc, old(s.bounds), old(At(r0)))
    {
      hide Fit, Same, LeftOk, Inflater.Live, At, Pending;
      FitBound(r0);
      DryFit(r0);
      OnSelf(r0);
      ghost var st := At(r0);
      var r;
      r, rc := s.FlushOut(r0, rc0);
      DrySame(r0, r, st);
      if s.read != r.q {
        rc := LeaveFull(r, rc, s.bounds, st);
      } else {
        mode := DONE;
        rc := Finished(r, s.bounds, st);
      }
    }

    lemma {:induction false} DryFit(r: Regs)
      requires Fit(r) && mode == DRY
      ensures s.Live(r) && r.k < 16 && Shape() && At(r) == State(IsDry, last, Pos(r), s.hist)
    {
    }

    lemma {:induction false} DrySame(r0: Regs, r: Regs, st: State)
      requires s.Live(r) && r.k < 16 && Shape() && mode == DRY && Pos(r) == Pos(r0) && st == State(IsDry, last, Pos(r0), s.hist)
      ensures Fit(r) && On(r, s.bounds, st)
    {
      hide Inflater.Live, Agree, Pos, Same;
      SameSelf(V(), s.bounds.lim, st);
    }

    /** DONE: all is delivered. */
    method Finished(r: Regs, ghost bd: Bounds, ghost st: State) returns (rc: int)
      requires s.Live(r) && r.k < 16 && Shape() && mode == DONE && s.read == r.q && s.bounds == bd
      requires Same(V(), bd.lim, st, State(IsDry, last, Pos(r), s.hist))
      modifies s
      ensures Where() == old(Where())
      ensures LeftOk(rc, bd, st)
    {
      hide Same, Agree, BufOk, Pending, Ring, Room;
      RingBounds(s.window[..], s.read, r.q, s.hist, s.out);
      rc := s.Leave(r, Z_STREAM_END);
      RingBounds(s.window[..], s.read, s.write, s.hist, s.out);
    }

    // ---------------------------------------------------------------- inflate_blocks

    /** One case of the switch. */
    method Case(r0: Regs, rc0: int) returns (gone: bool, r: Regs, rc: int)
      requires Fit(r0) && s.Going(rc0, r0.n)
      modifies this, s, s.window, hufts
      ensures if gone then LeftOk(rc, old(s.bounds), old(At(r0))) else Went(r, rc, old(s.bounds), old(At(r0)))
      ensures old(Stuck(r0)) ==> gone && rc == rc0
      ensures Turns(V(), old(Where()), old(At(r0)), Where(), At(if gone then s.Loaded() else r), gone && rc == Z_MEM_ERROR)
    {
      hide Fit, Same, LeftOk, Went, At, Pos, Shape, Inflater.Live, Inflater.Loaded, Turns;
      if mode == CODES {
        gone, r, rc := DoCodes(r0, rc0);
      } else {
        SoundFit(r0);
        ghost var st := At(r0);
        gone, r, rc := OtherCase(r0, rc0);
        CaseTurns(gone, r, rc, st);
      }
    }

    lemma {:induction false} CaseTurns(gone: bool, r: Regs, rc: int, st: State)
      requires !st.m.IsCodes? && Sound(V(), st)
      requires if gone then LeftOk(rc, s.bounds, st) else Went(r, rc, s.bounds, st)
      ensures Turns(V(), Where(), st, Where(), At(if gone then s.Loaded() else r), gone && rc == Z_MEM_ERROR)
    {
      hide Fit, Same, Pos, Inflater.Loaded, Inflater.Saved, Hungry, Choked, Turns, Sound, Comes, Pending, Surely;
      var a := At(if gone then s.Loaded() else r);
      if !(gone && rc == Z_MEM_ERROR) { SameComes(V(), s.bounds.lim, st, a); }
      hide At;
      TurnsSteady(V(), Where(), st, a, gone && rc == Z_MEM_ERROR);
    }

    lemma {:induction false} SoundFit(r: Regs)
      requires Fit(r)
      ensures Sound(V(), At(r)) && (mode != CODES ==> !At(r).m.IsCodes?)
    {
      hide Inflater.Live, Agree, Healthy, TablesOk, ClTable, BtreeRead, TableOk, Pos, HuftBuild.Longest, Inflater.Traced;
    }

    method OtherCase(r0: Regs, rc0: int) returns (gone: bool, r: Regs, rc: int)
      requires Fit(r0) && s.Going(rc0, r0.n) && mode != CODES
      modifies this, s, s.window, hufts
      ensures if gone then LeftOk(rc, old(s.bounds), old(At(r0))) else Went(r, rc, old(s.bounds), old(At(r0)))
      ensures old(Stuck(r0)) ==> gone && rc == rc0
      ensures Where() == old(Where()) && s.bounds == old(s.bounds)
    {
      hide Fit, Same, LeftOk, Went, At, Pos, Shape, Inflater.Live;
      r := r0;
      FitBound(r0);
      if Stuck(r0) { StuckWants(r0); }
      match mode {
        case TYPE => gone, r, rc := DoType(r0, rc0);
        case LENS => gone, r, rc := DoLens(r0, rc0);
        case STORED => gone, r, rc := DoStored(r0, rc0);
        case TABLE => gone, r, rc := DoTable(r0, rc0);
        case BTREE => gone, r, rc := DoBtree(r0, rc0);
        case DTREE => gone, r, rc := DoDtree(r0, rc0);
        case DRY =>
          rc := DoDry(r0, rc0);
          gone := true;
        case DONE =>
          DoneFit(r0);
          SameSelf(V(), s.bounds.lim, At(r0));
          rc := Finished(r0, s.bounds, At(r0));
          gone := true;
        case BAD =>
          OnSelf(r0);
          rc := LeaveBad(r0, s.bounds, At(r0));
          gone := true;
      }
      BoundsKept(gone, r, rc, old(s.bounds), old(At(r0)));
    }

    lemma {:induction false} BoundsKept(gone: bool, r: Regs, rc: int, bd: Bounds, st: State)
      requires if gone then LeftOk(rc, bd, st) else Went(r, rc, bd, st)
      ensures s.bounds == bd
    {
      hide Fit, Same, At, Pos, Inflater.Saved, Hungry, Choked, Surely, Pending;
    }

    lemma {:induction false} DoneFit(r: Regs)
      requires Fit(r) && mode == DONE
      ensures s.Live(r) && r.k < 16 && Shape() && s.read == r.q && At(r) == State(IsDry, last, Pos(r), s.hist)
    {
    }

    /** inflate_blocks, on whatever input and output there is now. */
    method Proceed(rc0: int) returns (rc: int)
      requires Fit(s.Loaded()) && s.Going(rc0, s.avail_in)
      modifies this, s, s.window, hufts
      ensures LeftOk(rc, old(s.bounds), old(At(s.Loaded())))
      ensures old(Stuck(s.Loaded())) ==> rc == rc0
      ensures Turns(V(), old(Where()), old(At(s.Loaded())), Where(), At(s.Loaded()), rc == Z_MEM_ERROR)
    {
      hide Fit, Same, LeftOk, At, Pos, Inflater.Loaded, Turns;
      rc := rc0;
      var r := s.Loaded();
      ghost var bd, st, p := s.bounds, At(r), Where();
      OnSelf(r);
      FitBound(r);
      LoadedIn();
      AtHist(r);
      TurnsSelf(V(), p, st);
      var gone := false;
      while !gone
        invariant old(Stuck(s.Loaded())) ==> rc == rc0 && (gone || Stuck(r))
        invariant if gone then LeftOk(rc, bd, st) else Fit(r) && s.Going(rc, r.n) && On(r, bd, st) && At(r).pos <= 8 * bd.lim
        invariant Turns(V(), p, st, Where(), At(if gone then s.Loaded() else r), gone && rc == Z_MEM_ERROR)
        decreases !gone, 8 * bd.lim - At(r).pos, Weight(At(r).m)
      {
        ghost var a, q := At(r), Where();
        gone, r, rc := Case(r, rc);
        TurnsOn(V(), p, st, q, a, Where(), At(if gone then s.Loaded() else r), gone && rc == Z_MEM_ERROR);
        if gone {
          LeftFurther(rc, bd, st, a);
        } else {
          SameOn(V(), bd.lim, st, a, At(r));
        }
      }
    }

    lemma {:induction false} LeftFurther(rc: int, bd: Bounds, st: State, a: State)
      requires LeftOk(rc, bd, a) && Same(V(), bd.lim, st, a)
      ensures LeftOk(rc, bd, st)
    {
      hide Fit, Same, Surely, At, Pos, Inflater.Loaded, Inflater.Saved, Hungry;
      if rc == Z_MEM_ERROR {
        SurelyOn(V(), bd.lim, st, a, NoSpace(Pos(s.Loaded()), s.hist));
      } else {
        SameOn(V(), bd.lim, st, a, At(s.Loaded()));
      }
    }

    // ---------------------------------------------------------------- what a caller sees

    lemma {:induction false} RingOut()
      requires s.Saved()
      ensures |s.hist| >= WSIZE && s.out <= s.hist[WSIZE..] && |s.hist| - WSIZE - |s.out| == Pending(s.read, s.write)
      ensures |s.out| + s.avail_out == s.bounds.budget
    {
      RingBounds(s.window[..], s.read, s.write, s.hist, s.out);
    }

    /** How the input there is ends, seen from where a call has left off. */
    lemma {:induction false} Reached(rc: int, bd: Bounds, st: State)
      requires LeftOk(rc, bd, st) && rc != Z_MEM_ERROR
      ensures var f := FromState(Input(V(), bd.lim), st);
              s.hist <= f.hist
              && (rc == Z_STREAM_END ==> f == Ended(Pos(s.Loaded()), s.hist))
              && (rc == Z_DATA_ERROR ==> f == Faulty(Pos(s.Loaded()), s.hist))
              && (GoingOn(rc) && Pending(s.read, s.write) == 0 ==> f == Starved(s.hist))
              && (GoingOn(rc) && s.avail_out > 0 ==> f == Starved(s.hist))
              && (GoingOn(rc) || rc == Z_STREAM_END || rc == Z_DATA_ERROR)
              && (GoingOn(rc) ==> f == Starved(s.hist) || Pending(s.read, s.write) > 0)
    {
      hide Fit, Same, Pos, Inflater.Loaded, Inflater.Saved, FromState, Pending, Run;
      var r := s.Loaded();
      SameAt(V(), bd.lim, st, At(r), bd.lim);
      AtHist(r);
      StateGrows(Input(V(), bd.lim), At(r));
      if Hungry() { LacksIsStarved(Input(V(), bd.lim), At(r)); }
      if rc == Z_STREAM_END { DryEnds(Input(V(), bd.lim), At(r)); }
      if rc == Z_DATA_ERROR {
        if mode == BAD { BadEnds(Input(V(), bd.lim), At(r)); } else { CodesEnd(Input(V(), bd.lim), s.t, last, Pos(r), s.hist); }
      }
    }

    lemma {:induction false} DryEnds(x: Input, a: State)
      requires a.m.IsDry?
      ensures FromState(x, a) == Ended(a.pos, a.hist)
    {
    }

    lemma {:induction false} BadEnds(x: Input, a: State)
      requires a.m.IsBad?
      ensures FromState(x, a) == Faulty(a.pos, a.hist)
    {
    }

    /** After a call, as much is delivered as the input there is and the room there is allow, and the result code says how
        the input there is ends. */
    lemma {:induction false} Delivered(rc: int, bd: Bounds, st: State)
      requires LeftOk(rc, bd, st)
      ensures var f := FromState(Input(V(), bd.lim), st);
              |f.hist| >= WSIZE && s.out == f.hist[WSIZE..][..Least(bd.budget, |f.hist| - WSIZE)]
              && (rc == Z_STREAM_END ==> f == Ended(Pos(s.Loaded()), s.hist) && |s.out| == |f.hist| - WSIZE)
              && (rc == Z_DATA_ERROR ==> f == Faulty(Pos(s.Loaded()), s.hist))
              && (rc == Z_MEM_ERROR ==> f == NoSpace(Pos(s.Loaded()), s.hist))
              && (GoingOn(rc) ==> f.Starved? || |s.out| < |f.hist| - WSIZE)
              && (GoingOn(rc) || rc == Z_STREAM_END || rc == Z_DATA_ERROR || rc == Z_MEM_ERROR)
    {
      hide Fit, Same, Surely, Pos, Inflater.Loaded, Inflater.Saved, FromState, Pending;
      var f := FromState(Input(V(), bd.lim), st);
      RingOut();
      if rc == Z_MEM_ERROR {
        SurelyAt(V(), bd.lim, st, NoSpace(Pos(s.Loaded()), s.hist));
      } else {
        Reached(rc, bd, st);
      }
      CutAt(s.out, s.hist, f.hist, s.bounds.budget, s.avail_out);
    }

    /** The place where a call has left off is one to go on from. */
    lemma {:induction false} StillOn(rc: int, bd: Bounds, st: State)
      requires LeftOk(rc, bd, st) && rc != Z_MEM_ERROR
      ensures Fit(s.Loaded()) && Same(V(), bd.lim, st, At(s.Loaded()))
    {
      hide Fit, Same, Pos, Inflater.Loaded, Inflater.Saved, At;
    }

    lemma {:induction false} WhyStopped(rc: int, bd: Bounds, st: State)
      requires LeftOk(rc, bd, st) && GoingOn(rc)
      ensures Hungry() || Choked()
    {
      hide Fit, Same, Pos, Inflater.Loaded, Inflater.Saved, Hungry, Choked, Pending, At;
    }

    /** As long as WASH is still to step back, calls stop only for want of room. */
    lemma {:induction false} CaughtWaits(rc: int, bd: Bounds, st: State)
      requires LeftOk(rc, bd, st) && rc != Z_MEM_ERROR && Caught()
      ensures GoingOn(rc) && s.avail_out == 0
    {
      var r := s.Loaded();
      FitBound(r);
      s.InBuffer(r);
      LacksEnd(V(), s.bounds.lim, s.base, At(r));
      hide Fit, Same, Pos, Inflater.Loaded, Inflater.Saved, Lacks, EndsBack, Pending;
    }

    /** And the input there is, once it is all taken, holds the end of the block. */
    lemma {:induction false} CaughtEarly()
      requires Fit(s.Loaded()) && Caught()
      ensures EndsEarly() && !Hungry()
    {
      var r := s.Loaded();
      FitBound(r);
      s.InBuffer(r);
      LacksEnd(V(), s.bounds.lim, s.base, At(r));
      AtHist(r);
      hide Fit, Pos, Inflater.Loaded, Lacks, EndsBack, At;
    }

    lemma {:induction false} HungryNotEarly()
      requires Fit(s.Loaded()) && Hungry()
      ensures !EndsEarly()
    {
      if EndsEarly() { LacksEnd(V(), s.bounds.lim, s.bounds.lim, At(s.Loaded())); }
    }

    /** After a call that has left room: all the input is taken, and nothing can be done without more. */
    lemma {:induction false} StuckAfter(rc: int, bd: Bounds, st: State)
      requires LeftOk(rc, bd, st) && GoingOn(rc) && s.avail_out > 0
      ensures Stuck(s.Loaded()) && s.avail_in == 0 && (rc == Z_BUF_ERROR ==> bd.offered == 0)
    {
      hide Fit, Same, Pos, Inflater.Saved, At, Lacks, Pending;
    }

    /** What the end or an error tells holds for all inputs that go on from here. */
    lemma {:induction false} Settled(rc: int, bd: Bounds, st: State)
      requires LeftOk(rc, bd, st) && (rc == Z_STREAM_END || rc == Z_DATA_ERROR)
      ensures Surely(V(), bd.lim, At(s.Loaded()), if rc == Z_STREAM_END then Ended(Pos(s.Loaded()), s.hist) else Faulty(Pos(s.Loaded()), s.hist))
    {
      hide Fit, Same, Pos, Inflater.Loaded, Inflater.Saved, FromState, Pending;
      var r := s.Loaded();
      AtHist(r);
      forall size: nat | bd.lim <= size
        ensures FromState(Input(V(), size), At(r)) == if rc == Z_STREAM_END then Ended(Pos(r), s.hist) else Faulty(Pos(r), s.hist)
      {
        if rc == Z_STREAM_END {
          DryEnds(Input(V(), size), At(r));
        } else if mode == BAD {
          BadEnds(Input(V(), size), At(r));
        } else {
          CodesEnd(Input(V(), size), s.t, last, Pos(r), s.hist);
        }
      }
    }

    lemma {:induction false} MemSurely(bd: Bounds, st: State)
      requires LeftOk(Z_MEM_ERROR, bd, st)
      ensures Surely(V(), bd.lim, st, NoSpace(Pos(s.Loaded()), s.hist)) && |s.hist| >= WSIZE && s.out <= s.hist[WSIZE..]
    {
      hide Fit, Surely, Pos, At, Pending, Ring, BufOk;
      RingOut();
    }

    lemma {:induction false} LeftBounds(rc: int, bd: Bounds, st: State)
      requires LeftOk(rc, bd, st)
      ensures s.bounds == bd && |s.out| + s.avail_out == bd.budget && s.next_in + s.avail_in == bd.lim <= |s.input| && s.total_out == |s.out|
      ensures s.avail_out > 0 || rc == Z_STREAM_END ==> s.out == s.hist[WSIZE..]
    {
      hide Fit, Same, Pos, At, Pending, Ring, BufOk;
      RingOut();
    }

    /** More input and new output space, as a caller provides between calls. */
    method Supply(more: nat, room: nat)
      requires Fit(s.Loaded())
      modifies s`avail_in, s`avail_out, s`bounds
      ensures Fit(s.Loaded()) && At(s.Loaded()) == old(At(s.Loaded()))
      ensures s.avail_in == Least(old(s.avail_in) + more, |s.input| - s.next_in) && s.avail_out == room
      ensures more == 0 && old(Stuck(s.Loaded())) ==> Stuck(s.Loaded())
      ensures s.bounds == Bounds(Least(old(s.bounds.lim) + more, |s.input|), |s.out| + room, s.avail_in)
    {
      FitBound(s.Loaded());
      hide Agree, Healthy, TablesOk, Inflater.Live, ClTable, BtreeRead, Pos, HuftBuild.Longest;
      s.Supply(more, room);
      SamePos(s.Loaded(), old(s.Loaded()));
    }

    /** The caller reads more input into its buffer, over what was there. From then on, WASH will step back exactly if a block that is
        not the last one has its codes at hand and ends a byte or more before the new input. */
    method Renew(more: nat)
      requires Fit(s.Loaded()) && s.avail_in == 0
      modifies s`avail_in, s`bounds, s`base, s`under
      ensures Fit(s.Loaded()) && At(s.Loaded()) == old(At(s.Loaded()))
      ensures s.avail_in == Least(more, |s.input| - s.next_in)
      ensures s.bounds == Bounds(Least(old(s.bounds.lim) + more, |s.input|), |s.out| + s.avail_out, s.avail_in)
      ensures Where() == Place(old(s.bounds.lim), false, astray)
      ensures !astray && old(Hungry() || Choked()) ==> if old(EndsEarly()) then Caught() && !Calm() else Calm() && !Caught()
    {
      if !EndsEarly() && (Hungry() || Choked()) { NotEarly(); }
      hide Fit, At, EndsBack, Past, Lacks, CaughtAt, CalmAt, Choked, Inflater.Loaded;
      AtHist(s.Loaded());
      MoreInput(more);
      NewPlace(V(), Where(), At(s.Loaded()));
    }

    method MoreInput(more: nat)
      requires Fit(s.Loaded()) && s.avail_in == 0
      modifies s`avail_in, s`bounds, s`base, s`under
      ensures Fit(s.Loaded()) && At(s.Loaded()) == old(At(s.Loaded()))
      ensures s.avail_in == Least(more, |s.input| - s.next_in)
      ensures s.bounds == Bounds(Least(old(s.bounds.lim) + more, |s.input|), |s.out| + s.avail_out, s.avail_in)
      ensures Where() == Place(old(s.bounds.lim), false, astray)
    {
      FitBound(s.Loaded());
      hide Agree, Healthy, TablesOk, Inflater.Live, ClTable, BtreeRead, Pos, HuftBuild.Longest, Lacks, OnCode, CodeTaken;
      s.Renew(more);
      SamePos(s.Loaded(), old(s.Loaded()));
    }

    /** The input there is holds the end of the block of codes at hand, which is not the last one, and a byte or more after it. */
    ghost predicate EndsEarly()
      reads this, s
    {
      !last && EndsBack(V(), s.bounds.lim, At(s.Loaded()))
    }

    /** Otherwise no block will end before the end of the input there is, once that is taken. */
    lemma {:induction false} NotEarly()
      requires Fit(s.Loaded()) && s.avail_in == 0 && (Hungry() || Choked()) && !EndsEarly()
      ensures Past(V(), s.bounds.lim, At(s.Loaded()))
    {
      var r := s.Loaded();
      FitBound(r);
      SoundFit(r);
      AtMode(r);
      AtHist(r);
      if mode == DTREE { DtreeFit(r); }
      hide Fit, Inflater.Loaded, Inflater.Live, Pos, HuftBuild.Longest, EndsBack, Lacks, Sound, InDtree, Shr, ClSym, ClUsed, RepBits, At;
      if Hungry() { LacksPast(V(), s.bounds.lim, At(r)); }
    }

    lemma {:induction false} AtMode(r: Regs)
      requires Fit(r)
      ensures At(r).pos == Pos(r) && (mode == STORED ==> r.k == 0 && At(r).m.IsStored?)
      ensures (mode == CODES ==> At(r).m.IsCodes?) && (mode == DRY ==> At(r).m.IsDry?)
      ensures At(r).m.IsDtree? ==> mode == DTREE && At(r).m.cl == cl
    {
      hide Inflater.Live, Agree, Healthy, TablesOk, ClTable, BtreeRead, TableOk, Pos, HuftBuild.Longest, Inflater.Traced;
    }
  }

  lemma {:induction false} CutAt(out: seq<byte>, hist: seq<byte>, h: seq<byte>, budget: nat, avail: nat)
    requires |hist| >= WSIZE && hist <= h && out <= hist[WSIZE..] && |out| + avail == budget
    requires avail > 0 ==> |out| == |hist| - WSIZE && hist == h
    ensures out == h[WSIZE..][..Least(budget, |h| - WSIZE)]
  {
  }
}
