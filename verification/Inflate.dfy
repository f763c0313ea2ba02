/** inflate_codes, inflate_fast and inflate_flush of DuiLib/XUnzip.cpp on their real state: bit buffer, ring window, limited
    input and output. Every call moves along the run of the machine in InflateSpec. */
module Inflate {
  import opened Bits
  import opened BitStream
  import opened HuftSpec
  import opened Deflate
  import opened InflateSpec
  import opened InflateTokens
  import opened Window
  import opened BitBuffer

  const Z_OK: int := 0
  const Z_STREAM_END: int := 1
  const Z_DATA_ERROR: int := -3
  const Z_BUF_ERROR: int := -5

  datatype CodesMode = START | LEN | LENEXT | DIST | DISTEXT | COPY | LIT | WASH | END | BADCODE

  predicate GoingOn(rc: int)
  {
    rc == Z_OK || rc == Z_BUF_ERROR
  }

  /** How a round of inflate_fast ends. */
  datatype Round = Go | BlockEnd | BadData

  function After(res: Round): Ctl
  {
    match res case Go => AtStart case BlockEnd => AtWash case BadData => AtBad
  }

  /** The end of the input that there is now; the bytes delivered and the room for more; the bytes of input that were there when
      input and room were last set. */
  datatype Bounds = Bounds(lim: nat, budget: nat, offered: nat)

  /** The rest of a walk, at a table in which pos is to be looked up, of a code that begins at from; taken bits of the input have
      been taken. */
  ghost predicate OnCode(t: Tables, v: nat, from: nat, need: nat, tree: nat, pos: nat, taken: nat)
  {
    var w, w2 := Walk(t.h, t.ltree, t.lbits, Shr(v, from)), Walk(t.h, tree, need, Shr(v, pos));
    w.Leaf? && w2.Leaf? && w.entry == w2.entry && from + w.used == pos + w2.used && from + w.reach <= Max(taken, pos + w2.reach)
  }

  /** The literal whose code begins at from and ends at pos; all bits that were looked up have been taken. */
  ghost predicate CodeTaken(t: Tables, v: nat, from: nat, lit: nat, pos: nat, taken: nat)
  {
    var w := Walk(t.h, t.ltree, t.lbits, Shr(v, from));
    w.Leaf? && w.entry.exop == 0 && w.entry.base == lit && from + w.used == pos && from + w.reach <= taken
  }

  lemma {:induction false} OnCodeStep(t: Tables, v: nat, from: nat, need: nat, tree: nat, pos: nat, taken: nat)
    requires OnCode(t, v, from, need, tree, pos, taken) && pos + need <= taken
    ensures var a := tree + Low(Shr(v, pos), need);
            a < |t.h| && var e := t.h[a];
            if IsLink(e) then OnCode(t, v, from, e.exop, a + e.base, pos + e.bits, taken)
            else e.exop == 0 ==> CodeTaken(t, v, from, e.base, pos + e.bits, taken)
  {
    hide Walk, Low, Shr, IsLink;
    WalkStep(t.h, tree, need, Shr(v, pos));
    ShrShr(v, pos, t.h[tree + Low(Shr(v, pos), need)].bits);
  }

  /** z_stream, inflate_blocks_state and inflate_codes_state in one. */
  class Inflater {
    // z_stream; input is all the input there will be, of which avail_in bytes from next_in on are there now
    const input: seq<byte>
    var next_in: nat
    var avail_in: nat
    var total_in: nat
    var out: seq<byte>             // the bytes stored through next_out
    var avail_out: nat
    var total_out: nat

    // where the caller's present input buffer begins, or one byte before that if WASH has handed back a byte of an earlier buffer
    var base: nat
    var under: bool

    // inflate_blocks_state
    var bitk: nat
    var bitb: nat
    const window: array<byte>
    var read: nat
    var write: nat

    // inflate_codes_state
    var mode: CodesMode
    var len: nat
    var need: nat
    var tree: nat
    var lit: nat
    var get: nat
    var dist: nat
    var t: Tables

    /** What the window held at first, then all bytes produced. */
    ghost var hist: seq<byte>
    ghost var bounds: Bounds
    /** Where the literal/length code at hand begins. */
    ghost var from: nat

    ghost function V(): nat { BytesVal(input) }

    ghost predicate InOk(r: Regs)
      reads this`next_in, this`avail_in, this`total_in, this`bounds, this`base
    {
      base <= r.p && r.p + r.n == next_in + avail_in == bounds.lim <= |input| && total_in == next_in && BufOk(V(), r.b, r.k, r.p)
    }

    ghost predicate OutOk(q: nat)
      reads this`read, this`out, this`total_out, this`hist, this`avail_out, this`bounds, window
    {
      Ring(window[..], read, q, hist, out) && total_out == |out| && |out| + avail_out == bounds.budget
    }

    /** The local copies are up to date; the saved input position, bit buffer and write position may not be. */
    ghost predicate Live(r: Regs)
      reads this`next_in, this`avail_in, this`total_in, this`bounds, this`base, this`read, this`out, this`total_out, this`hist, this`avail_out, window
    {
      InOk(r) && OutOk(r.q) && r.m == Room(read, r.q)
    }

    function Loaded(): Regs
      reads this`bitb, this`bitk, this`next_in, this`avail_in, this`write, this`read
    {
      Regs(bitb, bitk, next_in, avail_in, write, Room(read, write))
    }

    /** The whole state is saved. */
    ghost predicate Saved()
      reads this`bitb, this`bitk, this`next_in, this`avail_in, this`total_in, this`bounds, this`base, this`write, this`read, this`out, this`total_out, this`hist, this`avail_out, window
    {
      Live(Loaded())
    }

    function Control(): Ctl
      reads this`mode, this`len, this`need, this`tree, this`lit, this`get, this`dist
    {
      match mode
      case START => AtStart
      case LEN => AtLen(need, tree)
      case LENEXT => AtLenExt(len, get)
      case DIST => AtDist(len, need, tree)
      case DISTEXT => AtDistExt(len, dist, get)
      case COPY => AtCopy(len, dist)
      case LIT => AtLit(lit)
      case WASH => AtWash
      case END => AtWash
      case BADCODE => AtBad
    }

    /** Where the machine without buffers is. */
    ghost function Cur(r: Regs): S
      reads this`mode, this`len, this`need, this`tree, this`lit, this`get, this`dist, this`hist
    {
      S(Control(), Pos(r), hist)
    }

    /** From a the machine comes to b; and it gets to the same place from both, on the input that there is now and however it
        goes on. */
    ghost predicate Joined(a: S, b: S)
      reads this`t, this`bounds
    {
      Leads(t, V(), a, b) && forall size: nat :: bounds.lim <= size ==> Run(t, V(), size, a) == Run(t, V(), size, b)
    }

    /** inflate_blocks_new, for the codes state too; the caller's input is data. */
    constructor (data: seq<byte>)
      ensures input == data && fresh(window) && Saved() && Pos(Loaded()) == 0 && bitk == 0 && mode == START
      ensures next_in == 0 && avail_in == 0 && avail_out == 0 && out == [] && hist == Blank() && bounds == Bounds(0, 0, 0)
      ensures base == 0 && !under
    {
      input := data;
      next_in, avail_in, total_in, out, avail_out, total_out := 0, 0, 0, [], 0, 0;
      bitk, bitb, read, write, base, under := 0, 0, 0, 0, 0, false;
      mode, len, need, tree, lit, get, dist, t := START, 0, 0, 0, 0, 0, 0, Tables([], 0, 0, 0, 0);
      window := new byte[WSIZE](_ => 0);
      new;
      hist, bounds := window[..], Bounds(0, 0, 0);
      ClearOk(V(), Loaded());
    }

    /** More input and new output space, as a caller provides between calls. */
    method Supply(more: nat, room: nat)
      requires Saved() && next_in <= |input|
      modifies this`avail_in, this`avail_out, this`bounds
      ensures avail_in == Least(old(avail_in) + more, |input| - next_in) && avail_out == room
      ensures bounds == Bounds(next_in + avail_in, |out| + room, avail_in)
      ensures Saved() && Loaded() == old(Loaded()).(n := avail_in)
    {
      hide BufOk, Ring, Room;
      avail_in := Least(avail_in + more, |input| - next_in);
      avail_out := room;
      bounds := Bounds(next_in + avail_in, |out| + room, avail_in);
    }

    /** The caller reads more input into its buffer, over what was there. */
    method Renew(more: nat)
      requires Saved() && avail_in == 0
      modifies this`avail_in, this`bounds, this`base, this`under
      ensures avail_in == Least(more, |input| - next_in) && base == next_in && !under
      ensures bounds == Bounds(next_in + avail_in, |out| + avail_out, avail_in)
      ensures Saved() && Loaded() == old(Loaded()).(n := avail_in)
    {
      hide BufOk, Ring, Room;
      avail_in := Least(more, |input| - next_in);
      bounds := Bounds(next_in + avail_in, |out| + avail_out, avail_in);
      base, under := next_in, false;
    }

    /** inflate_codes_new */
    method NewCodes(tables: Tables)
      modifies this`t, this`mode
      ensures t == tables && mode == START
    {
      t := tables;
      mode := START;
    }

    // ---------------------------------------------------------------- macros

    /** UPDATE */
    method Update(r: Regs)
      requires Live(r)
      modifies this`bitb, this`bitk, this`next_in, this`avail_in, this`total_in, this`write
      ensures Saved() && Loaded() == r && Pos(Loaded()) == Pos(r)
    {
      bitb, bitk := r.b, r.k;
      avail_in := r.n;
      total_in := r.p;  // total_in + (p - next_in)
      next_in := r.p;
      write := r.q;
    }

    /** NEEDBITS; rc is r of the source. */
    method NeedBits(r0: Regs, j: nat, rc0: int) returns (ok: bool, r: Regs, rc: int)
      requires Live(r0) && j <= 24
      ensures Live(r) && Pos(r) == Pos(r0) && r.q == r0.q && r.m == r0.m && r.n <= r0.n
      ensures ok <==> r.k >= j
      ensures !ok ==> r.n == 0
      ensures rc == if r.n < r0.n then Z_OK else rc0
      ensures r.k <= r0.k || r.k < j + 8
      ensures r0.n == 0 ==> r == r0
    {
      hide *;
      r, rc := r0, rc0;
      while r.k < j
        invariant Live(r) && Pos(r) == Pos(r0) && r.q == r0.q && r.m == r0.m && r.n <= r0.n
        invariant rc == if r.n < r0.n then Z_OK else rc0
        invariant r.k <= r0.k || r.k < j + 8
        invariant r0.n == 0 ==> r == r0
        decreases r.n
      {
        if r.n == 0 { return false, r, rc; }
        rc := Z_OK;
        GrabLive(r);
        r := Grabbed(input, r);
      }
      ok := true;
    }

    lemma {:induction false} GrabLive(r: Regs)
      requires Live(r) && r.k <= 24 && r.n > 0
      ensures r.p < |input| && Live(Grabbed(input, r)) && Pos(Grabbed(input, r)) == Pos(r)
      ensures Grabbed(input, r).k == r.k + 8 && Grabbed(input, r).n == r.n - 1
      ensures Grabbed(input, r).q == r.q && Grabbed(input, r).m == r.m
    {
      hide BufOk, Ring, Room, Or, Shl;
      GrabOk(input, r);
    }

    lemma {:induction false} DumpLive(r: Regs, j: nat)
      requires Live(r) && j <= r.k
      ensures Live(Dumped(r, j)) && Pos(Dumped(r, j)) == Pos(r) + j
      ensures Low(r.b, j) == Low(Shr(V(), Pos(r)), j)
      ensures Dumped(r, j).k == r.k - j && Dumped(r, j).p == r.p && Dumped(r, j).n == r.n
      ensures Dumped(r, j).q == r.q && Dumped(r, j).m == r.m
    {
      hide BufOk, Ring, Room, Low, Shr;
      DumpOk(V(), r, j);
    }

    /** One memcpy of inflate_flush, with its counters. */
    method Deliver(n: nat, rc0: int) returns (rc: int)
      requires OutOk(write) && n <= avail_out && n <= (if read <= write then write else WSIZE) - read
      modifies this`out, this`avail_out, this`total_out, this`read, this`write
      ensures OutOk(write) && avail_out == old(avail_out) - n && Pending(read, write) == old(Pending(read, write)) - n
      ensures old(read) + n < WSIZE ==> read == old(read) + n && write == old(write)
      ensures old(read) + n == WSIZE ==> read == 0 && write == if old(write) == WSIZE then 0 else old(write)
      ensures rc == if n > 0 && rc0 == Z_BUF_ERROR then Z_OK else rc0
    {
      RingBounds(window[..], read, write, hist, out);
      RingDeliver(window[..], read, write, hist, out, n);
      hide Mirrors, Pending;
      rc := if n != 0 && rc0 == Z_BUF_ERROR then Z_OK else rc0;
      avail_out := avail_out - n;
      total_out := total_out + n;
      out := out + window[read..read + n];
      read := read + n;
      if read == WSIZE {  // wrap pointers
        read := 0;
        if write == WSIZE { write := 0; }
      }
    }

    /** inflate_flush: as much as possible of what is pending is delivered, in order. */
    method Flush(rc0: int) returns (rc: int)
      requires OutOk(write)
      modifies this`out, this`avail_out, this`total_out, this`read, this`write
      ensures OutOk(write) && (write == old(write) || (write == 0 && old(write) == WSIZE))
      ensures var x := Least(old(Pending(read, write)), old(avail_out));
              avail_out == old(avail_out) - x && Pending(read, write) == old(Pending(read, write)) - x
              && rc == if x > 0 && rc0 == Z_BUF_ERROR then Z_OK else rc0
      ensures old(avail_out) == 0 ==> read == old(read) && write == old(write)
    {
      FlushPieces(read, write);
      RingBounds(window[..], read, write, hist, out);
      hide Ring, Pending;
      var n := Least((if read <= write then write else WSIZE) - read, avail_out);
      var end := read + n == WSIZE;
      rc := Deliver(n, rc0);
      if end {
        FlushPieces(read, write);
        n := Least(write - read, avail_out);
        rc := Deliver(n, rc);
      }
    }

    lemma {:induction false} FlushPieces(read: nat, q: nat)
      ensures q <= WSIZE && read <= q ==> Pending(read, q) == q - read
      ensures q < read <= WSIZE ==> Pending(read, q) == WSIZE - read + q
    {
    }

    /** LEAVE up to the return: save everything and deliver what there is room for. */
    method Leave(r: Regs, rc0: int) returns (rc: int)
      requires Live(r)
      modifies this`bitb, this`bitk, this`next_in, this`avail_in, this`total_in, this`write, this`read, this`out, this`avail_out, this`total_out
      ensures Saved() && Pos(Loaded()) == Pos(r) && bitk == r.k && avail_in == r.n && bitb == r.b && next_in == r.p
      ensures var x := Least(old(Pending(read, r.q)), old(avail_out));
              avail_out == old(avail_out) - x && Pending(read, write) == old(Pending(read, r.q)) - x
              && rc == if x > 0 && rc0 == Z_BUF_ERROR then Z_OK else rc0
      ensures old(avail_out) == 0 ==> read == old(read) && write == r.q
    {
      hide BufOk, Ring, Pending, Room;
      Update(r);
      rc := Flush(rc0);
    }

    /** WRAP */
    method Wrap(r0: Regs) returns (r: Regs)
      requires Live(r0)
      ensures Live(r) && r == r0.(q := r.q, m := r.m) && Pending(read, r.q) == Pending(read, r0.q)
      ensures r.m == 0 ==> r.q < WSIZE || read == 0
      ensures r.q == r0.q || (r0.q == WSIZE && r.q == 0)
    {
      hide BufOk, Mirrors;
      r := r0;
      if r.q == WSIZE && read != 0 {
        RingWrap(window[..], read, hist, out);
        r := r.(q := 0, m := Room(read, 0));
      }
      RingBounds(window[..], read, r.q, hist, out);
    }

    /** NEEDOUT up to its LEAVE. */
    method NeedOut(r0: Regs, rc0: int) returns (ok: bool, r: Regs, rc: int)
      requires Live(r0)
      modifies this`write, this`read, this`out, this`avail_out, this`total_out
      ensures Live(r) && r == r0.(q := r.q, m := r.m)
      ensures ok ==> r.m > 0 && rc == Z_OK
      ensures !ok ==> avail_out == 0 && Pending(read, r.q) >= WSIZE - 1 && (rc == rc0 || rc == Z_OK)
      ensures r.q == r0.q || (r0.q == WSIZE && r.q == 0)
    {
      hide BufOk, Ring, Pending, Room;
      r, rc := r0, rc0;
      if r.m == 0 {
        r := Wrap(r);
        if r.m == 0 {
          write := r.q;
          rc := Flush(rc);
          r := r.(q := write, m := Room(read, write));
          r := Wrap(r);
          if r.m == 0 {
            RingBounds(window[..], read, r.q, hist, out);
            return false, r, rc;
          }
        }
      }
      ok, rc := true, Z_OK;
    }

    /** OUTBYTE */
    method OutByte(r0: Regs, b: byte) returns (r: Regs)
      requires Live(r0) && r0.m > 0
      modifies window, this`hist
      ensures Live(r) && hist == old(hist) + [b] && r == r0.(q := r0.q + 1, m := r0.m - 1)
    {
      hide BufOk, Mirrors, Ring, Room, Pending;
      RingPut(window[..], read, r0.q, hist, out, b);
      RingBounds(window[..], read, r0.q, hist, out);
      window[r0.q] := b;
      hist := hist + [b];
      r := r0.(q := r0.q + 1, m := r0.m - 1);
    }

    // ---------------------------------------------------------------- the cases of inflate_codes

    /** The result so far, with n bytes of input left: Z_BUF_ERROR stands as long as no input has been taken. */
    ghost predicate Going(rc: int, n: nat)
      reads this`bounds
    {
      GoingOn(rc) && (rc == Z_BUF_ERROR ==> n >= bounds.offered)
    }

    /** Nothing can be done without more input, and nothing is there to deliver. */
    ghost predicate Idle(r: Regs)
      reads this`mode, this`len, this`need, this`tree, this`lit, this`get, this`dist, this`read
    {
      r.n == 0 && !Final(Control()) && r.k < Need(Control()) && Pending(read, r.q) == 0
    }

    /** How inflate_codes returns: at an error; at the end of the block, with at most some bytes pending; or because input ran
        out, or output with the window full. */
    ghost predicate Rested(rc: int)
      reads this`mode, this`len, this`need, this`tree, this`lit, this`get, this`dist
      reads this`bitk, this`avail_in, this`avail_out, this`read, this`write, this`bounds
    {
      bitk < 16 && (avail_out > 0 ==> Pending(read, write) == 0)
      && match Control()
         case AtBad => rc == Z_DATA_ERROR
         case AtWash => bitk < 8 && (rc == Z_STREAM_END || (Going(rc, avail_in) && avail_out == 0 && read != write))
         case c => Going(rc, avail_in) && ((avail_in == 0 && bitk < Need(c)) || ((c.AtLit? || c.AtCopy?) && Full()))
    }

    /** The window is full, and there is no room to deliver any of it. */
    ghost predicate Full()
      reads this`avail_out, this`read, this`write
    {
      avail_out == 0 && Pending(read, write) >= WSIZE - 1
    }

    /** The literal/length code at hand, and how many of its bits have been taken. */
    ghost predicate Traced(r: Regs)
      reads this`mode, this`need, this`tree, this`lit, this`t, this`from
    {
      (mode == LEN ==> OnCode(t, V(), from, need, tree, Pos(r), 8 * r.p))
      && (mode == LIT ==> CodeTaken(t, V(), from, lit, Pos(r), 8 * r.p))
    }

    lemma {:induction false} TracedMore(r: Regs, r2: Regs)
      requires Traced(r) && Pos(r2) == Pos(r) && r.p <= r2.p
      ensures Traced(r2)
    {
      hide Pos, Walk, Shr;
    }

    lemma {:induction false} TracedNot(r: Regs)
      requires mode != LEN && mode != LIT
      ensures Traced(r)
    {
    }

    /** A case of the switch that left: everything saved, still on the same run. */
    ghost predicate LeftOk(rc: int, s0: S)
      reads this, window
    {
      Saved() && Rested(rc) && Joined(s0, Cur(Loaded())) && Healthy(t, V(), Cur(Loaded())) && Traced(Loaded())
    }

    /** A case that broke to the next round after one step of the machine. */
    ghost predicate Stepped(r: Regs, rc: int, s: S)
      reads this, window
    {
      Live(r) && r.k < 16 && Going(rc, r.n) && Moves(bounds.lim, s) && Cur(r) == Next(t, V(), s) && mode != END && Traced(r)
    }

    ghost predicate AtMode(r: Regs, rc: int, m: CodesMode)
      reads this, window
    {
      Live(r) && r.k < 16 && Going(rc, r.n) && mode == m && TablesOk(t) && Healthy(t, V(), Cur(r)) && Traced(r)
    }

    /** LEAVE in NEEDBITS. */
    method Starve(r: Regs, rc0: int) returns (rc: int)
      requires Live(r) && r.n == 0 && Going(rc0, r.n) && r.k < 16
      requires var c := Control(); !Final(c) && r.k < Need(c) && Healthy(t, V(), Cur(r)) && Traced(r)
      modifies this`bitb, this`bitk, this`next_in, this`avail_in, this`total_in, this`write, this`read, this`out, this`avail_out, this`total_out
      ensures LeftOk(rc, old(Cur(r)))
      ensures old(Pending(read, r.q)) == 0 ==> rc == rc0 && Pending(read, write) == 0
    {
      hide Live, Healthy, Pos, Run, Pending, Leads, OnCode, CodeTaken;
      JoinedSelf(Cur(r));
      rc := Leave(r, rc0);
    }

    /** LEAVE in NEEDOUT. */
    method Fill(r: Regs, rc0: int) returns (rc: int)
      requires Live(r) && Going(rc0, r.n) && r.k < 16 && avail_out == 0 && Pending(read, r.q) >= WSIZE - 1 && (mode == LIT || mode == COPY)
      requires Healthy(t, V(), Cur(r)) && Traced(r)
      modifies this`bitb, this`bitk, this`next_in, this`avail_in, this`total_in, this`write, this`read, this`out, this`avail_out, this`total_out
      ensures LeftOk(rc, old(Cur(r)))
    {
      hide Live, Healthy, Pos, Run, Pending, Leads, OnCode, CodeTaken;
      JoinedSelf(Cur(r));
      rc := Leave(r, rc0);
    }

    /** An error: BADCODE has been set after a step from s. */
    method LeaveBad(r: Regs, ghost s: S) returns (rc: int)
      requires Live(r) && mode == BADCODE && r.k < 16 && TablesOk(t) && Healthy(t, V(), s) && Moves(bounds.lim, s) && Cur(r) == Next(t, V(), s)
      modifies this`bitb, this`bitk, this`next_in, this`avail_in, this`total_in, this`write, this`read, this`out, this`avail_out, this`total_out
      ensures LeftOk(rc, s)
    {
      hide Live, Healthy, Pos, Loaded, Run, Next, TablesOk, Moves;
      StepJoins(s);
      HealthyNext(t, V(), s);
      rc := Leave(r, Z_DATA_ERROR);
    }

    lemma {:induction false} PosBound(r: Regs)
      requires Live(r)
      ensures Pos(r) + r.k == 8 * r.p <= 8 * bounds.lim
      ensures r.p + r.n == bounds.lim <= |input| && r.q <= WSIZE
    {
      hide Room, Holds;
    }

    lemma {:induction false} StepJoins(s: S)
      requires TablesOk(t) && Healthy(t, V(), s) && Moves(bounds.lim, s)
      ensures Joined(s, Next(t, V(), s))
    {
      hide Run, TablesOk, Healthy, Next, Leads;
      LeadsNext(t, V(), s);
      forall size: nat | bounds.lim <= size ensures Run(t, V(), size, s) == Run(t, V(), size, Next(t, V(), s)) {
        StepKeeps(t, V(), size, s);
      }
    }

    lemma {:induction false} NotLost(t: Tables, v: nat, s: S)
      requires Healthy(t, v, s)
      ensures !s.c.Lost?
    {
      hide LitLeaf, DistLeaf, Walk;
    }

    method DoLen(r0: Regs, rc0: int) returns (left: bool, r: Regs, rc: int)
      requires AtMode(r0, rc0, LEN)
      modifies this`bitb, this`bitk, this`next_in, this`avail_in, this`total_in, this`write, this`read, this`out, this`avail_out, this`total_out
      modifies this`mode, this`len, this`need, this`tree, this`lit, this`get
      ensures if left then LeftOk(rc, old(Cur(r0))) else Stepped(r, rc, old(Cur(r0)))
      ensures old(Idle(r0)) ==> left && rc == rc0 && Pending(read, write) == 0
    {
      hide Live, Pos, Loaded, Run, Next, LeftOk, Stepped, Rested, Traced;
      HealthyLen(t, V(), Cur(r0));
      hide Healthy;
      var ok;
      ok, r, rc := NeedBits(r0, need, rc0);
      PosBound(r0);
      PosBound(r);
      TracedMore(r0, r);
      if !ok {
        rc := Starve(r, rc);
        return true, r, rc;
      }
      left, r, rc := TakeLen(r, rc);
    }

    method TakeLen(r0: Regs, rc0: int) returns (left: bool, r: Regs, rc: int)
      requires Live(r0) && Going(rc0, r0.n) && mode == LEN && TablesOk(t) && Healthy(t, V(), Cur(r0)) && need <= r0.k < 17 && Traced(r0)
      modifies this`bitb, this`bitk, this`next_in, this`avail_in, this`total_in, this`write, this`read, this`out, this`avail_out, this`total_out
      modifies this`mode, this`len, this`need, this`tree, this`lit, this`get
      ensures if left then LeftOk(rc, old(Cur(r0))) else Stepped(r, rc, old(Cur(r0)))
    {
      hide Live, Pos, Loaded, Run, Low, Dumped, AfterLen, LeftOk, Traced, Shr, OnCode, CodeTaken, IsLink;
      rc := rc0;
      ghost var s := Cur(r0);
      HealthyLen(t, V(), s);
      TracedLen(r0);
      hide Healthy;
      PosBound(r0);
      StepKeeps(t, V(), bounds.lim, s);
      NotLost(t, V(), Next(t, V(), s));
      DumpLive(r0, need);
      var a := tree + Low(r0.b, need);
      var e := t.h[a];
      DumpLive(r0, e.bits);
      r := Dumped(r0, e.bits);
      EnterLen(a, e);
      TracedNow(r, a, e);
      left := mode == BADCODE;
      if left { rc := LeaveBad(r, s); }
    }

    lemma {:induction false} TracedLen(r: Regs)
      requires Live(r) && Traced(r) && mode == LEN && need <= r.k
      ensures var a := tree + Low(Shr(V(), Pos(r)), need);
              a < |t.h| && var e := t.h[a];
              if IsLink(e) then OnCode(t, V(), from, e.exop, a + e.base, Pos(r) + e.bits, 8 * r.p)
              else e.exop == 0 ==> CodeTaken(t, V(), from, e.base, Pos(r) + e.bits, 8 * r.p)
    {
      hide OnCode, CodeTaken, IsLink, Low, Shr;
      PosBound(r);
      OnCodeStep(t, V(), from, need, tree, Pos(r), 8 * r.p);
    }

    lemma {:induction false} TracedNow(r: Regs, a: nat, e: Huft)
      requires Control() == AfterLen(a, e) && mode != END
      requires if IsLink(e) then OnCode(t, V(), from, e.exop, a + e.base, Pos(r), 8 * r.p)
               else e.exop == 0 ==> CodeTaken(t, V(), from, e.base, Pos(r), 8 * r.p)
      ensures Traced(r)
    {
      hide OnCode, CodeTaken, Pos;
    }

    /** What is done for a literal/length entry. */
    method EnterLen(a: nat, e: Huft)
      requires mode == LEN && !AfterLen(a, e).Lost?
      modifies this`mode, this`len, this`need, this`tree, this`lit, this`get
      ensures Control() == AfterLen(a, e) && mode != END
    {
      if e.exop == 0 {
        lit := e.base;
        mode := LIT;
      } else if IsExtra(e) {
        get := e.exop % 16;
        len := e.base;
        mode := LENEXT;
      } else if !IsEnd(e) {
        need := e.exop;
        tree := a + e.base;
      } else if IsStop(e) {
        mode := WASH;
      } else {
        mode := BADCODE;
      }
    }

    method DoLenExt(r0: Regs, rc0: int) returns (left: bool, r: Regs, rc: int)
      requires AtMode(r0, rc0, LENEXT)
      modifies this`bitb, this`bitk, this`next_in, this`avail_in, this`total_in, this`write, this`read, this`out, this`avail_out, this`total_out
      modifies this`mode, this`len, this`need, this`tree
      ensures if left then LeftOk(rc, old(Cur(r0))) else Stepped(r, rc, old(Cur(r0)))
      ensures old(Idle(r0)) ==> left && rc == rc0 && Pending(read, write) == 0
    {
      hide Live, Pos, Loaded, Run, Low, Dumped, LeftOk, Stepped, Rested, Shr, DistsOk, Pow2;
      var ok;
      ok, r, rc := NeedBits(r0, get, rc0);
      if !ok {
        rc := Starve(r, rc);
        return true, r, rc;
      }
      r := TakeLenExt(r, rc);
      left := false;
    }

    method TakeLenExt(r0: Regs, ghost rc: int) returns (r: Regs)
      requires Live(r0) && Going(rc, r0.n) && mode == LENEXT && TablesOk(t) && Healthy(t, V(), Cur(r0)) && get <= r0.k < get + 16
      modifies this`mode, this`len, this`need, this`tree
      ensures Stepped(r, rc, old(Cur(r0)))
    {
      hide Live, Pos, Loaded, Run, Low, Dumped, Rested, Shr, DistsOk, Pow2, Healthy;
      PosBound(r0);
      DumpLive(r0, get);
      len := len + Low(r0.b, get);
      r := Dumped(r0, get);
      need := t.dbits;
      tree := t.dtree;
      mode := DIST;
    }

    method DoDist(r0: Regs, rc0: int) returns (left: bool, r: Regs, rc: int)
      requires AtMode(r0, rc0, DIST)
      modifies this`bitb, this`bitk, this`next_in, this`avail_in, this`total_in, this`write, this`read, this`out, this`avail_out, this`total_out
      modifies this`mode, this`need, this`tree, this`get, this`dist
      ensures if left then LeftOk(rc, old(Cur(r0))) else Stepped(r, rc, old(Cur(r0)))
      ensures old(Idle(r0)) ==> left && rc == rc0 && Pending(read, write) == 0
    {
      hide Live, Pos, Loaded, Run, Next, LeftOk, Stepped, Rested;
      HealthyDist(t, V(), Cur(r0));
      hide Healthy;
      var ok;
      ok, r, rc := NeedBits(r0, need, rc0);
      if !ok {
        rc := Starve(r, rc);
        return true, r, rc;
      }
      left, r, rc := TakeDist(r, rc);
    }

    method TakeDist(r0: Regs, rc0: int) returns (left: bool, r: Regs, rc: int)
      requires Live(r0) && Going(rc0, r0.n) && mode == DIST && TablesOk(t) && Healthy(t, V(), Cur(r0)) && need <= r0.k < 17
      modifies this`bitb, this`bitk, this`next_in, this`avail_in, this`total_in, this`write, this`read, this`out, this`avail_out, this`total_out
      modifies this`mode, this`need, this`tree, this`get, this`dist
      ensures if left then LeftOk(rc, old(Cur(r0))) else Stepped(r, rc, old(Cur(r0)))
    {
      hide Live, Pos, Loaded, Run, Low, Dumped, AfterDist, LeftOk, Traced, Shr;
      rc := rc0;
      ghost var s := Cur(r0);
      HealthyDist(t, V(), s);
      hide Healthy;
      PosBound(r0);
      StepKeeps(t, V(), bounds.lim, s);
      NotLost(t, V(), Next(t, V(), s));
      DumpLive(r0, need);
      var a := tree + Low(r0.b, need);
      var e := t.h[a];
      DumpLive(r0, e.bits);
      r := Dumped(r0, e.bits);
      EnterDist(a, e);
      TracedNot(r);
      left := mode == BADCODE;
      if left { rc := LeaveBad(r, s); }
    }

    /** What is done for a distance entry. */
    method EnterDist(a: nat, e: Huft)
      requires mode == DIST && !AfterDist(len, a, e).Lost?
      modifies this`mode, this`need, this`tree, this`get, this`dist
      ensures Control() == AfterDist(len, a, e) && mode != END && mode != LEN && mode != LIT
    {
      if IsExtra(e) {
        get := e.exop % 16;
        dist := e.base;
        mode := DISTEXT;
      } else if !IsEnd(e) {
        need := e.exop;
        tree := a + e.base;
      } else {
        mode := BADCODE;
      }
    }

    method DoDistExt(r0: Regs, rc0: int) returns (left: bool, r: Regs, rc: int)
      requires AtMode(r0, rc0, DISTEXT)
      modifies this`bitb, this`bitk, this`next_in, this`avail_in, this`total_in, this`write, this`read, this`out, this`avail_out, this`total_out
      modifies this`mode, this`dist
      ensures if left then LeftOk(rc, old(Cur(r0))) else Stepped(r, rc, old(Cur(r0)))
      ensures old(Idle(r0)) ==> left && rc == rc0 && Pending(read, write) == 0
    {
      hide Live, Pos, Loaded, Run, Low, Dumped, LeftOk, Stepped, Rested, Shr, DistsOk, Pow2;
      var ok;
      ok, r, rc := NeedBits(r0, get, rc0);
      if !ok {
        rc := Starve(r, rc);
        return true, r, rc;
      }
      r := TakeDistExt(r, rc);
      left := false;
    }

    method TakeDistExt(r0: Regs, ghost rc: int) returns (r: Regs)
      requires Live(r0) && Going(rc, r0.n) && mode == DISTEXT && TablesOk(t) && Healthy(t, V(), Cur(r0)) && get <= r0.k < get + 16
      modifies this`mode, this`dist
      ensures Stepped(r, rc, old(Cur(r0)))
    {
      hide Live, Pos, Loaded, Run, Low, Dumped, Rested, Shr, DistsOk, Pow2, Healthy;
      PosBound(r0);
      DumpLive(r0, get);
      dist := dist + Low(r0.b, get);
      r := Dumped(r0, get);
      mode := COPY;
    }

    method DoLit(r0: Regs, rc0: int) returns (left: bool, r: Regs, rc: int)
      requires AtMode(r0, rc0, LIT)
      modifies this`bitb, this`bitk, this`next_in, this`avail_in, this`total_in, this`write, this`read, this`out, this`avail_out, this`total_out
      modifies window, this`hist, this`mode
      ensures if left then LeftOk(rc, old(Cur(r0))) else Stepped(r, rc, old(Cur(r0)))
    {
      hide Live, Loaded, Run, LeftOk, Rested, OnCode, CodeTaken, Pending;
      var ok;
      ok, r, rc := NeedOut(r0, rc0);
      if !ok {
        rc := Fill(r, rc);
        return true, r, rc;
      }
      PosBound(r);
      r := OutByte(r, lit);
      mode := START;
      left := false;
    }

    /** Where a copy reads from: dist behind the write position, around the end of the window if need be. */
    method CopyFrom(q: nat) returns (f: nat)
      requires q <= WSIZE && 1 <= dist <= WSIZE
      ensures f == Source(q, dist)
    {
      f := if q < dist then WSIZE - (dist - q) else q - dist;
    }

    /** One byte of a copy. */
    method CopyOne(r0: Regs, f0: nat) returns (r: Regs, f: nat)
      requires Live(r0) && r0.m > 0 && len > 0 && 1 <= dist <= WSIZE && f0 == Source(r0.q, dist)
      modifies window, this`hist, this`len
      ensures Live(r) && r == r0.(q := r.q, m := r.m) && f == Source(r.q, dist) && len == old(len) - 1
      ensures |hist| > |old(hist)| >= WSIZE && CopyBack(hist, len, dist) == CopyBack(old(hist), old(len), dist)
    {
      hide Live, Source, CopyBack;
      SourceAt(r0, dist);
      PlacesBound(r0);
      SourceNext(r0.q, dist);
      CopyBackFirst(hist, len, dist);
      r := OutByte(r0, window[f0]);
      f := f0 + 1;
      if f == WSIZE { f := 0; }
      len := len - 1;
    }

    lemma {:induction false} CopyBackFirst(h: seq<byte>, n: nat, d: nat)
      requires n > 0 && 1 <= d <= |h|
      ensures CopyBack(h, n, d) == CopyBack(h + [h[|h| - d]], n - 1, d)
    {
    }

    /** A copy that stops halfway is still on the same run. */
    lemma {:induction false} CopySame(t: Tables, v: nat, size: nat, pos: nat, h: seq<byte>, n: nat, h2: seq<byte>, n2: nat, d: nat)
      requires 1 <= d <= |h| && d <= |h2| && CopyBack(h, n, d) == CopyBack(h2, n2, d) && pos <= 8 * size
      ensures Run(t, v, size, S(AtCopy(n, d), pos, h)) == Run(t, v, size, S(AtCopy(n2, d), pos, h2))
    {
      hide CopyBack;
      RunNext(t, v, size, S(AtCopy(n, d), pos, h));
      RunNext(t, v, size, S(AtCopy(n2, d), pos, h2));
    }

    lemma {:induction false} CopyJoins(pos: nat, h: seq<byte>, n: nat, h2: seq<byte>, n2: nat, d: nat)
      requires 1 <= d <= |h| && d <= |h2| && n2 <= n && CopyBack(h, n, d) == CopyBack(h2, n2, d) && pos <= 8 * bounds.lim
      ensures Joined(S(AtCopy(n, d), pos, h), S(AtCopy(n2, d), pos, h2))
    {
      CopyPart(h, n, h2, n2, d);
      hide CopyBack, Run, Leads;
      LeadsCopy(t, V(), pos, h, n, d, n - n2);
      forall size: nat | bounds.lim <= size ensures Run(t, V(), size, S(AtCopy(n, d), pos, h)) == Run(t, V(), size, S(AtCopy(n2, d), pos, h2)) {
        CopySame(t, V(), size, pos, h, n, h2, n2, d);
      }
    }

    lemma {:induction false} CopyPart(h: seq<byte>, n: nat, h2: seq<byte>, n2: nat, d: nat)
      requires 1 <= d <= |h| && d <= |h2| && n2 <= n && CopyBack(h, n, d) == CopyBack(h2, n2, d)
      ensures h2 == CopyBack(h, n - n2, d)
    {
      CopyBackParts(h, n - n2, n2, d);
      var h3 := CopyBack(h, n - n2, d);
      assert CopyBack(h3, n2, d)[..|h3|] == h3;
      assert CopyBack(h2, n2, d)[..|h2|] == h2;
    }

    lemma {:induction false} CopyBackNone(h: seq<byte>, d: nat)
      ensures CopyBack(h, 0, d) == h
    {
    }

    method DoCopy(r0: Regs, rc0: int) returns (left: bool, r: Regs, rc: int)
      requires AtMode(r0, rc0, COPY)
      modifies this`bitb, this`bitk, this`next_in, this`avail_in, this`total_in, this`write, this`read, this`out, this`avail_out, this`total_out
      modifies window, this`hist, this`mode, this`len
      ensures if left then LeftOk(rc, old(Cur(r0))) else Stepped(r, rc, old(Cur(r0)))
    {
      hide Live, Loaded, Run, LeftOk, Rested, CopyBack, Source, Stepped;
      r, rc := r0, rc0;
      PosBound(r);
      var f := CopyFrom(r.q);
      while len > 0
        invariant Live(r) && r == r0.(q := r.q, m := r.m) && Going(rc, r.n) && mode == COPY && f == Source(r.q, dist)
        invariant |hist| >= WSIZE && len <= old(len) && CopyBack(hist, len, dist) == CopyBack(old(hist), old(len), dist)
      {
        var ok;
        ok, r, rc := NeedOut(r, rc);
        if !ok {
          PosBound(r);
          CopyJoins(Pos(r), old(hist), old(len), hist, len, dist);
          ghost var mid := Cur(r);
          rc := Fill(r, rc);
          LeftFurther(rc, S(AtCopy(old(len), dist), Pos(r), old(hist)), mid);
          return true, r, rc;
        }
        SourceWrap(dist);
        r, f := CopyOne(r, f);
      }
      CopyBackNone(hist, dist);
      mode := START;
      left := false;
      PosBound(r);
      CopyStepped(r, rc, S(AtCopy(old(len), dist), Pos(r), old(hist)));
    }

    lemma {:induction false} CopyStepped(r: Regs, rc: int, s: S)
      requires Live(r) && r.k < 16 && Going(rc, r.n) && mode == START && s.c.AtCopy? && 1 <= s.c.dist <= |s.hist|
      requires s.pos == Pos(r) <= 8 * bounds.lim && hist == CopyBack(s.hist, s.c.len, s.c.dist)
      ensures Stepped(r, rc, s)
    {
      hide Live, CopyBack, Pos;
    }

    lemma {:induction false} SourceWrap(d: nat)
      requires 1 <= d <= WSIZE
      ensures Source(WSIZE, d) == Source(0, d)
    {
    }

    /** An unused byte in the bit buffer goes back to the input, even if it came from an earlier buffer. */
    method ReturnByte(r0: Regs) returns (r: Regs)
      requires Live(r0) && r0.k < 16
      modifies this`base, this`under
      ensures Live(r) && Pos(r) == Pos(r0) && r.k < 8 && r.n >= r0.n && r.q == r0.q
      ensures under == (old(under) || (r0.k > 7 && r0.p == old(base)))
      ensures base == if r0.k > 7 && r0.p == old(base) then old(base) - 1 else old(base)
      ensures r0.k > 7 && r0.p == old(base) <==> Pos(r0) + 8 <= 8 * old(base)
    {
      hide BufOk, Ring, Room;
      PosBound(r0);
      r := r0;
      if r.k > 7 {
        ReturnOk(V(), r, 1);
        if r.p == base {
          base := base - 1;
          under := true;
        }
        r := r.(k := r.k - 8, p := r.p - 1, n := r.n + 1);
      }
    }

    /** FLUSH */
    method FlushOut(r0: Regs, rc0: int) returns (r: Regs, rc: int)
      requires Live(r0)
      modifies this`write, this`read, this`out, this`avail_out, this`total_out
      ensures Live(r) && r == r0.(q := r.q, m := r.m) && Pos(r) == Pos(r0) && r.q == write
      ensures rc == rc0 || (rc0 == Z_BUF_ERROR && rc == Z_OK)
      ensures Pending(read, r.q) > 0 ==> avail_out == 0
      ensures Pending(read, r.q) == 0 <==> read == r.q
    {
      hide BufOk, Ring, Pending, Room;
      write := r0.q;
      rc := Flush(rc0);
      r := r0.(q := write, m := Room(read, write));
      RingBounds(window[..], read, r.q, hist, out);
    }

    /** The end of a block of codes lies a whole byte or more before where the input buffer begins, so that WASH has handed back a byte
        of an earlier buffer; b and u are base and under before. */
    ghost predicate Slipped(b: nat, u: bool)
      reads this`base, this`under, this`mode, this`len, this`need, this`tree, this`lit, this`get, this`dist
      reads this`bitb, this`bitk, this`next_in, this`avail_in, this`write, this`read
    {
      var back := Control().AtWash? && Pos(Loaded()) + 8 <= 8 * b;
      under == (u || back) && base == if back then b - 1 else b
    }

    lemma {:induction false} NotSlipped(rc: int)
      requires Saved() && Rested(rc)
      ensures Slipped(base, under)
    {
      hide Ring, BufOk, Room;
    }

    method DoWash(r0: Regs, rc0: int) returns (rc: int)
      requires Live(r0) && r0.k < 16 && mode == WASH && (Going(rc0, r0.n) || rc0 == Z_STREAM_END)
      modifies this`bitb, this`bitk, this`next_in, this`avail_in, this`total_in, this`write, this`read, this`out, this`avail_out, this`total_out
      modifies this`mode, this`base, this`under
      ensures LeftOk(rc, old(Cur(r0))) && Slipped(old(base), old(under))
    {
      hide Live, Loaded, Run, Pending, Healthy, Rested, Leads, Traced, Pos;
      JoinedSelf(Cur(r0));
      var r := ReturnByte(r0);
      r, rc := FlushOut(r, rc0);
      if read != r.q {
        rc := Leave(r, rc);
      } else {
        mode := END;
        rc := Leave(r, Z_STREAM_END);
      }
      WashRested(rc);
      TracedNot(Loaded());
    }

    lemma {:induction false} WashRested(rc: int)
      requires Saved() && (mode == WASH || mode == END) && bitk < 8
      requires rc == Z_STREAM_END || (Going(rc, avail_in) && avail_out == 0 && Pending(read, write) > 0)
      requires avail_out > 0 ==> Pending(read, write) == 0
      ensures Rested(rc) && Healthy(t, V(), Cur(Loaded()))
    {
      hide BufOk;
    }

    // ---------------------------------------------------------------- inflate_fast

    /** GRABBITS: no check for more input, since at most three bytes are taken. */
    method GrabBits(r0: Regs, j: nat) returns (r: Regs)
      requires Live(r0) && j <= 24 && r0.n >= 3
      ensures Live(r) && Pos(r) == Pos(r0) && r.q == r0.q && r.m == r0.m
      ensures r.k >= j && r.n >= r0.n - 3 && r.n <= r0.n
    {
      hide *;
      r := r0;
      while r.k < j
        invariant Live(r) && Pos(r) == Pos(r0) && r.q == r0.q && r.m == r0.m && r.n <= r0.n
        invariant r.k + 8 * r.n == r0.k + 8 * r0.n && (r.k < j + 8 || r.n == r0.n)
        decreases r.n
      {
        GrabLive(r);
        r := Grabbed(input, r);
      }
    }

    /** From table to table down to a leaf, whose bits are not yet dropped. */
    method FastWalk(r0: Regs, tree0: nat, need0: nat) returns (a: nat, r: Regs)
      requires Live(r0) && var w := Walk(t.h, tree0, need0, Shr(V(), Pos(r0))); w.Leaf? && w.reach <= r0.k
      ensures Live(r) && r == r0.(b := r.b, k := r.k)
      ensures var w := Walk(t.h, tree0, need0, Shr(V(), Pos(r0)));
              a < |t.h| && t.h[a] == w.entry && w.entry.bits <= r.k
              && Pos(r) + w.entry.bits == Pos(r0) + w.used && r.k + Pos(r) == r0.k + Pos(r0)
    {
      hide *;
      var tr, nd := tree0, need0;
      ghost var w0 := Walk(t.h, tree0, need0, Shr(V(), Pos(r0)));
      r := r0;
      a := FirstSlot(r, tr, nd);
      while IsLink(t.h[a])
        invariant Live(r) && r == r0.(b := r.b, k := r.k) && r.k + Pos(r) == r0.k + Pos(r0)
        invariant a < |t.h| && a == tr + Low(Shr(V(), Pos(r)), nd)
        invariant var w := Walk(t.h, tr, nd, Shr(V(), Pos(r)));
                  w.Leaf? && w.entry == w0.entry && Pos(r) + w.used == Pos(r0) + w0.used && w.reach <= r.k
        decreases |t.h| - tr
      {
        FastLink(r, tr, nd, a);
        tr, nd := a + t.h[a].base, t.h[a].exop;
        r := Dumped(r, t.h[a].bits);
        a := FirstSlot(r, tr, nd);
      }
      FastLeaf(r, tr, nd, a);
    }

    method FirstSlot(r: Regs, tr: nat, nd: nat) returns (a: nat)
      requires Live(r) && var w := Walk(t.h, tr, nd, Shr(V(), Pos(r))); w.Leaf? && w.reach <= r.k
      ensures a == tr + Low(Shr(V(), Pos(r)), nd) && a < |t.h|
    {
      hide Live, Pos, Walk, Shr, Low, IsLink;
      WalkStep(t.h, tr, nd, Shr(V(), Pos(r)));
      DumpLive(r, nd);
      a := tr + Low(r.b, nd);
    }

    lemma {:induction false} FastLink(r: Regs, tr: nat, nd: nat, a: nat)
      requires Live(r) && a == tr + Low(Shr(V(), Pos(r)), nd) && a < |t.h| && IsLink(t.h[a])
      requires var w := Walk(t.h, tr, nd, Shr(V(), Pos(r))); w.Leaf? && w.reach <= r.k
      ensures t.h[a].base > 0 && t.h[a].bits <= r.k
      ensures var r' := Dumped(r, t.h[a].bits); var w := Walk(t.h, tr, nd, Shr(V(), Pos(r)));
              var w' := Walk(t.h, a + t.h[a].base, t.h[a].exop, Shr(V(), Pos(r')));
              Live(r') && r' == r.(b := r'.b, k := r'.k) && r'.k + Pos(r') == r.k + Pos(r)
              && w'.Leaf? && w'.entry == w.entry && Pos(r') + w'.used == Pos(r) + w.used && w'.reach <= r'.k
    {
      hide Live, Pos, Walk, Shr, Low, IsLink;
      WalkStep(t.h, tr, nd, Shr(V(), Pos(r)));
      LinkForward(t.h, tr, nd, Shr(V(), Pos(r)));
      DumpLive(r, t.h[a].bits);
      ShrShr(V(), Pos(r), t.h[a].bits);
    }

    lemma {:induction false} FastLeaf(r: Regs, tr: nat, nd: nat, a: nat)
      requires a == tr + Low(Shr(V(), Pos(r)), nd) && a < |t.h| && !IsLink(t.h[a])
      requires var w := Walk(t.h, tr, nd, Shr(V(), Pos(r))); w.Leaf? && w.reach <= r.k
      ensures var w := Walk(t.h, tr, nd, Shr(V(), Pos(r))); t.h[a] == w.entry && w.entry.bits <= r.k && w.used == w.entry.bits
    {
      hide Live, Pos, Walk, Shr, Low, IsLink;
      WalkStep(t.h, tr, nd, Shr(V(), Pos(r)));
    }

    /** A literal/length code within the input takes the machine straight to its leaf. */
    lemma {:induction false} FastLit(t: Tables, v: nat, size: nat, pos: nat, h: seq<byte>)
      requires TablesOk(t) && pos + 80 <= 8 * size
      ensures var w := Walk(t.h, t.ltree, t.lbits, Shr(v, pos));
              w.Leaf? && LitLeaf(t, w) && w.used <= 15 && !IsLink(w.entry)
              && Run(t, v, size, S(AtStart, pos, h)) == Run(t, v, size, S(AfterLen(0, w.entry), pos + w.used, h))
    {
      hide Walk, Shr, Run, DistsOk, IsLink, IsExtra, AfterLen, Pow2;
      var w := Walk(t.h, t.ltree, t.lbits, Shr(v, pos));
      assert LitLeaf(t, w);
      WalkLeafIsLeaf(t.h, t.ltree, t.lbits, Shr(v, pos));
      UsedInReach(t.h, t.ltree, t.lbits, Shr(v, pos));
      RunNext(t, v, size, S(AtStart, pos, h));
      WalkLen(t, v, size, S(AtLen(t.lbits, t.ltree), pos, h));
    }

    /** The same for extra length bits and a distance code. */
    lemma {:induction false} FastDist(t: Tables, v: nat, size: nat, pos: nat, h: seq<byte>, len: nat, get: nat)
      requires DistsOk(t) && get <= 5 && pos + 50 <= 8 * size
      ensures var p := pos + get; var n := len + Low(Shr(v, pos), get); var w := Walk(t.h, t.dtree, t.dbits, Shr(v, p));
              w.Leaf? && DistLeaf(w) && w.used <= 15 && !IsLink(w.entry)
              && Run(t, v, size, S(AtLenExt(len, get), pos, h)) == Run(t, v, size, S(AfterDist(n, 0, w.entry), p + w.used, h))
    {
      hide Walk, Shr, Run, IsLink, IsExtra, AfterDist, Low, Pow2;
      var p := pos + get;
      var w := Walk(t.h, t.dtree, t.dbits, Shr(v, p));
      assert DistLeaf(w);
      WalkLeafIsLeaf(t.h, t.dtree, t.dbits, Shr(v, p));
      UsedInReach(t.h, t.dtree, t.dbits, Shr(v, p));
      var s := S(AtLenExt(len, get), pos, h);
      RunNext(t, v, size, s);
      WalkDist(t, v, size, Next(t, v, s));
    }

    /** And for extra distance bits and the copy. */
    lemma {:induction false} FastExt(t: Tables, v: nat, size: nat, pos: nat, h: seq<byte>, len: nat, d: nat, get: nat)
      requires pos + get <= 8 * size && 1 <= d + Low(Shr(v, pos), get) <= |h|
      ensures var dd := d + Low(Shr(v, pos), get);
              Run(t, v, size, S(AtDistExt(len, d, get), pos, h)) == Run(t, v, size, S(AtStart, pos + get, CopyBack(h, len, dd)))
    {
      hide Shr, Run, Low, CopyBack;
      var s := S(AtDistExt(len, d, get), pos, h);
      RunNext(t, v, size, s);
      RunNext(t, v, size, Next(t, v, s));
    }

    // The machine comes there.

    lemma {:induction false} FastLitLeads(t: Tables, v: nat, pos: nat, h: seq<byte>)
      requires TablesOk(t)
      ensures var w := Walk(t.h, t.ltree, t.lbits, Shr(v, pos));
              w.Leaf? && Leads(t, v, S(AtStart, pos, h), S(AfterLen(0, w.entry), pos + w.used, h))
    {
      hide Walk, Shr, Leads, DistsOk, IsExtra, AfterLen, Pow2;
      var w := Walk(t.h, t.ltree, t.lbits, Shr(v, pos));
      assert LitLeaf(t, w);
      var mid := S(AtLen(t.lbits, t.ltree), pos, h);
      StartLeads(t, v, pos, h);
      LeadsLen(t, v, mid);
      LeadsOn(t, v, S(AtStart, pos, h), mid, S(AfterLen(0, w.entry), pos + w.used, h));
    }

    lemma {:induction false} FastDistLeads(t: Tables, v: nat, pos: nat, h: seq<byte>, len: nat, get: nat)
      requires DistsOk(t)
      ensures var p := pos + get; var n := len + Low(Shr(v, pos), get); var w := Walk(t.h, t.dtree, t.dbits, Shr(v, p));
              w.Leaf? && Leads(t, v, S(AtLenExt(len, get), pos, h), S(AfterDist(n, 0, w.entry), p + w.used, h))
    {
      hide Walk, Shr, Leads, AfterDist, Low, Pow2;
      var p := pos + get;
      var w := Walk(t.h, t.dtree, t.dbits, Shr(v, p));
      assert DistLeaf(w);
      var s := S(AtLenExt(len, get), pos, h);
      LeadsNext(t, v, s);
      var mid := Next(t, v, s);
      LeadsDist(t, v, mid);
      LeadsOn(t, v, s, mid, S(AfterDist(mid.c.len, 0, w.entry), p + w.used, h));
    }

    lemma {:induction false} FastExtLeads(t: Tables, v: nat, pos: nat, h: seq<byte>, len: nat, d: nat, get: nat)
      requires 1 <= d + Low(Shr(v, pos), get) <= |h|
      ensures var dd := d + Low(Shr(v, pos), get);
              Leads(t, v, S(AtDistExt(len, d, get), pos, h), S(AtStart, pos + get, CopyBack(h, len, dd)))
    {
      hide Shr, Leads, Low, CopyBack;
      var s := S(AtDistExt(len, d, get), pos, h);
      LeadsNext(t, v, s);
      LeadsNext(t, v, Next(t, v, s));
      LeadsOn(t, v, s, Next(t, v, s), Next(t, v, Next(t, v, s)));
    }

    // The same for all inputs that begin with the one there is now.

    lemma {:induction false} FastLits(pos: nat, h: seq<byte>)
      requires TablesOk(t) && pos + 80 <= 8 * bounds.lim
      ensures var w := Walk(t.h, t.ltree, t.lbits, Shr(V(), pos));
              LitLeaf(t, w) && w.used <= 15 && !IsLink(w.entry) && Joined(S(AtStart, pos, h), S(AfterLen(0, w.entry), pos + w.used, h))
    {
      hide *;
      FastLit(t, V(), bounds.lim, pos, h);
      var w := Walk(t.h, t.ltree, t.lbits, Shr(V(), pos));
      forall size: nat | bounds.lim <= size
        ensures Run(t, V(), size, S(AtStart, pos, h)) == Run(t, V(), size, S(AfterLen(0, w.entry), pos + w.used, h))
      {
        FastLit(t, V(), size, pos, h);
      }
      FastLitLeads(t, V(), pos, h);
      JoinedAll(S(AtStart, pos, h), S(AfterLen(0, w.entry), pos + w.used, h));
    }

    lemma {:induction false} JoinedAll(a: S, b: S)
      requires Leads(t, V(), a, b) && forall size: nat :: bounds.lim <= size ==> Run(t, V(), size, a) == Run(t, V(), size, b)
      ensures Joined(a, b)
    {
      hide Run, Leads;
    }

    lemma {:induction false} JoinedSelf(a: S)
      ensures Joined(a, a)
    {
      hide Run, Leads;
      LeadsSelf(t, V(), a);
    }

    lemma {:induction false} JoinedOn(a: S, b: S, c: S)
      requires Joined(a, b) && Joined(b, c)
      ensures Joined(a, c)
    {
      hide Run, Leads;
      LeadsOn(t, V(), a, b, c);
    }

    lemma {:induction false} FastDists(pos: nat, h: seq<byte>, len: nat, get: nat)
      requires DistsOk(t) && get <= 5 && pos + 50 <= 8 * bounds.lim
      ensures var p := pos + get; var n := len + Low(Shr(V(), pos), get); var w := Walk(t.h, t.dtree, t.dbits, Shr(V(), p));
              DistLeaf(w) && w.used <= 15 && !IsLink(w.entry)
              && Joined(S(AtLenExt(len, get), pos, h), S(AfterDist(n, 0, w.entry), p + w.used, h))
    {
      hide *;
      FastDist(t, V(), bounds.lim, pos, h, len, get);
      var p := pos + get;
      var n := len + Low(Shr(V(), pos), get);
      var w := Walk(t.h, t.dtree, t.dbits, Shr(V(), p));
      forall size: nat | bounds.lim <= size
        ensures Run(t, V(), size, S(AtLenExt(len, get), pos, h)) == Run(t, V(), size, S(AfterDist(n, 0, w.entry), p + w.used, h))
      {
        FastDist(t, V(), size, pos, h, len, get);
      }
      FastDistLeads(t, V(), pos, h, len, get);
      JoinedAll(S(AtLenExt(len, get), pos, h), S(AfterDist(n, 0, w.entry), p + w.used, h));
    }

    lemma {:induction false} FastExts(pos: nat, h: seq<byte>, len: nat, d: nat, get: nat)
      requires pos + get <= 8 * bounds.lim && 1 <= d + Low(Shr(V(), pos), get) <= |h|
      ensures var dd := d + Low(Shr(V(), pos), get);
              Joined(S(AtDistExt(len, d, get), pos, h), S(AtStart, pos + get, CopyBack(h, len, dd)))
    {
      hide *;
      var dd := d + Low(Shr(V(), pos), get);
      forall size: nat | bounds.lim <= size
        ensures Run(t, V(), size, S(AtDistExt(len, d, get), pos, h)) == Run(t, V(), size, S(AtStart, pos + get, CopyBack(h, len, dd)))
      {
        FastExt(t, V(), size, pos, h, len, d, get);
      }
      FastExtLeads(t, V(), pos, h, len, d, get);
      JoinedAll(S(AtDistExt(len, d, get), pos, h), S(AtStart, pos + get, CopyBack(h, len, dd)));
    }

    lemma {:induction false} LitJoins(pos: nat, h: seq<byte>, b: byte)
      requires pos <= 8 * bounds.lim
      ensures Joined(S(AtLit(b), pos, h), S(AtStart, pos, h + [b]))
    {
      hide Run, Leads;
      LeadsNext(t, V(), S(AtLit(b), pos, h));
      forall size: nat | bounds.lim <= size ensures Run(t, V(), size, S(AtLit(b), pos, h)) == Run(t, V(), size, S(AtStart, pos, h + [b])) {
        RunNext(t, V(), size, S(AtLit(b), pos, h));
      }
    }

    /** n bytes from f on, none of them past the end of the window. */
    method CopyPiece(r0: Regs, f: nat, n: nat, d: nat) returns (r: Regs)
      requires Live(r0) && n <= r0.m && 1 <= d <= WSIZE && f == Source(r0.q, d) && f + n <= WSIZE
      modifies window, this`hist
      ensures Live(r) && r == r0.(q := r0.q + n, m := r0.m - n)
      ensures |old(hist)| >= WSIZE && hist == CopyBack(old(hist), n, d)
    {
      hide Live, Source, CopyBack, Ring;
      PosBound(r0);
      PlacesBound(r0);
      r := r0;
      var i := 0;
      while i < n
        invariant 0 <= i <= n && Live(r) && r == r0.(q := r0.q + i, m := r0.m - i)
        invariant i < n ==> f + i == Source(r.q, d)
        invariant |hist| >= WSIZE && CopyBack(hist, n - i, d) == CopyBack(old(hist), n, d)
      {
        SourceAt(r, d);
        CopyBackFirst(hist, n - i, d);
        SourceNext(r.q, d);
        r := OutByte(r, window[f + i]);
        i := i + 1;
      }
      CopyBackNone(hist, d);
    }

    lemma {:induction false} PlacesBound(r: Regs)
      requires Live(r)
      ensures r.q + r.m <= WSIZE && |hist| >= WSIZE
    {
      RingBounds(window[..], read, r.q, hist, out);
      hide BufOk, Ring, Room;
    }

    lemma {:induction false} SourceAt(r: Regs, d: nat)
      requires Live(r) && 1 <= d <= WSIZE
      ensures window.Length == WSIZE && Source(r.q, d) < WSIZE && |hist| >= WSIZE && window[Source(r.q, d)] == hist[|hist| - d]
    {
      hide BufOk, Room;
      SourceHolds(window[..], read, r.q, hist, out, d);
    }

    lemma {:induction false} CopyBackParts(h: seq<byte>, a: nat, b: nat, d: nat)
      requires 1 <= d <= |h|
      ensures CopyBack(CopyBack(h, a, d), b, d) == CopyBack(h, a + b, d)
      decreases a
    {
      if a > 0 {
        CopyBackFirst(h, a, d);
        CopyBackFirst(h, a + b, d);
        CopyBackParts(h + [h[|h| - d]], a - 1, b, d);
      }
    }

    /** The copy of inflate_fast: in one piece, or to the end of the window and on from its start. */
    method FastCopy(r0: Regs, c0: nat, d: nat) returns (r: Regs)
      requires Live(r0) && 3 <= c0 <= r0.m && 1 <= d <= WSIZE
      modifies window, this`hist
      ensures Live(r) && r == r0.(q := r0.q + c0, m := r0.m - c0)
      ensures |old(hist)| >= WSIZE && hist == CopyBack(old(hist), c0, d)
    {
      hide Live, CopyBack, Ring;
      PlacesBound(r0);
      r := r0;
      var c := c0;
      var f;
      if r.q >= d {
        f := r.q - d;
      } else {
        var e := d - r.q;
        f := WSIZE - e;
        if c > e {
          c := c - e;
          r := CopyPiece(r, f, e, d);
          CopyBackParts(old(hist), e, c, d);
          f := 0;
        }
      }
      r := CopyPiece(r, f, c, d);
    }

    method FastMatch(r0: Regs, e: Huft) returns (res: Round, r: Regs)
      requires Live(r0) && r0.m >= 258 && r0.n >= 7 && r0.k >= 5 && TablesOk(t) && DistsOk(t)
      requires IsExtra(e) && e.exop % 16 <= 5 && 3 <= e.base && e.base + Pow2(e.exop % 16) <= 259
      modifies window, this`hist
      ensures Live(r) && Pos(r) >= Pos(r0) && r.n <= r0.n && r.m <= r0.m && (res.Go? ==> r.m < r0.m)
      ensures Joined(S(AtLenExt(e.base, e.exop % 16), Pos(r0), old(hist)), S(After(res), Pos(r), hist))
    {
      hide Live, Pos, Walk, Run, Low, Shr, Pow2, IsExtra, IsEnd, CopyBack, TablesOk, DistsOk, AfterDist, IsLink, Dumped;
      PosRoom(r0);
      var get := e.exop % 16;
      FastDists(Pos(r0), hist, e.base, get);
      DumpLive(r0, get);
      var c := e.base + Low(r0.b, get);
      r := Dumped(r0, get);
      r := GrabBits(r, 15);
      var a;
      a, r := FastWalk(r, t.dtree, t.dbits);
      var e2 := t.h[a];
      DumpLive(r, e2.bits);
      r := Dumped(r, e2.bits);
      DistEntered(c, e2);
      if IsExtra(e2) {
        res, r := FastBack(r, c, e2);
      } else {
        res := BadData;
      }
    }

    lemma {:induction false} DistEntered(len: nat, e: Huft)
      requires !IsLink(e) && e.exop != 0
      ensures AfterDist(len, 0, e) == if IsExtra(e) then AtDistExt(len, e.base, e.exop % 16) else AtBad
    {
    }

    /** There is input for a whole token. */
    lemma {:induction false} PosRoom(r: Regs)
      requires Live(r)
      ensures Pos(r) + 8 * r.n <= 8 * bounds.lim
    {
      hide Ring, Holds, Room;
    }

    /** The distance is known but for its extra bits. */
    method FastBack(r0: Regs, c: nat, e: Huft) returns (res: Round, r: Regs)
      requires Live(r0) && 3 <= c <= 258 <= r0.m && r0.n >= 4
      requires e.exop % 16 <= 13 && 1 <= e.base && e.base + Pow2(e.exop % 16) <= WSIZE + 1
      modifies window, this`hist
      ensures res.Go? && Live(r) && Pos(r) >= Pos(r0) && r.n <= r0.n && r.m < r0.m
      ensures Joined(S(AtDistExt(c, e.base, e.exop % 16), Pos(r0), old(hist)), S(AtStart, Pos(r), hist))
    {
      hide Live, Pos, Run, Low, Shr, Pow2, CopyBack, Dumped;
      PlacesBound(r0);
      var get := e.exop % 16;
      r := GrabBits(r0, get);
      PosBound(r);
      DumpLive(r, get);
      var d := e.base + Low(r.b, get);
      FastExts(Pos(r), hist, c, e.base, get);
      r := Dumped(r, get);
      ghost var r1 := r;
      r := FastCopy(r, c, d);
      res := Go;
      PosSame(r, r1);
    }

    lemma {:induction false} PosSame(r: Regs, r2: Regs)
      ensures r.k == r2.k && r.p == r2.p ==> Pos(r) == Pos(r2)
    {
    }

    /** One round of the loop of inflate_fast. */
    method FastRound(r0: Regs) returns (res: Round, r: Regs)
      requires Live(r0) && r0.m >= 258 && r0.n >= 10 && TablesOk(t)
      modifies window, this`hist
      ensures Live(r) && Pos(r) >= Pos(r0) && r.n <= r0.n && r.m <= r0.m && (res.Go? ==> r.m < r0.m)
      ensures Joined(old(S(AtStart, Pos(r0), hist)), S(After(res), Pos(r), hist))
    {
      hide Live, Walk, Run, Low, Shr, Pow2, IsExtra, IsEnd, IsStop, TablesOk, DistsOk, AfterLen, IsLink, Dumped;
      PosRoom(r0);
      r := GrabBits(r0, 20);
      FastLits(Pos(r), hist);
      var a;
      a, r := FastWalk(r, t.ltree, t.lbits);
      var e := t.h[a];
      DumpLive(r, e.bits);
      r := Dumped(r, e.bits);
      LenEntered(e);
      if e.exop == 0 {
        PosBound(r);
        LitJoins(Pos(r), hist, e.base);
        r := OutByte(r, e.base);
        res := Go;
      } else if IsExtra(e) {
        res, r := FastMatch(r, e);
      } else {
        res := if IsStop(e) then BlockEnd else BadData;
      }
    }

    lemma {:induction false} LenEntered(e: Huft)
      requires !IsLink(e)
      ensures AfterLen(0, e) ==
              if e.exop == 0 then AtLit(e.base)
              else if IsExtra(e) then AtLenExt(e.base, e.exop % 16)
              else if IsStop(e) then AtWash else AtBad
    {
    }

    /** UNGRAB: whole bytes taken but not used in this call go back. */
    method Ungrab(r0: Regs, ghost pos: nat) returns (r: Regs)
      requires Live(r0) && base <= next_in && r0.n <= avail_in && pos <= Pos(r0) && bitk <= 8 * next_in && pos == 8 * next_in - bitk && bitk < 16
      ensures Live(r) && Pos(r) == Pos(r0) && r.k < 16
    {
      hide Ring, BufOk, Room;
      PosBound(r0);
      var c := avail_in - r0.n;
      c := if r0.k / 8 < c then r0.k / 8 else c;
      ReturnOk(V(), r0, c);
      r := r0.(n := r0.n + c, p := r0.p - c, k := r0.k - 8 * c);
    }

    /** inflate_fast, on room for a longest match and ten bytes of input: it stays on the run of the machine, never
        asking for input or room that is not there. */
    method Fast() returns (rc: int, ghost res: Round)
      requires Saved() && Loaded().m >= 258 && Loaded().n >= 10 && TablesOk(t) && bitk < 16
      modifies window, this`hist, this`bitb, this`bitk, this`next_in, this`avail_in, this`total_in, this`write
      ensures Saved() && bitk < 16 && Pos(Loaded()) >= old(Pos(Loaded()))
      ensures Joined(old(S(AtStart, Pos(Loaded()), hist)), S(After(res), Pos(Loaded()), hist))
      ensures rc == match res case Go => Z_OK case BlockEnd => Z_STREAM_END case BadData => Z_DATA_ERROR
    {
      hide Live, Run, TablesOk;
      var r := Loaded();
      PosBound(r);
      InBuffer(r);
      var rd := Go;
      var first := true;
      while first || (rd.Go? && r.m >= 258 && r.n >= 10)
        invariant Live(r) && (first ==> rd.Go? && r.m >= 258 && r.n >= 10)
        invariant Pos(r) >= old(Pos(Loaded())) && r.n <= old(avail_in)
        invariant Joined(old(S(AtStart, Pos(Loaded()), hist)), S(After(rd), Pos(r), hist))
        decreases first, r.m, rd.Go?
        modifies window, this`hist
      {
        rd, r := FastRound(r);
        first := false;
      }
      r := Ungrab(r, old(Pos(Loaded())));
      Update(r);
      res := rd;
      rc := if rd.Go? then Z_OK else if rd.BlockEnd? then Z_STREAM_END else Z_DATA_ERROR;
    }

    lemma {:induction false} InBuffer(r: Regs)
      requires Live(r)
      ensures base <= r.p
    {
    }

    // ---------------------------------------------------------------- inflate_codes

    /** The result code that goes with the mode. */
    ghost predicate Fits(rc: int, n: nat)
      reads this`mode, this`bounds
    {
      Going(rc, n) || (mode == WASH && rc == Z_STREAM_END) || (mode == BADCODE && rc == Z_DATA_ERROR)
    }

    /** The state of the loop of inflate_codes: on the run from s0. */
    ghost predicate Running(r: Regs, rc: int, s0: S)
      reads this, window
    {
      Live(r) && r.k < 16 && Fits(rc, r.n) && TablesOk(t) && Healthy(t, V(), Cur(r)) && Joined(s0, Cur(r)) && (mode == END ==> r.k < 8) && Traced(r)
    }

    lemma {:induction false} StartLen(t: Tables, v: nat, size: nat, pos: nat, h: seq<byte>)
      requires TablesOk(t) && pos <= 8 * size && |h| >= WSIZE
      ensures Run(t, v, size, S(AtStart, pos, h)) == Run(t, v, size, S(AtLen(t.lbits, t.ltree), pos, h))
      ensures Healthy(t, v, S(AtLen(t.lbits, t.ltree), pos, h))
    {
      hide Walk, Shr, LitLeaf, Run;
      RunNext(t, v, size, S(AtStart, pos, h));
      assert LitLeaf(t, Walk(t.h, t.ltree, t.lbits, Shr(v, pos)));
    }

    lemma {:induction false} StartLeads(t: Tables, v: nat, pos: nat, h: seq<byte>)
      ensures Leads(t, v, S(AtStart, pos, h), S(AtLen(t.lbits, t.ltree), pos, h))
    {
      hide Leads;
      LeadsNext(t, v, S(AtStart, pos, h));
    }

    lemma {:induction false} StartJoins(pos: nat, h: seq<byte>)
      requires TablesOk(t) && pos <= 8 * bounds.lim && |h| >= WSIZE
      ensures Joined(S(AtStart, pos, h), S(AtLen(t.lbits, t.ltree), pos, h)) && Healthy(t, V(), S(AtLen(t.lbits, t.ltree), pos, h))
    {
      hide *;
      StartLen(t, V(), bounds.lim, pos, h);
      forall size: nat | bounds.lim <= size
        ensures Run(t, V(), size, S(AtStart, pos, h)) == Run(t, V(), size, S(AtLen(t.lbits, t.ltree), pos, h))
      {
        StartLen(t, V(), size, pos, h);
      }
      StartLeads(t, V(), pos, h);
      JoinedAll(S(AtStart, pos, h), S(AtLen(t.lbits, t.ltree), pos, h));
    }

    method DoStart(r0: Regs, rc0: int) returns (r: Regs, rc: int)
      requires Running(r0, rc0, Cur(r0)) && mode == START
      modifies this`bitb, this`bitk, this`next_in, this`avail_in, this`total_in, this`write
      modifies window, this`hist, this`mode, this`need, this`tree, this`from
      ensures Running(r, rc, old(Cur(r0))) && Later(bounds.lim, old(Cur(r0)), Cur(r))
    {
      hide Live, Run, TablesOk, Healthy, Pos, Joined, OnCode, CodeTaken;
      r, rc := r0, rc0;
      if r.m >= 258 && r.n >= 10 {
        Update(r);
        ghost var res;
        rc, res := Fast();
        r := Loaded();
        PosBound(r);
        PlacesBound(r);
        if rc != Z_OK {
          mode := if rc == Z_STREAM_END then WASH else BADCODE;
          FastDone();
          return;
        }
      }
      ToLen(r, rc, old(Cur(r0)));
    }

    method ToLen(r: Regs, ghost rc: int, ghost s0: S)
      requires Live(r) && r.k < 16 && Going(rc, r.n) && TablesOk(t) && mode == START && s0.c == AtStart && s0.pos <= Pos(r)
      requires Joined(s0, S(AtStart, Pos(r), hist))
      modifies this`mode, this`need, this`tree, this`from
      ensures Running(r, rc, s0) && Later(bounds.lim, s0, Cur(r))
    {
      hide Live, Run, TablesOk, Healthy, Pos, Leads, OnCode;
      PosBound(r);
      PlacesBound(r);
      StartJoins(Pos(r), hist);
      JoinedOn(s0, S(AtStart, Pos(r), hist), S(AtLen(t.lbits, t.ltree), Pos(r), hist));
      need := t.lbits;
      tree := t.ltree;
      mode := LEN;
      from := Pos(r);
      OnCodeFirst(t, V(), from, 8 * r.p);
    }

    lemma {:induction false} OnCodeFirst(t: Tables, v: nat, pos: nat, taken: nat)
      requires TablesOk(t)
      ensures OnCode(t, v, pos, t.lbits, t.ltree, pos, taken)
    {
      hide DistsOk, Walk, Shr;
      assert LitLeaf(t, Walk(t.h, t.ltree, t.lbits, Shr(v, pos)));
    }

    lemma {:induction false} FastDone()
      requires |hist| >= WSIZE && (mode == WASH || mode == BADCODE)
      ensures Healthy(t, V(), Cur(Loaded()))
    {
    }

    /** The step that a case has taken, on the run. */
    lemma {:induction false} SteppedRuns(r: Regs, rc: int, s: S)
      requires Stepped(r, rc, s) && TablesOk(t) && Healthy(t, V(), s)
      ensures Running(r, rc, s) && Later(bounds.lim, s, Cur(r))
    {
      hide Live, Run, TablesOk, Healthy, Pos, Leads;
      StepKeeps(t, V(), bounds.lim, s);
      LeadsNext(t, V(), s);
      forall size: nat | bounds.lim <= size ensures Run(t, V(), size, s) == Run(t, V(), size, Cur(r)) {
        StepKeeps(t, V(), size, s);
      }
    }

    lemma {:induction false} LeftFurther(rc: int, s0: S, s: S)
      requires LeftOk(rc, s) && Joined(s0, s)
      ensures LeftOk(rc, s0)
    {
      hide Saved, Rested, Healthy, Run, Leads, Traced;
      LeadsOn(t, V(), s0, s, Cur(Loaded()));
    }

    lemma {:induction false} RunsFurther(r: Regs, rc: int, s0: S, s: S)
      requires Running(r, rc, s) && Joined(s0, s)
      ensures Running(r, rc, s0)
    {
      hide Live, Healthy, TablesOk, Run, Leads, Traced;
      LeadsOn(t, V(), s0, s, Cur(r));
    }

    lemma {:induction false} EndRested(rc: int)
      requires Saved() && bitk < 16 && (mode == END || mode == BADCODE) && (mode == END ==> bitk < 8)
      requires rc == if mode == END then Z_STREAM_END else Z_DATA_ERROR
      requires avail_out > 0 ==> Pending(read, write) == 0
      ensures Rested(rc) && Healthy(t, V(), Cur(Loaded()))
    {
      hide BufOk;
    }

    /** One case of the switch. */
    method Case(r0: Regs, rc0: int, ghost s0: S) returns (left: bool, r: Regs, rc: int)
      requires Running(r0, rc0, s0)
      modifies this`bitb, this`bitk, this`next_in, this`avail_in, this`total_in, this`write, this`read, this`out, this`avail_out, this`total_out
      modifies window, this`hist
      modifies this`mode, this`len, this`need, this`tree, this`lit, this`get, this`dist, this`from, this`base, this`under
      ensures if left then LeftOk(rc, s0) && Slipped(old(base), old(under))
              else Running(r, rc, s0) && Later(bounds.lim, old(Cur(r0)), Cur(r)) && base == old(base) && under == old(under)
      ensures old(Idle(r0)) ==> left && rc == rc0 && Pending(read, write) == 0
    {
      hide Live, Run, TablesOk, Healthy, Pos, Rested, Next, Later, Loaded, LeftOk, Stepped, Joined, Traced, Slipped;
      left, r, rc := false, r0, rc0;
      JoinedSelf(Cur(r0));
      ghost var s := Cur(r);
      match mode {
        case START => r, rc := DoStart(r, rc);
        case LEN => left, r, rc := DoLen(r, rc);
        case LENEXT => left, r, rc := DoLenExt(r, rc);
        case DIST => left, r, rc := DoDist(r, rc);
        case DISTEXT => left, r, rc := DoDistExt(r, rc);
        case COPY => left, r, rc := DoCopy(r, rc);
        case LIT => left, r, rc := DoLit(r, rc);
        case WASH =>
          rc := DoWash(r, rc);
          left := true;
          LeftFurther(rc, s0, s);
          return;
        case END =>
          rc := DoEnd(r, Z_STREAM_END);
          left := true;
        case BADCODE =>
          rc := DoEnd(r, Z_DATA_ERROR);
          left := true;
      }
      if left {
        LeftFurther(rc, s0, s);
        LeftRested(rc, s0);
        NotSlipped(rc);
      } else {
        if s.c != AtStart { SteppedRuns(r, rc, s); }
        RunsFurther(r, rc, s0, s);
      }
    }

    lemma {:induction false} LeftRested(rc: int, s0: S)
      requires LeftOk(rc, s0)
      ensures Saved() && Rested(rc)
    {
      hide Live, Rested, Joined, Healthy, Traced;
    }

    method DoEnd(r: Regs, rc0: int) returns (rc: int)
      requires Live(r) && r.k < 16 && (mode == END || mode == BADCODE) && (mode == END ==> r.k < 8)
      requires rc0 == if mode == END then Z_STREAM_END else Z_DATA_ERROR
      modifies this`bitb, this`bitk, this`next_in, this`avail_in, this`total_in, this`write, this`read, this`out, this`avail_out, this`total_out
      ensures LeftOk(rc, old(Cur(r)))
    {
      hide Live, Run, TablesOk, Healthy, Rested, Loaded, Pos, Leads, Traced;
      JoinedSelf(Cur(r));
      rc := Leave(r, rc0);
      EndRested(rc);
      TracedNot(Loaded());
    }

    /** inflate_codes. What it leaves behind is on the run that it found; what it has delivered is the beginning of what the
        run produces; and it stops only at the end of the run, or for want of input or of output space. */
    method Codes(rc0: int) returns (rc: int)
      requires Running(Loaded(), rc0, Cur(Loaded())) && GoingOn(rc0)
      modifies this`bitb, this`bitk, this`next_in, this`avail_in, this`total_in, this`write, this`read, this`out, this`avail_out, this`total_out
      modifies window, this`hist
      modifies this`mode, this`len, this`need, this`tree, this`lit, this`get, this`dist, this`from, this`base, this`under
      ensures LeftOk(rc, old(Cur(Loaded()))) && Slipped(old(base), old(under))
      ensures var goal := Run(t, V(), bounds.lim, old(Cur(Loaded())));
              hist <= goal.hist && out <= hist[WSIZE..] && total_out == |out|
              && (rc == Z_STREAM_END ==> goal == S(AtWash, Pos(Loaded()), hist) && bitk < 8)
              && (rc == Z_DATA_ERROR <==> mode == BADCODE) && (rc == Z_DATA_ERROR ==> goal == S(AtBad, Pos(Loaded()), hist))
              && (avail_out > 0 ==> goal == Cur(Loaded()) && out == hist[WSIZE..])
      ensures old(Idle(Loaded())) ==> rc == rc0 && Pending(read, write) == 0
    {
      hide Live, Run, TablesOk, Healthy, Pos, Rested, Next, Loaded, LeftOk, Running, Control, Joined, Slipped;
      rc := rc0;
      var r := Loaded();
      ghost var s0, idle := Cur(r), Idle(r);
      var left := false;
      while !left
        invariant if left then LeftOk(rc, s0) && Slipped(old(base), old(under)) else Running(r, rc, s0) && base == old(base) && under == old(under)
        invariant idle ==> rc == rc0 && if left then Pending(read, write) == 0 else Idle(r)
        decreases !left, 8 * bounds.lim - Pos(r), Rank(Control())
      {
        RunningBound(r, rc, s0);
        left, r, rc := Case(r, rc, s0);
      }
      Outcome(rc, s0);
    }

    lemma {:induction false} RunningBound(r: Regs, rc: int, s0: S)
      requires Running(r, rc, s0)
      ensures Pos(r) <= 8 * bounds.lim
    {
      PosBound(r);
    }

    lemma {:induction false} Outcome(rc: int, s0: S)
      requires LeftOk(rc, s0)
      ensures var goal := Run(t, V(), bounds.lim, s0);
              |hist| >= WSIZE && hist <= goal.hist && out <= hist[WSIZE..] && total_out == |out|
              && (rc == Z_STREAM_END ==> goal == S(AtWash, Pos(Loaded()), hist) && bitk < 8)
              && (rc == Z_DATA_ERROR <==> mode == BADCODE) && (rc == Z_DATA_ERROR ==> goal == S(AtBad, Pos(Loaded()), hist))
              && (avail_out > 0 ==> goal == Cur(Loaded()) && out == hist[WSIZE..])
    {
      var s := Cur(Loaded());
      PosBound(Loaded());
      RingBounds(window[..], read, write, hist, out);
      RunGrows(t, V(), bounds.lim, s);
      hide Run, Healthy, Ring, BufOk, Leads, Traced;
      if !Moves(bounds.lim, s) {
        RunRests(t, V(), bounds.lim, s);
      }
    }
  }
}
