/** Reading an entry of a zip file in DuiLib/XUnzip.cpp: unzReadCurrentFile and unzCloseCurrentFile, with inflate below them. */
module Entry {
  import opened Bits
  import opened BitStream
  import opened Crc
  import opened DeflateStream
  import opened InflateSpec
  import opened InflateBlocksSpec
  import opened InflateBlockSteps
  import opened InflateRoundTrip
  import opened SpareByte
  import opened Window
  import opened BitBuffer
  import opened Inflate
  import opened InflateBlocks

  const UNZ_BUFSIZE: nat := 16384
  const UNZ_OK: int := 0
  const UNZ_EOF: int := 0
  const UNZ_ERRNO: int := -1
  const UNZ_CRCERROR: int := -105

  /** How a call ends: with a result; or never, going round without reading or delivering anything; or outside of its memory: in what
      inflate has given back when it ran out of table space, or before read_buffer. */
  datatype Outcome = Returns(r: int) | Spins | Wild

  /** inflate_mode, as far as a stream without header has it; IM_LOST once blocks have been given up for want of table space, and
      IM_ASTRAY once next_in lies before read_buffer with a block still to be read from there. */
  datatype InflateMode = IM_BLOCKS | IM_DONE | IM_BAD | IM_LOST | IM_ASTRAY

  function Octet(b: byte): (r: bv8)
    ensures r as int == b
  {
    OctetBack(b);
    b as bv8
  }

  lemma {:induction false} OctetBack(b: nat)
    requires b < 256
    ensures (b as bv8) as int == b
  {
    var x := OctetOf(b);
    BackAgain(x);
  }

  lemma {:induction false} OctetOf(b: nat) returns (x: bv8)
    requires b < 256
    ensures x as int == b
  {
    if b == 0 {
      x := 0;
    } else {
      x := OctetOf(b - 1);
      NextOctet(x);
      x := x + 1;
    }
  }

  lemma {:induction false} NextOctet(x: bv8)
    ensures x as int < 255 ==> (x + 1) as int == x as int + 1
  {
  }

  lemma {:induction false} BackAgain(x: bv8)
    ensures 0 <= x as int < 256 && (x as int) as bv8 == x
  {
  }

  function Octets(s: seq<byte>): (r: seq<bv8>)
    ensures |r| == |s| && forall i :: 0 <= i < |s| ==> r[i] as int == s[i]
  {
    seq(|s|, i requires 0 <= i < |s| => Octet(s[i]))
  }

  lemma {:induction false} OctetsAppend(a: seq<byte>, b: seq<byte>)
    ensures Octets(a + b) == Octets(a) + Octets(b)
  {
  }

  /** The start of a stream of blocks. */
  ghost function Begin(): State
  {
    State(IsType, false, 0, Blank())
  }

  /** What compressed data decode to, and how they end. */
  ghost function Verdict(data: seq<byte>): Finish
  {
    FromState(Input(BytesVal(data), |data|), Begin())
  }

  /** The bytes they decode to. */
  ghost function Decoded(data: seq<byte>): seq<byte>
  {
    DecodedSize(data);
    Verdict(data).hist[WSIZE..]
  }

  lemma {:induction false} DecodedSize(data: seq<byte>)
    ensures |Verdict(data).hist| >= WSIZE
  {
    StateGrows(Input(BytesVal(data), |data|), Begin());
    hide FromState;
  }

  /** Data that begin with encoded blocks decode to a part of the expansion; to all of it, if all bits that are looked at are
      there, and for that eight bits more than the encoding are enough. */
  lemma {:induction false} DecodedEncoding(data: seq<byte>, bs: seq<Block>)
    requires bs != [] && BlocksOk([], bs) && Begins(BytesVal(data), StreamBits(0, [], bs)) && (forall b :: b in bs ==> Strict(b))
    ensures Decoded(data) <= ExpandBlocks([], bs) && (Verdict(data).Ended? || Verdict(data).Starved?)
    ensures StreamLook(BytesVal(data), 0, [], bs) <= 8 * |data| ==> Decoded(data) == ExpandBlocks([], bs) && Verdict(data).Ended?
    ensures |StreamBits(0, [], bs)| + 8 <= 8 * |data| ==> StreamLook(BytesVal(data), 0, [], bs) <= 8 * |data|
  {
    hide BlocksOk, StreamBits, ExpandBlocks, BytesVal, FromType, Strict, Begins, StreamLook, Blank;
    var v := BytesVal(data);
    assert Shr(v, 0) == v by { LowNone(v); }
    assert |Blank()| == WSIZE by { BlankLong(); }
    assert Blank() + [] == Blank();
    StreamBackHere(Input(v, |data|), 0, Blank(), [], bs);
    StreamClose(v, 0, [], bs);
    DecodedSize(data);
    var h, e := Verdict(data).hist, ExpandBlocks([], bs);
    if h == Blank() + e { assert h[WSIZE..] == e; }
  }

  function Sum(lens: seq<nat>): nat
  {
    if lens == [] then 0 else Sum(lens[..|lens| - 1]) + lens[|lens| - 1]
  }

  function SumTo(lens: seq<nat>, i: nat): nat
    requires i <= |lens|
  {
    Sum(lens[..i])
  }

  lemma {:induction false} SumEnds(lens: seq<nat>)
    ensures SumTo(lens, 0) == 0 && SumTo(lens, |lens|) == Sum(lens)
  {
    assert lens[..|lens|] == lens;
  }

  lemma {:induction false} SumNext(lens: seq<nat>, i: nat)
    requires i < |lens|
    ensures SumTo(lens, i + 1) == SumTo(lens, i) + lens[i]
  {
    assert lens[..i + 1][..i] == lens[..i];
  }

  /** Where the last piece begins, when n bytes have been read piece by piece. */
  function PieceStart(n: nat): nat
  {
    if n == 0 then 0 else (n - 1) / UNZ_BUFSIZE * UNZ_BUFSIZE
  }

  lemma {:induction false} NextPiece(n: nat, x: nat)
    requires n % UNZ_BUFSIZE == 0 && 0 < x <= UNZ_BUFSIZE
    ensures PieceStart(n + x) == n && (x == UNZ_BUFSIZE ==> (n + x) % UNZ_BUFSIZE == 0)
  {
  }

  /** How many calls have been made by the time when one has met a fault of the data, that one included; or all. */
  function Met(faults: seq<bool>): nat
  {
    if faults == [] then 0 else if faults[0] then 1 else 1 + Met(faults[1..])
  }

  lemma {:induction false} MetOneMore(faults: seq<bool>, b: bool)
    ensures Met(faults) <= |faults| && (true !in faults ==> Met(faults) == |faults|)
    ensures Met(faults + [b]) == if true in faults then Met(faults) else |faults| + 1
  {
    if faults != [] {
      MetOneMore(faults[1..], b);
      assert (faults + [b])[1..] == faults[1..] + [b];
      assert faults == [faults[0]] + faults[1..];
    }
  }

  lemma {:induction false} SumUp(lens: seq<nat>, i: nat)
    requires i <= |lens|
    ensures SumTo(lens, i) <= Sum(lens)
    decreases |lens| - i
  {
    if i < |lens| {
      SumNext(lens, i);
      SumUp(lens, i + 1);
    } else {
      SumEnds(lens);
    }
  }

  /** file_in_zip_read_info_s; for an entry of compressed size csize at offset start of the file. */
  class Reader {
    const file: seq<byte>
    const byte_before_the_zipfile: nat
    const compression_method: nat
    const crc32_wait: bv32
    var pos_in_zipfile: nat
    var rest_read_compressed: nat
    var rest_read_uncompressed: nat
    var crc32: bv32

    // the stream of a stored entry
    var read_buffer: seq<byte>
    var next_in: nat
    var avail_in: nat
    var total_out: nat

    // the stream of a deflated entry: the state of its blocks, and inflate's own mode
    const z: Blocks
    var im: InflateMode

    ghost const start: nat
    ghost const csize: nat
    ghost const usize: nat
    /** Everything delivered so far. */
    ghost var delivered: seq<byte>

    /** The compressed bytes that the file holds. */
    ghost function Data(): seq<byte>
      requires start <= |file|
    {
      file[start..Least(start + csize, |file|)]
    }

    /** The counters agree with what has been delivered. */
    ghost predicate Counts()
      reads this`pos_in_zipfile, this`rest_read_compressed, this`rest_read_uncompressed, this`crc32, this`delivered
    {
      |delivered| + rest_read_uncompressed == usize && crc32 == Crc32(0, Octets(delivered))
      && rest_read_compressed <= csize && pos_in_zipfile + byte_before_the_zipfile == start + (csize - rest_read_compressed)
      && start + (csize - rest_read_compressed) <= |file|
    }

    /** A stored entry: what has been delivered, then what is in the buffer, is the entry up to where it has been read. */
    ghost predicate Stored()
      reads this
    {
      rest_read_compressed <= csize && start + (csize - rest_read_compressed) <= |file|
      && next_in + avail_in <= |read_buffer| && total_out == |delivered|
      && delivered + read_buffer[next_in..next_in + avail_in] == file[start..start + (csize - rest_read_compressed)]
    }

    /** A deflated entry: the blocks are where the data read so far have taken them. */
    ghost predicate Flow()
      reads this, z, z.s, z.s.window, z.hufts
    {
      start <= |file| && rest_read_compressed <= csize && start + (csize - rest_read_compressed) <= |file| && z.s.input == Data()
      && z.s.bounds.lim == csize - rest_read_compressed
      && (im != IM_LOST && im != IM_ASTRAY ==>
            z.Fit(z.s.Loaded()) && Same(BytesVal(Data()), z.s.bounds.lim, Begin(), z.At(z.s.Loaded()))
            && z.s.next_in + z.s.avail_in == z.s.bounds.lim)
      && (im == IM_BLOCKS ==> (z.Caught() || z.Calm()) && InPiece())
      && (csize <= UNZ_BUFSIZE ==> im != IM_ASTRAY && (im == IM_BLOCKS ==> InFirst()))
      && (im == IM_DONE ==> Verdict(Data()).Ended? && z.s.out == Decoded(Data()))
      && (im == IM_BAD ==> Verdict(Data()).Faulty?)
      && (im == IM_LOST ==> Verdict(Data()).NoSpace? && z.s.out <= Decoded(Data()))
    }

    /** The file is read piece by piece, and read_buffer holds the last one. */
    ghost predicate InPiece()
      reads this, z, z.s
    {
      PieceAt(z.Where(), z.s.bounds.lim)
    }

    ghost predicate PieceAt(p: Place, lim: nat)
      reads this`rest_read_compressed
    {
      (rest_read_compressed == 0 || lim % UNZ_BUFSIZE == 0) && (!p.under ==> p.base == PieceStart(lim))
    }

    /** All is still in the first piece of the file. */
    ghost predicate InFirst()
      reads this, z, z.s
    {
      z.Where() == Place(0, false, false) && (rest_read_compressed == 0 || rest_read_compressed == csize)
    }

    /** Between two calls of inflate, or before the first one. */
    ghost predicate Paused()
      reads this, z, z.s
    {
      im == IM_BLOCKS ==> z.Hungry() || z.Choked()
    }

    /** What inflate has put out has been delivered. */
    ghost predicate Given()
      reads this`im, this`delivered, z.s`out
    {
      if im == IM_ASTRAY then start <= |file| && delivered <= Decoded(Data()) else z.s.out == delivered
    }

    ghost predicate Ok()
      reads this, z, z.s, z.s.window, z.hufts
    {
      Counts() && if compression_method == 0 then Stored() else Flow() && Given() && Paused()
    }

    /** When inflate goes on, WASH will step to before read_buffer, in a block that is not the last one: the end of the block at hand lies
        a byte or more before the piece of the file that is in read_buffer, or that comes next, if all of this one is taken. */
    ghost predicate Doomed()
      reads this, z, z.s
    {
      im == IM_BLOCKS && if z.s.avail_in == 0 && rest_read_compressed > 0 then z.EndsEarly() else z.Caught()
    }

    /** unzOpenCurrentFile, from where the local header has been checked on; the state of inflate is made in any case here. */
    constructor (file: seq<byte>, before: nat, pos: nat, csize: nat, usize: nat, crc: bv32, compression: nat)
      requires pos + before <= |file|
      ensures Ok() && delivered == [] && this.file == file && start == pos + before && this.csize == csize && this.usize == usize
      ensures crc32_wait == crc && compression_method == compression && im == IM_BLOCKS && !Doomed() && Left() == csize
      ensures fresh(z) && fresh(z.s) && fresh(z.s.window) && fresh(z.hufts)
    {
      hide Crc32, Same, FromState, Blocks.Fit, Blocks.At, Verdict, Decoded, Blank, Blocks.Hungry;
      var at := pos + before;
      var space := new HuftSpec.Huft[HuftBuild.MANY](_ => HuftSpec.Huft(0, 0, 0));
      var blocks := new Blocks(file[at..Least(at + csize, |file|)], space);
      this.file, byte_before_the_zipfile, compression_method, crc32_wait := file, before, compression, crc;
      pos_in_zipfile, rest_read_compressed, rest_read_uncompressed := pos, csize, usize;
      crc32, read_buffer, next_in, avail_in, total_out := 0, [], 0, 0, 0;
      z, im := blocks, IM_BLOCKS;
      start, this.csize, this.usize, delivered := pos + before, csize, usize, [];
      new;
      CrcNone();
      SameSelf(BytesVal(Data()), 0, Begin());
    }

    lemma {:induction false} CrcNone()
      ensures Crc32(0, Octets([])) == 0
    {
      NotTwice(0);
      hide Not;
    }

    // ---------------------------------------------------------------- inflate

    lemma {:induction false} DataSize()
      requires Flow()
      ensures z.s.bounds.lim <= |Data()| && (rest_read_compressed == 0 ==> |Data()| == z.s.bounds.lim)
    {
      hide Same;
    }

    /** What has been put out is the beginning of what the data decode to, however many of them are seen. */
    lemma {:induction false} OutPrefix(size: nat)
      requires Flow() && im != IM_LOST && im != IM_ASTRAY && size >= z.s.bounds.lim
      ensures var f := FromState(Input(BytesVal(Data()), size), Begin()); |f.hist| >= WSIZE && z.s.out <= f.hist[WSIZE..]
    {
      hide Same, FromState, Blocks.Fit, Blocks.At, Blocks.Caught, Blocks.Calm, Verdict, Decoded, InFirst;
      z.FitSaved();
      z.RingOut();
      hide Inflater.Saved, Pending;
      SameAt(BytesVal(Data()), z.s.bounds.lim, Begin(), z.At(z.s.Loaded()), size);
      StateGrows(Input(BytesVal(Data()), size), z.At(z.s.Loaded()));
      z.AtHist(z.s.Loaded());
    }

    lemma {:induction false} OutDecoded()
      requires Flow() && im != IM_ASTRAY
      ensures z.s.out <= Decoded(Data())
    {
      hide Same, FromState, Blocks.Fit, Blocks.At, Blocks.Caught, Blocks.Calm;
      DataSize();
      if im != IM_LOST { OutPrefix(|Data()|); }
    }

    lemma {:induction false} DeliveredIn()
      requires Flow() && Given()
      ensures delivered <= Decoded(Data())
    {
      if im != IM_ASTRAY { OutDecoded(); }
      hide Flow, Decoded;
    }

    /** How a call of inflate has ended; out0 and in0 are what was put out and what input there was before. */
    ghost predicate Inflated(err: int, im0: InflateMode, out0: seq<byte>, in0: nat, room0: nat, stuck0: bool)
      reads this, z, z.s, z.s.window, z.hufts
    {
      Flow() && Paused() && out0 <= z.s.out && |z.s.out| + z.s.avail_out == |out0| + room0
      && (err == Z_OK ==> im == IM_BLOCKS && !stuck0 && (z.s.avail_out > 0 ==> z.s.avail_in == 0 && z.Stuck(z.s.Loaded())))
      && (err == Z_STREAM_END ==> im == IM_DONE)
      && (err == Z_DATA_ERROR ==> im == IM_BAD && (im0 != IM_BAD && z.s.avail_out > 0 ==> z.s.out == Decoded(Data())))
      && (im0 == IM_BAD ==> err == Z_DATA_ERROR && z.s.out == out0)
      && (err == Z_MEM_ERROR ==> im == IM_LOST)
      && (err == Z_BUF_ERROR ==> im == IM_BLOCKS && (z.s.avail_out > 0 ==> in0 == 0 && z.s.out == Upto(z.s.bounds.lim)))
      && (err == Z_OK || err == Z_STREAM_END || err == Z_DATA_ERROR || err == Z_MEM_ERROR || err == Z_BUF_ERROR)
    }

    /** Whether WASH has stepped to before read_buffer in the call; caught0 tells that it was going to. */
    ghost predicate Fared(im0: InflateMode, caught0: bool)
      reads this, z, z.s
    {
      (im == IM_ASTRAY ==> im0 == IM_BLOCKS && caught0) && (im0 != IM_BLOCKS ==> im == im0)
      && (im0 == IM_BLOCKS && caught0 ==> im == IM_ASTRAY || (im == IM_BLOCKS && z.Caught() && z.s.avail_out == 0))
      && (im0 == IM_BLOCKS && !caught0 && im == IM_BLOCKS ==> z.Calm() && !z.Caught())
    }

    /** What the first bytes of the data decode to. */
    ghost function Upto(size: nat): seq<byte>
      requires start <= |file|
    {
      StateGrows(Input(BytesVal(Data()), size), Begin());
      FromState(Input(BytesVal(Data()), size), Begin()).hist[WSIZE..]
    }

    /** inflate, on a stream without a header. */
    method Inflate() returns (err: int)
      requires Flow() && im != IM_LOST && im != IM_ASTRAY
      requires z.s.bounds.offered == z.s.avail_in && z.s.bounds.budget == |z.s.out| + z.s.avail_out
      modifies this`im, z, z.s, z.s.window, z.hufts
      ensures if im == IM_ASTRAY then Flow()
              else Inflated(err, old(im), old(z.s.out), old(z.s.avail_in), old(z.s.avail_out), old(z.Stuck(z.s.Loaded())))
      ensures Fared(old(im), old(z.Caught()))
    {
      hide Same, FromState, Blocks.Fit, Blocks.At, Blocks.Stuck, Verdict, Decoded, Blocks.Hungry, Blocks.Choked, Blocks.Caught, Blocks.Calm, Fared, InFirst;
      if im == IM_DONE || im == IM_BAD { NotFared(im); }
      if im == IM_DONE { return Z_STREAM_END; }
      if im == IM_BAD { return Z_DATA_ERROR; }
      err := InflateBlocks();
    }

    /** The same while there are blocks to read. */
    method InflateBlocks() returns (err: int)
      requires Flow() && im == IM_BLOCKS && z.s.bounds.offered == z.s.avail_in && z.s.bounds.budget == |z.s.out| + z.s.avail_out
      modifies this`im, z, z.s, z.s.window, z.hufts
      ensures if im == IM_ASTRAY then Flow()
              else Inflated(err, IM_BLOCKS, old(z.s.out), old(z.s.avail_in), old(z.s.avail_out), old(z.Stuck(z.s.Loaded())))
      ensures Fared(IM_BLOCKS, old(z.Caught()))
    {
      hide Same, FromState, Blocks.Fit, Blocks.At, Blocks.LeftOk, Blocks.Stuck, Verdict, Decoded, Blocks.Hungry, Blocks.Choked, Blocks.Caught,
           Blocks.Calm, Turns, Fared, Inflated, InPiece, PieceStart, InFirst;
      ghost var bd, a, out0, in0, stuck0, p := z.s.bounds, z.At(z.s.Loaded()), z.s.out, z.s.avail_in, z.Stuck(z.s.Loaded()), z.Where();
      OutPrefix(bd.lim);
      DataSize();
      PlaceNow(p, a);
      err := z.Proceed(Z_BUF_ERROR);
      im := if z.astray then IM_ASTRAY
            else if err == Z_DATA_ERROR then IM_BAD
            else if err == Z_STREAM_END then IM_DONE
            else if err == Z_MEM_ERROR then IM_LOST
            else im;
      AfterProceed(err, bd, p, a, out0, in0, stuck0);
    }

    lemma {:induction false} AfterProceed(err: int, bd: Bounds, p: Place, a: State, out0: seq<byte>, in0: nat, stuck0: bool)
      requires start <= |file| && rest_read_compressed <= csize && start + (csize - rest_read_compressed) <= |file| && z.s.input == Data()
      requires bd.lim == csize - rest_read_compressed && bd.offered == in0 && |out0| <= bd.budget
      requires z.LeftOk(err, bd, a) && Same(BytesVal(Data()), bd.lim, Begin(), a)
      requires var f := FromState(Input(BytesVal(Data()), bd.lim), Begin()); |f.hist| >= WSIZE && out0 <= f.hist[WSIZE..]
      requires var v := BytesVal(Data());
               (CaughtAt(v, p, a) || CalmAt(v, p, a)) && Turns(v, p, a, z.Where(), z.At(z.s.Loaded()), err == Z_MEM_ERROR)
      requires PieceAt(p, bd.lim)
      requires csize <= UNZ_BUFSIZE ==> p == Place(0, false, false) && (rest_read_compressed == 0 || rest_read_compressed == csize)
      requires im == if z.astray then IM_ASTRAY
                     else if err == Z_DATA_ERROR then IM_BAD
                     else if err == Z_STREAM_END then IM_DONE
                     else if err == Z_MEM_ERROR then IM_LOST
                     else IM_BLOCKS
      requires stuck0 ==> err == Z_BUF_ERROR
      ensures if im == IM_ASTRAY then Flow() else Inflated(err, IM_BLOCKS, out0, in0, bd.budget - |out0|, stuck0)
      ensures Fared(IM_BLOCKS, CaughtAt(BytesVal(Data()), p, a))
    {
      hide Same, FromState, Blocks.Fit, Blocks.At, Blocks.LeftOk, Blocks.Stuck, Verdict, Decoded, Blocks.Hungry, Blocks.Choked, Blocks.Caught,
           Blocks.Calm, Turns, Fared, Inflated, InPiece, PieceAt, InFirst, CaughtAt, CalmAt;
      z.LeftFurther(err, bd, Begin(), a);
      z.LeftBounds(err, bd, Begin());
      AfterTurn(err, bd, p, a);
      if im != IM_ASTRAY {
        z.Delivered(err, bd, Begin());
        Grown(out0, z.s.out, FromState(Input(BytesVal(Data()), bd.lim), Begin()), bd.budget);
        AfterCall(err, bd, out0, in0, stuck0);
      }
    }

    lemma {:induction false} NotFared(im0: InflateMode)
      requires im == im0 && (im == IM_DONE || im == IM_BAD)
      ensures Fared(im0, z.Caught())
    {
      hide Blocks.Caught, Blocks.Calm;
    }

    lemma {:induction false} PlaceNow(p: Place, a: State)
      requires start <= |file| && p == z.Where() && a == z.At(z.s.Loaded()) && z.s.input == Data()
      ensures z.Caught() == CaughtAt(BytesVal(Data()), p, a) && z.Calm() == CalmAt(BytesVal(Data()), p, a)
      ensures InPiece() ==> PieceAt(p, z.s.bounds.lim)
      ensures InFirst() ==> p == Place(0, false, false) && (rest_read_compressed == 0 || rest_read_compressed == csize)
    {
      hide CaughtAt, CalmAt, Blocks.At, PieceStart;
    }

    lemma {:induction false} AfterTurn(err: int, bd: Bounds, p: Place, a: State)
      requires start <= |file| && z.s.input == Data()
      requires var v := BytesVal(Data());
               (CaughtAt(v, p, a) || CalmAt(v, p, a)) && Turns(v, p, a, z.Where(), z.At(z.s.Loaded()), err == Z_MEM_ERROR)
      requires z.LeftOk(err, bd, Begin())
      requires im == if z.astray then IM_ASTRAY
                     else if err == Z_DATA_ERROR then IM_BAD
                     else if err == Z_STREAM_END then IM_DONE
                     else if err == Z_MEM_ERROR then IM_LOST
                     else IM_BLOCKS
      ensures Fared(IM_BLOCKS, CaughtAt(BytesVal(Data()), p, a)) && (im == IM_BLOCKS ==> z.Caught() || z.Calm())
      ensures p == Place(0, false, false) ==>
                im != IM_ASTRAY && (rest_read_compressed == 0 || rest_read_compressed == csize ==> InFirst())
      ensures PieceAt(p, bd.lim) ==> InPiece()
    {
      NotBoth(BytesVal(Data()), p, a);
      NotBoth(BytesVal(Data()), z.Where(), z.At(z.s.Loaded()));
      z.LeftBounds(err, bd, Begin());
      hide CaughtAt, CalmAt, Blocks.At, Blocks.LeftOk, Blocks.Fit, Same, Pos, PieceStart;
      if z.Caught() && err != Z_MEM_ERROR { z.CaughtWaits(err, bd, Begin()); }
    }

    lemma {:induction false} Grown(a: seq<byte>, b: seq<byte>, f: Finish, n: nat)
      requires |f.hist| >= WSIZE && a <= f.hist[WSIZE..] && |a| <= n && b == f.hist[WSIZE..][..Least(n, |f.hist| - WSIZE)]
      ensures a <= b
    {
    }

    lemma {:induction false} AfterCall(err: int, bd: Bounds, out0: seq<byte>, in0: nat, stuck0: bool)
      requires start <= |file| && rest_read_compressed <= csize && start + (csize - rest_read_compressed) <= |file| && z.s.input == Data()
      requires z.LeftOk(err, bd, Begin()) && bd.lim == csize - rest_read_compressed == z.s.bounds.lim && bd == z.s.bounds
      requires bd.offered == in0 && out0 <= z.s.out && |z.s.out| + z.s.avail_out == bd.budget
      requires (im == IM_BLOCKS ==> (z.Caught() || z.Calm()) && InPiece()) && (csize <= UNZ_BUFSIZE ==> InFirst())
      requires im == if err == Z_DATA_ERROR then IM_BAD else if err == Z_STREAM_END then IM_DONE else if err == Z_MEM_ERROR then IM_LOST else IM_BLOCKS
      requires stuck0 ==> err == Z_BUF_ERROR
      ensures Inflated(err, IM_BLOCKS, out0, in0, bd.budget - |out0|, stuck0)
    {
      hide Same, FromState, Blocks.Fit, Blocks.At, Blocks.LeftOk, Blocks.Stuck, Verdict, Decoded, Blocks.Hungry, Blocks.Choked, Blocks.Caught,
           Blocks.Calm, InFirst, InPiece;
      z.Delivered(err, bd, Begin());
      z.LeftBounds(err, bd, Begin());
      if err == Z_MEM_ERROR {
        AfterMem(bd);
      } else {
        z.StillOn(err, bd, Begin());
        if GoingOn(err) { z.WhyStopped(err, bd, Begin()); }
        if err == Z_STREAM_END || err == Z_DATA_ERROR {
          AfterEnd(err, bd);
          if z.s.avail_out > 0 { AllUpto(z.s.out, FromState(Input(BytesVal(Data()), bd.lim), Begin()), bd.budget, z.s.avail_out); }
        } else if z.s.avail_out > 0 {
          z.StuckAfter(err, bd, Begin());
          AllUpto(z.s.out, FromState(Input(BytesVal(Data()), bd.lim), Begin()), bd.budget, z.s.avail_out);
        }
      }
    }

    lemma {:induction false} AllUpto(out: seq<byte>, f: Finish, budget: nat, room: nat)
      requires |f.hist| >= WSIZE && out == f.hist[WSIZE..][..Least(budget, |f.hist| - WSIZE)] && |out| + room == budget && room > 0
      ensures out == f.hist[WSIZE..]
    {
    }

    lemma {:induction false} AfterMem(bd: Bounds)
      requires start <= |file| && bd.lim <= |Data()| && z.s.input == Data() && z.LeftOk(Z_MEM_ERROR, bd, Begin())
      ensures Verdict(Data()).NoSpace? && z.s.out <= Decoded(Data())
    {
      hide Same, FromState, Blocks.Fit, Blocks.At, Blocks.LeftOk, Surely, Pos;
      z.MemSurely(bd, Begin());
      SurelyFor(BytesVal(Data()), bd.lim, Begin(), NoSpace(Pos(z.s.Loaded()), z.s.hist), |Data()|);
    }

    lemma {:induction false} AfterEnd(err: int, bd: Bounds)
      requires start <= |file| && bd.lim <= |Data()| && z.s.input == Data() && z.LeftOk(err, bd, Begin()) && (err == Z_STREAM_END || err == Z_DATA_ERROR)
      ensures if err == Z_STREAM_END then Verdict(Data()).Ended? && z.s.out == Decoded(Data())
              else Verdict(Data()).Faulty? && |Verdict(Data()).hist| >= WSIZE
                   && Decoded(Data()) == FromState(Input(BytesVal(Data()), bd.lim), Begin()).hist[WSIZE..]
    {
      hide Same, FromState, Blocks.Fit, Blocks.At, Blocks.LeftOk, Surely, Pos;
      DecodedSize(Data());
      z.Settled(err, bd, Begin());
      z.StillOn(err, bd, Begin());
      z.LeftBounds(err, bd, Begin());
      SameAt(BytesVal(Data()), bd.lim, Begin(), z.At(z.s.Loaded()), |Data()|);
      SameAt(BytesVal(Data()), bd.lim, Begin(), z.At(z.s.Loaded()), bd.lim);
      var end := if err == Z_STREAM_END then Ended(Pos(z.s.Loaded()), z.s.hist) else Faulty(Pos(z.s.Loaded()), z.s.hist);
      SurelyFor(BytesVal(Data()), bd.lim, z.At(z.s.Loaded()), end, |Data()|);
      SurelyFor(BytesVal(Data()), bd.lim, z.At(z.s.Loaded()), end, bd.lim);
    }

    // ---------------------------------------------------------------- both kinds of entries

    /** What a new piece of the file has to be. */
    ghost function Piece(): nat
      reads this
    {
      Least(UNZ_BUFSIZE, rest_read_compressed)
    }

    /** Bytes have gone to the caller: the counters. */
    method Account(bytes: seq<byte>)
      requires Counts() && |bytes| <= rest_read_uncompressed
      modifies this`crc32, this`rest_read_uncompressed, this`delivered
      ensures Counts() && delivered == old(delivered) + bytes && rest_read_uncompressed == old(rest_read_uncompressed) - |bytes|
    {
      OctetsAppend(delivered, bytes);
      CrcAppend(0, Octets(delivered), Octets(bytes));
      hide Crc32, Octets;
      crc32 := Ucrc32(crc32, Buf(Octets(bytes)));
      delivered := delivered + bytes;
      rest_read_uncompressed := rest_read_uncompressed - |bytes|;
    }

    // ---------------------------------------------------------------- stored entries

    /** A new piece of the file is read when the buffer is used up. */
    method Refill() returns (ok: bool)
      requires Counts() && Stored() && avail_in == 0 && rest_read_compressed > 0
      modifies this`pos_in_zipfile, this`rest_read_compressed, this`next_in, this`avail_in, this`read_buffer
      ensures Counts() && Stored() && avail_in + rest_read_compressed == old(rest_read_compressed)
      ensures ok <==> start + (csize - old(rest_read_compressed)) + old(Piece()) <= |file|
      ensures if ok then avail_in > 0 else avail_in == 0 && rest_read_compressed == old(rest_read_compressed)
    {
      hide Crc32, Octets;
      var uReadThis := UNZ_BUFSIZE;
      if rest_read_compressed < uReadThis { uReadThis := rest_read_compressed; }
      var at := pos_in_zipfile + byte_before_the_zipfile;
      if at + uReadThis > |file| { return false; }
      SliceOn(file, start, at, at + uReadThis);
      read_buffer := file[at..at + uReadThis];
      pos_in_zipfile := pos_in_zipfile + uReadThis;
      rest_read_compressed := rest_read_compressed - uReadThis;
      next_in := 0;
      avail_in := uReadThis;
      ok := true;
    }

    lemma {:induction false} SliceOn(f: seq<byte>, a: nat, b: nat, c: nat)
      requires a <= b <= c <= |f|
      ensures f[a..b] + f[b..c] == f[a..c] && |f[b..c]| == c - b && f[b..c][0..c - b] == f[b..c]
    {
    }

    lemma {:induction false} Pieces(b: seq<byte>, at: nat, used: nat, avail: nat)
      requires used <= avail && at + avail <= |b|
      ensures b[at..at + avail] == b[at..at + used] + b[at + used..at + avail]
    {
    }

    /** Bytes go from the buffer to what has been delivered. */
    lemma {:induction false} Moved(done: seq<byte>, b: seq<byte>, at: nat, used: nat, avail: nat, all: seq<byte>)
      requires used <= avail && at + avail <= |b| && done + b[at..at + avail] == all
      ensures (done + b[at..at + used]) + b[at + used..at + used + (avail - used)] == all
    {
      Pieces(b, at, used, avail);
      var rest := b[at + used..at + avail];
      assert (done + b[at..at + used]) + rest == done + (b[at..at + used] + rest);
    }

    /** Bytes are copied to the caller. */
    method Copy(n: nat) returns (bytes: seq<byte>)
      requires Counts() && Stored() && n <= avail_in && n <= rest_read_uncompressed
      modifies this`crc32, this`rest_read_uncompressed, this`delivered, this`avail_in, this`next_in, this`total_out
      ensures Counts() && Stored() && |bytes| == n && delivered == old(delivered) + bytes
      ensures avail_in == old(avail_in) - n && rest_read_uncompressed == old(rest_read_uncompressed) - n
    {
      hide Crc32, Octets;
      Moved(delivered, read_buffer, next_in, n, avail_in, file[start..start + (csize - rest_read_compressed)]);
      bytes := read_buffer[next_in..next_in + n];
      Account(bytes);
      avail_in := avail_in - n;
      next_in := next_in + n;
      total_out := total_out + n;
    }

    /** Compressed bytes not yet used. */
    ghost function Left(): nat
      reads this
    {
      avail_in + rest_read_compressed
    }

    /** The loop of unzReadCurrentFile for a stored entry. */
    method ReadStored(want: nat) returns (out: Outcome, buf: seq<byte>)
      requires Counts() && Stored() && 0 < want <= rest_read_uncompressed
      modifies this`pos_in_zipfile, this`rest_read_compressed, this`next_in, this`avail_in, this`read_buffer
      modifies this`crc32, this`rest_read_uncompressed, this`delivered, this`total_out
      ensures Counts() && Stored() && delivered == old(delivered) + buf && |buf| <= want
      ensures out == Returns(|buf|) || out == Returns(UNZ_ERRNO) || out.Spins?
      ensures out == Returns(|buf|) ==> |buf| == want
      ensures out.Spins? ==> |buf| < want && Left() == 0 && |buf| == old(Left())
      ensures start + csize <= |file| ==> (out.Spins? <==> old(Left()) < want) && out != Returns(UNZ_ERRNO)
    {
      hide Counts, Stored;
      buf := [];
      var avail_out := want;
      while avail_out > 0
        invariant Counts() && Stored() && delivered == old(delivered) + buf && avail_out + |buf| == want
        invariant 0 <= avail_out <= rest_read_uncompressed && Left() + |buf| == old(Left())
        decreases avail_out, rest_read_compressed
      {
        Bounded();
        if avail_in == 0 && rest_read_compressed > 0 {
          var ok := Refill();
          if !ok { return Returns(UNZ_ERRNO), buf; }
        }
        var uDoCopy := Least(avail_out, avail_in);
        if uDoCopy == 0 { return Spins, buf; }  // nothing will change from here on
        var bytes := Copy(uDoCopy);
        buf := buf + bytes;
        avail_out := avail_out - uDoCopy;
      }
      out := Returns(|buf|);
    }

    lemma {:induction false} Bounded()
      requires Counts()
      ensures rest_read_compressed <= csize && start + (csize - rest_read_compressed) <= |file|
    {
      hide Crc32, Octets;
    }

    // ---------------------------------------------------------------- deflated entries

    /** A new piece of the file is read when the input of inflate is used up. */
    method RefillDeflated() returns (ok: bool)
      requires Counts() && Flow() && Paused() && z.s.avail_in == 0 && rest_read_compressed > 0 && im != IM_LOST && im != IM_ASTRAY
      modifies this`pos_in_zipfile, this`rest_read_compressed, z.s`avail_in, z.s`bounds, z.s`base, z.s`under
      ensures Counts() && Flow() && rest_read_compressed <= old(rest_read_compressed)
      ensures ok <==> start + (csize - old(rest_read_compressed)) + old(Piece()) <= |file|
      ensures ok ==> z.s.avail_in > 0 && rest_read_compressed < old(rest_read_compressed) && (im == IM_BLOCKS ==> (z.Caught() <==> old(Doomed())))
      ensures !ok ==> Paused() && Doomed() == old(Doomed())
    {
      hide Crc32, Octets, Same, Blocks.Fit, Blocks.At, Verdict, Decoded, FromState, Blocks.Stuck, Blocks.Caught, Blocks.Calm, Blocks.Hungry,
           Blocks.Choked, Blocks.EndsEarly, PieceStart;
      var uReadThis := UNZ_BUFSIZE;
      if rest_read_compressed < uReadThis { uReadThis := rest_read_compressed; }
      var at := pos_in_zipfile + byte_before_the_zipfile;
      if at + uReadThis > |file| { return false; }
      if im == IM_BLOCKS { NotAstray(); }
      pos_in_zipfile := pos_in_zipfile + uReadThis;
      rest_read_compressed := rest_read_compressed - uReadThis;
      ghost var lim := z.s.bounds.lim;
      if im == IM_BLOCKS { NextPiece(lim, uReadThis); }
      z.Renew(uReadThis);
      SameLater(BytesVal(Data()), lim, z.s.bounds.lim, Begin(), z.At(z.s.Loaded()));
      ok := true;
    }

    lemma {:induction false} NotAstray()
      requires Flow() && im == IM_BLOCKS
      ensures !z.astray
    {
      hide Same, Blocks.Fit, Blocks.At, EndsBack, Past;
    }

    /** One call of inflate and what is done with its output. */
    method InflateOn(room: nat) returns (err: int, bytes: seq<byte>)
      requires Counts() && Flow() && z.s.out == delivered && im != IM_LOST && im != IM_ASTRAY && room <= rest_read_uncompressed
      modifies this`im, this`crc32, this`rest_read_uncompressed, this`delivered, z, z.s, z.s.window, z.hufts
      ensures Counts() && Flow() && Given() && delivered == old(delivered) + bytes && |bytes| <= room
      ensures rest_read_uncompressed == old(rest_read_uncompressed) - |bytes|
      ensures if im == IM_ASTRAY then bytes == []
              else Paused() && Called(err, bytes, room, old(im), old(z.s.avail_in), old(z.Stuck(z.s.Loaded())))
      ensures Fared(old(im), old(z.Caught())) && (old(im) == IM_BLOCKS && old(z.Caught()) && im != IM_ASTRAY ==> |bytes| == room)
    {
      hide Crc32, Octets, Same, Blocks.Fit, Blocks.At, Verdict, Decoded, FromState, Blocks.Stuck, Upto, Blocks.Hungry, Blocks.Choked,
           CaughtAt, CalmAt, Counts;
      OutDecoded();
      z.Supply(0, room);
      ghost var out0, in0, stuck0 := z.s.out, z.s.avail_in, z.Stuck(z.s.Loaded());
      var n := |z.s.out|;
      err := Inflate();
      if im == IM_ASTRAY { return err, []; }
      bytes := z.s.out[n..];
      Tail(out0, z.s.out);
      Account(bytes);
    }

    /** What a call of inflate on room for so many bytes says. */
    ghost predicate Called(err: int, bytes: seq<byte>, room: nat, im0: InflateMode, in0: nat, stuck0: bool)
      reads this, z, z.s, z.s.window, z.hufts
    {
      start <= |file|
      && (err == Z_OK ==> im == IM_BLOCKS && !stuck0 && (|bytes| < room ==> z.s.avail_in == 0 && z.Stuck(z.s.Loaded())))
      && (err == Z_STREAM_END ==> im == IM_DONE)
      && (err == Z_DATA_ERROR ==> im == IM_BAD && (im0 != IM_BAD && |bytes| < room ==> delivered == Decoded(Data())))
      && (im0 == IM_BAD ==> err == Z_DATA_ERROR && bytes == [])
      && (err == Z_MEM_ERROR ==> im == IM_LOST)
      && (err == Z_BUF_ERROR ==> im == IM_BLOCKS && (|bytes| < room ==> in0 == 0 && delivered == Upto(z.s.bounds.lim)))
      && (err == Z_OK || err == Z_STREAM_END || err == Z_DATA_ERROR || err == Z_MEM_ERROR || err == Z_BUF_ERROR)
    }

    lemma {:induction false} Tail(a: seq<byte>, b: seq<byte>)
      requires a <= b
      ensures a + b[|a|..] == b
    {
    }

    /** Nothing more is to come, when the mode was im0. */
    ghost predicate Over(im0: InflateMode)
      reads this, z, z.s, z.s.window, z.hufts
    {
      start <= |file| && (im0 == IM_BAD || Verdict(Data()).NoSpace? || delivered == Decoded(Data()))
    }

    /** One round of the loop of unzReadCurrentFile for a deflated entry. */
    method Round(room: nat) returns (ok: bool, err: int, bytes: seq<byte>)
      requires Counts() && Flow() && Given() && Paused() && im != IM_LOST && im != IM_ASTRAY && 0 < room <= rest_read_uncompressed
      modifies this, z, z.s, z.s.window, z.hufts
      ensures Counts() && Flow() && Given() && Paused() && delivered == old(delivered) + bytes && |bytes| <= room
      ensures rest_read_uncompressed == old(rest_read_uncompressed) - |bytes|
      ensures !ok ==> bytes == [] && start + csize > |file| && im == old(im) && Doomed() == old(Doomed())
      ensures ok && im != IM_ASTRAY ==> Rounded(err, bytes, room, old(im))
      ensures ok && im != IM_ASTRAY && err == Z_OK && bytes == [] ==>
                rest_read_compressed < old(rest_read_compressed)
                || (rest_read_compressed == old(rest_read_compressed) && !old(z.Stuck(z.s.Loaded())) && z.Stuck(z.s.Loaded()))
      ensures im == IM_ASTRAY ==> ok && old(Doomed()) && bytes == []
      ensures old(Doomed()) && im != IM_ASTRAY ==> im == IM_BLOCKS && Doomed() && (ok ==> |bytes| == room)
      ensures !old(Doomed()) && ok && err == Z_OK && |bytes| < room ==> !Doomed()
    {
      hide Counts, Flow, Blocks.Stuck, Over, Same, Decoded, Verdict, Upto, Data, Doomed, Fared, Paused, Blocks.Caught;
      bytes, err := [], Z_OK;
      Bounded();
      DoomedIn();
      NotYet();
      if z.s.avail_in == 0 && rest_read_compressed > 0 {
        ok := RefillDeflated();
        if !ok { return; }
      }
      ok := true;
      ghost var in0, im1, caught, stuck := z.s.avail_in, im, z.Caught(), z.Stuck(z.s.Loaded());
      err, bytes := InflateOn(room);
      NowDoomed(im1, caught, err, bytes, room, in0, stuck);
      if im != IM_ASTRAY && err != Z_OK && err != Z_STREAM_END && |bytes| < room { StopOver(err, in0, im1); }
    }

    /** What a round that has called inflate says; im0 is the mode before. */
    ghost predicate Rounded(err: int, bytes: seq<byte>, room: nat, im0: InflateMode)
      reads this, z, z.s, z.s.window, z.hufts
    {
      (err == Z_OK ==> im == IM_BLOCKS) && (err == Z_STREAM_END ==> im == IM_DONE) && (im == im0 || im0 == IM_BLOCKS)
      && (im0 == IM_BAD ==> err != Z_OK && err != Z_STREAM_END && bytes == [])
      && (err != Z_OK && err != Z_STREAM_END && |bytes| < room ==> Over(im0))
    }

    /** The loop of unzReadCurrentFile for a deflated entry. */
    method ReadDeflated(want: nat) returns (out: Outcome, buf: seq<byte>)
      requires Counts() && Flow() && Given() && Paused() && 0 < want <= rest_read_uncompressed
      modifies this, z, z.s, z.s.window, z.hufts
      ensures Counts() && Flow() && Given() && Paused() && delivered == old(delivered) + buf && |buf| <= want
      ensures rest_read_uncompressed == old(rest_read_uncompressed) - |buf|
      ensures out == Returns(|buf|) || out == Returns(UNZ_ERRNO) || out.Wild?
      ensures out == Returns(|buf|) ==> |buf| == want || Over(old(im))
      ensures old(im) == IM_BAD ==> buf == [] && im == IM_BAD
      ensures out == Returns(UNZ_ERRNO) ==> start + csize > |file|
      ensures (out.Wild? ==> im == IM_LOST || im == IM_ASTRAY) && (im == IM_ASTRAY ==> out.Wild?)
      ensures im == IM_ASTRAY && old(im) != IM_ASTRAY ==> old(Doomed())
      ensures old(Doomed()) ==> im == IM_ASTRAY || (Doomed() && (|buf| == want || out == Returns(UNZ_ERRNO)))
    {
      hide Counts, Flow, Blocks.Stuck, Over, Same, Decoded, Verdict, Upto, Data, Doomed, Given, Paused;
      ghost var im0, doomed0 := im, Doomed();
      buf := [];
      var avail_out := want;
      DoomedIn();
      while avail_out > 0
        invariant Counts() && Flow() && Given() && Paused() && delivered == old(delivered) + buf && avail_out + |buf| == want
        invariant 0 <= avail_out <= rest_read_uncompressed == old(rest_read_uncompressed) - |buf|
        invariant (im == im0 || im == IM_BLOCKS) && (im0 == IM_BAD ==> im == IM_BAD && buf == [])
        invariant im == IM_ASTRAY ==> im0 == IM_ASTRAY && buf == []
        invariant avail_out > 0 && im == IM_BLOCKS ==> Doomed() == doomed0
        invariant doomed0 ==> Doomed() && im == IM_BLOCKS
        decreases avail_out, rest_read_compressed, !z.Stuck(z.s.Loaded())
        modifies this, z, z.s, z.s.window, z.hufts
      {
        if im == IM_LOST || im == IM_ASTRAY { return Wild, buf; }
        DoomedIn();
        var ok, err, bytes := Round(avail_out);
        buf := buf + bytes;
        avail_out := avail_out - |bytes|;
        if !ok { return Returns(UNZ_ERRNO), buf; }
        if im == IM_ASTRAY { return Wild, buf; }
        if err == Z_STREAM_END {
          DoneOver(im0);
          return Returns(if |buf| == 0 then UNZ_EOF else |buf|), buf;
        }
        if err != Z_OK {
          if avail_out > 0 { OverOn(im0); }
          break;
        }
      }
      out := Returns(|buf|);
    }

    lemma {:induction false} OverOn(im0: InflateMode)
      requires Over(im0) || Over(IM_BLOCKS)
      ensures Over(im0)
    {
      hide Decoded, Verdict, Data;
    }

    lemma {:induction false} DoomedIn()
      ensures Doomed() ==> im == IM_BLOCKS
    {
      hide Blocks.Caught, Blocks.EndsEarly;
    }

    lemma {:induction false} NotYet()
      ensures im == IM_BLOCKS && !(z.s.avail_in == 0 && rest_read_compressed > 0) ==> z.Caught() == Doomed()
    {
      hide Blocks.Caught, Blocks.EndsEarly;
    }

    /** How the entry stands after a call of inflate. */
    lemma {:induction false} NowDoomed(im1: InflateMode, caught: bool, err: int, bytes: seq<byte>, room: nat, in0: nat, stuck: bool)
      requires Flow() && Fared(im1, caught) && (im1 == IM_BLOCKS && caught && im != IM_ASTRAY ==> |bytes| == room)
      requires im != IM_ASTRAY ==> Called(err, bytes, room, im1, in0, stuck) && Paused()
      ensures (im == IM_ASTRAY ==> im1 == IM_BLOCKS && caught) && (im1 != IM_BLOCKS ==> im == im1) && Paused()
      ensures im1 == IM_BLOCKS && caught && im != IM_ASTRAY ==> im == IM_BLOCKS && Doomed() && |bytes| == room
      ensures im1 == IM_BLOCKS && !caught && err == Z_OK && |bytes| < room ==> im == IM_BLOCKS && !Doomed()
    {
      hide Same, Blocks.Fit, Blocks.At, Blocks.Caught, Blocks.Calm, Upto, Verdict, Decoded, InFirst, Lacks;
      if im == IM_BLOCKS {
        if z.Caught() { z.CaughtEarly(); }
        if z.Hungry() { z.HungryNotEarly(); }
      }
    }

    lemma {:induction false} DoneOver(im0: InflateMode)
      requires Flow() && Given() && im == IM_DONE
      ensures Over(im0)
    {
      hide Same, Verdict, Decoded, Blocks.Fit;
    }

    /** A call that stops with room left. */
    lemma {:induction false} StopOver(err: int, in0: nat, im1: InflateMode)
      requires Flow() && Given() && im != IM_ASTRAY && (err == Z_DATA_ERROR || err == Z_MEM_ERROR || err == Z_BUF_ERROR)
      requires err == Z_DATA_ERROR ==> im1 == IM_BAD || delivered == Decoded(Data())
      requires err == Z_MEM_ERROR ==> im == IM_LOST
      requires err == Z_BUF_ERROR ==> in0 == 0 && delivered == Upto(z.s.bounds.lim)
      requires in0 == 0 ==> rest_read_compressed == 0
      ensures Over(im1)
    {
      hide Same, FromState, Blocks.Fit, Blocks.At;
      DataSize();
    }

    lemma {:induction false} OverIs()
      requires Flow()
      ensures im == IM_LOST ==> Verdict(Data()).NoSpace?
      ensures im == IM_BAD ==> Verdict(Data()).Faulty?
      ensures im == IM_ASTRAY ==> csize > UNZ_BUFSIZE
    {
      hide Same, Verdict, Decoded, Blocks.Fit;
    }

    // ---------------------------------------------------------------- unzReadCurrentFile

    /** unzReadCurrentFile for a buffer of len bytes. */
    method Read(len: nat) returns (out: Outcome, buf: seq<byte>)
      requires Ok()
      modifies this, z, z.s, z.s.window, z.hufts
      ensures Ok() && delivered == old(delivered) + buf && |buf| <= Least(len, old(rest_read_uncompressed))
      ensures out.Returns? ==> out.r == |buf| || (out.r == UNZ_ERRNO && len > 0 && start + csize > |file|)
      ensures compression_method == 0 ==>
                !out.Wild?
                && (out == Returns(|buf|) ==> |buf| == Least(len, old(rest_read_uncompressed)))
                && (out.Spins? ==> |buf| < Least(len, old(rest_read_uncompressed)) && Left() == 0 && |buf| == old(Left()))
                && (start + csize <= |file| ==> (out.Spins? <==> old(Left()) < Least(len, old(rest_read_uncompressed))))
      ensures compression_method != 0 ==>
                !out.Spins? && delivered <= Decoded(Data()) && (out.Wild? ==> Verdict(Data()).NoSpace? || im == IM_ASTRAY)
                && (im == IM_ASTRAY && old(im) != IM_ASTRAY ==> out.Wild? && old(Doomed()) && csize > UNZ_BUFSIZE)
                && (old(Doomed()) ==>
                      im == IM_ASTRAY || (Doomed() && (|buf| == Least(len, old(rest_read_uncompressed)) || out == Returns(UNZ_ERRNO))))
                && (old(im) == IM_BAD ==> buf == [] && im == IM_BAD) && (im == IM_BAD ==> Verdict(Data()).Faulty?)
                && (out == Returns(|buf|) && old(im) != IM_BAD && !Verdict(Data()).NoSpace? ==>
                      |buf| == Least(Least(len, old(rest_read_uncompressed)), |Decoded(Data())| - |old(delivered)|))
    {
      hide Counts, Stored, Flow, Verdict, Decoded;
      Bounded();
      if compression_method != 0 {
        DeliveredIn();
        OverIs();
      }
      if len == 0 { return Returns(0), []; }
      var want := Least(len, rest_read_uncompressed);
      if want == 0 { return Returns(0), []; }
      if compression_method == 0 {
        out, buf := ReadStored(want);
      } else {
        out, buf := ReadDeflated(want);
        DeliveredIn();
        OverIs();
      }
    }

    /** unzCloseCurrentFile: a wrong CRC is reported exactly when all was read. */
    method Close() returns (err: int)
      requires Ok()
      ensures err == UNZ_CRCERROR <==> |delivered| == usize && Crc32(0, Octets(delivered)) != crc32_wait
      ensures err == UNZ_CRCERROR || err == UNZ_OK
    {
      hide Crc32, Octets, Stored, Flow;
      err := UNZ_OK;
      if rest_read_uncompressed == 0 {
        if crc32 != crc32_wait { err := UNZ_CRCERROR; }
      }
    }

    /** What the data begin with, as far as n bytes, the size that is declared, and the data themselves go. */
    ghost predicate Taken(d: seq<byte>, n: nat)
    {
      start <= |file| && d == Decoded(Data())[..Least(n, Least(usize, |Decoded(Data())|))]
    }

    lemma {:induction false} TakenMore(d: seq<byte>, buf: seq<byte>, n: nat, len: nat)
      requires Taken(d, n) && d + buf <= Decoded(Data()) && |d| <= usize
      requires |buf| == Least(Least(len, usize - |d|), |Decoded(Data())| - |d|)
      ensures Taken(d + buf, n + len)
    {
      hide Decoded, Data;
      Further(Decoded(Data()), d, buf, n, len, usize);
    }

    /** A read of a deflated entry. If it is the first one that meets a fault of the data, or meets none, it gets what it asks for as far
        as the data go; after that one, none gets anything. */
    method ReadMore(len: nat, ghost n: nat) returns (out: Outcome, buf: seq<byte>)
      requires Ok() && compression_method != 0 && start + csize <= |file| && (im != IM_BAD && !Verdict(Data()).NoSpace? ==> Taken(delivered, n))
      modifies this, z, z.s, z.s.window, z.hufts
      ensures Ok() && delivered == old(delivered) + buf && (out.Wild? ==> Verdict(Data()).NoSpace? || im == IM_ASTRAY)
      ensures old(im) == IM_BAD ==> im == IM_BAD && buf == []
      ensures old(im) != IM_BAD && !out.Wild? && !Verdict(Data()).NoSpace? ==> Taken(delivered, n + len)
      ensures im == IM_BAD ==> Verdict(Data()).Faulty?
      ensures im == IM_ASTRAY && old(im) != IM_ASTRAY ==> out.Wild? && old(Doomed()) && csize > UNZ_BUFSIZE
    {
      Totals();
      hide Counts, Flow, Ok, Verdict, Decoded, Data, Doomed, Taken;
      out, buf := Read(len);
      if old(im) != IM_BAD && out == Returns(|buf|) && !Verdict(Data()).NoSpace? {
        TakenMore(old(delivered), buf, n, len);
      }
    }

    /** Any series of reads of a deflated entry: whatever the sizes of the buffers, together they get the beginning of what the data
        decode to, as long as they ask for until one of them meets a fault of the data, and as the entry says it is; unless one goes
        wild. So bytes are lost exactly if the data go on beyond what was asked for by then. faults tells after which calls inflate has
        reported a fault. */
    method ReadAny(lens: seq<nat>) returns (all: seq<byte>, faults: seq<bool>, wild: bool)
      requires Ok() && compression_method != 0 && im == IM_BLOCKS && delivered == [] && start + csize <= |file|
      modifies this, z, z.s, z.s.window, z.hufts
      ensures Ok() && all == delivered <= Decoded(Data()) && |faults| <= |lens| && Met(faults) <= |faults|
      ensures wild ==> Verdict(Data()).NoSpace? || (csize > UNZ_BUFSIZE && im == IM_ASTRAY)
      ensures |lens| <= 1 && wild ==> Verdict(Data()).NoSpace? || old(Doomed())
      ensures !wild ==> |faults| == |lens| && (true in faults <==> im == IM_BAD) && (im == IM_BAD ==> Verdict(Data()).Faulty?)
      ensures var n := |Decoded(Data())|;
              !wild && !Verdict(Data()).NoSpace? ==>
                all == Decoded(Data())[..Least(SumTo(lens, Met(faults)), Least(usize, n))]
                && (|all| < Least(Sum(lens), Least(usize, n)) <==> SumTo(lens, Met(faults)) < Least(Sum(lens), Least(usize, n)))
    {
      all, faults, wild := [], [], false;
      hide Ok, Taken, Sum, SumTo, Decoded, Data, Verdict, Doomed;
      SumEnds(lens);
      Begun();
      var i := 0;
      while i < |lens| && !wild
        invariant 0 <= i <= |lens| && Ok() && all == delivered && |faults| <= i && (!wild ==> |faults| == i) && Met(faults) <= |faults|
        invariant !wild && !Verdict(Data()).NoSpace? ==> Taken(delivered, SumTo(lens, Met(faults)))
        invariant true in faults <==> im == IM_BAD
        invariant im == IM_BAD ==> Verdict(Data()).Faulty?
        invariant wild ==> Verdict(Data()).NoSpace? || (csize > UNZ_BUFSIZE && im == IM_ASTRAY && (i <= 1 ==> old(Doomed())))
        invariant im != IM_BAD ==> true !in faults
        invariant !wild ==> im != IM_ASTRAY && (i == 0 ==> Doomed() == old(Doomed()))
        modifies this, z, z.s, z.s.window, z.hufts
        decreases |lens| - i
      {
        ghost var met, before := Met(faults), delivered;
        var out, buf := ReadMore(lens[i], SumTo(lens, met));
        SumNext(lens, i);
        all := all + buf;
        i := i + 1;
        wild := out.Wild?;
        MetOneMore(faults, im == IM_BAD);
        if !wild { faults := faults + [im == IM_BAD]; }
        assert buf == [] ==> delivered == before;
      }
      SumUp(lens, Met(faults));
      DeliveredPart();
      if !wild && !Verdict(Data()).NoSpace? { TakenIs(SumTo(lens, Met(faults)), Sum(lens)); }
    }

    lemma {:induction false} DeliveredPart()
      requires Ok() && compression_method != 0
      ensures start <= |file| && delivered <= Decoded(Data())
    {
      DeliveredIn();
      hide Flow, Decoded, Counts;
    }

    lemma {:induction false} Begun()
      requires start <= |file|
      ensures Taken([], 0)
    {
      hide Decoded, Data;
    }

    lemma {:induction false} TakenIs(n: nat, sum: nat)
      requires Taken(delivered, n) && n <= sum
      ensures start <= |file| && delivered == Decoded(Data())[..Least(n, Least(usize, |Decoded(Data())|))]
      ensures |delivered| < Least(sum, Least(usize, |Decoded(Data())|)) <==> n < Least(sum, Least(usize, |Decoded(Data())|))
    {
      hide Decoded, Data;
    }

    lemma {:induction false} Totals()
      requires Ok()
      ensures |delivered| + rest_read_uncompressed == usize
    {
      hide Crc32, Octets, Stored, Flow;
    }

    lemma {:induction false} Further(d: seq<byte>, all: seq<byte>, buf: seq<byte>, n: nat, len: nat, usize: nat)
      requires all == d[..Least(n, Least(usize, |d|))] && all + buf <= d && |all| <= usize
      requires |buf| == Least(Least(len, usize - |all|), |d| - |all|)
      ensures all + buf == d[..Least(n + len, Least(usize, |d|))]
    {
    }

    /** A stored entry whose two sizes are equal has been delivered whole when nothing is left to read. */
    lemma {:induction false} StoredWhole()
      requires Ok() && compression_method == 0 && csize == usize && rest_read_uncompressed == 0
      ensures start + csize <= |file| && delivered == file[start..start + csize]
    {
      hide Crc32, Octets, Flow;
    }

    /** A deflated entry that holds the encoding of blocks, and declares the size of their expansion: what has been delivered is
        the beginning of the expansion, and all of it when nothing is left to read. */
    lemma {:induction false} DeflatedWhole(bs: seq<Block>)
      requires Ok() && compression_method != 0 && start <= |file|
      requires bs != [] && BlocksOk([], bs) && Begins(BytesVal(Data()), StreamBits(0, [], bs)) && (forall b :: b in bs ==> Strict(b))
      requires usize == |ExpandBlocks([], bs)|
      ensures delivered <= ExpandBlocks([], bs)
      ensures rest_read_uncompressed == 0 ==> delivered == ExpandBlocks([], bs)
    {
      hide Crc32, Octets, Stored, BlocksOk, StreamBits, ExpandBlocks, Begins, Strict, Decoded, StreamLook, Flow;
      DeliveredIn();
      DecodedEncoding(Data(), bs);
    }
  }
}
