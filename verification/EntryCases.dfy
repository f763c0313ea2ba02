/** Entries that unzReadCurrentFile does not read as a caller might expect: one that loses a byte before a fault of its data, and one
    that is never read to its end. */
module EntryCases {
  import opened Bits
  import opened BitStream
  import opened Deflate
  import opened DeflateStream
  import opened InflateSpec
  import opened InflateTokens
  import opened InflateBlocksSpec
  import opened InflateBlockSteps
  import opened InflateRoundTrip
  import opened Window
  import opened Inflate
  import opened InflateBlocks
  import opened Entry

  // ---------------------------------------------------------------- bytes before a fault

  /** A stored block of the bytes 97 and 98, and a block of the type that does not exist. */
  const FAULTY: seq<byte> := [0, 2, 0, 253, 255, 97, 98, 6]
  const FAULTYVAL: nat := 460037864034402816

  lemma {:induction false} FaultyIs()
    ensures BytesVal(FAULTY) == FAULTYVAL
  {
    assert BytesVal(FAULTY[7..]) == 6;
    assert BytesVal(FAULTY[6..]) == 98 + 256 * BytesVal(FAULTY[7..]) by { assert FAULTY[6..][1..] == FAULTY[7..]; }
    assert BytesVal(FAULTY[5..]) == 97 + 256 * BytesVal(FAULTY[6..]) by { assert FAULTY[5..][1..] == FAULTY[6..]; }
    assert BytesVal(FAULTY[4..]) == 255 + 256 * BytesVal(FAULTY[5..]) by { assert FAULTY[4..][1..] == FAULTY[5..]; }
    assert BytesVal(FAULTY[3..]) == 253 + 256 * BytesVal(FAULTY[4..]) by { assert FAULTY[3..][1..] == FAULTY[4..]; }
    assert BytesVal(FAULTY[2..]) == 0 + 256 * BytesVal(FAULTY[3..]) by { assert FAULTY[2..][1..] == FAULTY[3..]; }
    assert BytesVal(FAULTY[1..]) == 2 + 256 * BytesVal(FAULTY[2..]) by { assert FAULTY[1..][1..] == FAULTY[2..]; }
  }

  lemma {:induction false} FaultyBits()
    ensures var v := FAULTYVAL;
            Low(Shr(v, 0), 1) == 0 && Low(Shr(v, 1), 2) == 0 && Low(Shr(v, 8), 16) == 2 && Low(Shr(v, 24), 16) == 65533
            && Low(Shr(v, 40), 8) == 97 && Low(Shr(v, 48), 8) == 98 && Low(Shr(v, 56), 1) == 0 && Low(Shr(v, 57), 2) == 3
  {
    var v := FAULTYVAL;
    assert Shr(v, 0) == v;
    Pow2Values();
    hide Low, Shr, Pow2, FAULTYVAL;
    BitsAt(v, 0, 1, 460037864034402816, 230018932017201408, 0);
    BitsAt(v, 1, 2, 230018932017201408, 57504733004300352, 0);
    BitsAt(v, 3, 5, 57504733004300352, 1797022906384386, 0);
    BitsAt(v, 8, 16, 1797022906384386, 27420393469, 2);
    BitsAt(v, 24, 16, 27420393469, 418401, 65533);
    BitsAt(v, 40, 8, 418401, 1634, 97);
    BitsAt(v, 48, 8, 1634, 6, 98);
    BitsAt(v, 56, 1, 6, 3, 0);
    BitsAt(v, 57, 2, 3, 0, 3);
  }

  /** The places on the way through them. */
  function Stage(i: nat): State
    requires i < 6
  {
    match i
    case 0 => State(IsType, false, 0, Blank())
    case 1 => State(IsLens, false, 8, Blank())
    case 2 => State(IsStored(2), false, 40, Blank())
    case 3 => State(IsStored(1), false, 48, Blank() + [97])
    case 4 => State(IsType, false, 56, Blank() + [97, 98])
    case _ => State(IsBad, false, 59, Blank() + [97, 98])
  }

  ghost predicate Staged(a: State)
  {
    exists i: nat :: i < 6 && a == Stage(i)
  }

  lemma {:induction false} StageNext(i: nat, b: State)
    requires i < 6 && Follows(FAULTYVAL, Stage(i), b)
    ensures i < 5 && b == Stage(i + 1)
  {
    FaultyBits();
    Pow2Values();
    hide Low, Shr, FAULTYVAL, Blank, FixedLengths, FixedDistances, Agree;
    match i
    case 2 =>
      assert StreamBytes(FAULTYVAL, 40, 1) == [97] + StreamBytes(FAULTYVAL, 48, 0);
    case 3 =>
      assert StreamBytes(FAULTYVAL, 48, 1) == [98] + StreamBytes(FAULTYVAL, 56, 0);
      assert Blank() + [97] + [98] == Blank() + [97, 98];
    case _ =>
  }

  lemma {:induction false} FaultyComes(a: State)
    requires Comes(FAULTYVAL, Stage(0), a)
    ensures Staged(a)
  {
    var k := iset x: State | Staged(x);
    hide Comes, Follows, Stage, FAULTYVAL;
    forall x, y | x in k && Follows(FAULTYVAL, x, y) ensures y in k {
      var i: nat :| i < 6 && x == Stage(i);
      StageNext(i, y);
    }
    assert Stage(0) in k;
    ComesIn(FAULTYVAL, Stage(0), a, k);
  }

  lemma {:induction false} StageFacts(a: State)
    requires Staged(a)
    ensures !a.m.IsCodes? && !a.m.IsDry? && |a.hist| <= WSIZE + 2
  {
    BlankLong();
    hide Blank;
  }

  lemma {:induction false} FaultyBytes()
    ensures StreamBytes(FAULTYVAL, 40, 2) == [97, 98]
  {
    FaultyBits();
    hide Low, Shr, FAULTYVAL;
    assert StreamBytes(FAULTYVAL, 40, 2) == [97] + StreamBytes(FAULTYVAL, 48, 1);
    assert StreamBytes(FAULTYVAL, 48, 1) == [98] + StreamBytes(FAULTYVAL, 56, 0);
  }

  lemma {:induction false} FaultyFirst(hist: seq<byte>)
    ensures FromType(Input(FAULTYVAL, 8), 0, hist) == FromLens(Input(FAULTYVAL, 8), false, 8, hist)
  {
    hide Low, Shr, FAULTYVAL, FromType, FromLens, FromCodes, FromTable, FixedLengths, FixedDistances;
    FaultyBits();
    TypeUnfold(Input(FAULTYVAL, 8), 0, hist);
  }

  lemma {:induction false} FaultySecond(hist: seq<byte>)
    ensures FromType(Input(FAULTYVAL, 8), 56, hist) == Faulty(59, hist)
  {
    hide Low, Shr, FAULTYVAL, FromType, FromLens, FromCodes, FromTable, FixedLengths, FixedDistances;
    FaultyBits();
    TypeUnfold(Input(FAULTYVAL, 8), 56, hist);
  }

  lemma {:induction false} FaultyLens(hist: seq<byte>)
    ensures FromLens(Input(FAULTYVAL, 8), false, 8, hist) == FromType(Input(FAULTYVAL, 8), 56, hist + [97, 98])
  {
    var x := Input(FAULTYVAL, 8);
    FaultyBits();
    FaultyBytes();
    LensUnfold(x, false, 8, hist);
    StoredIs(x, false, 2, 40, hist);
    AfterIs(x, false, 56, hist + [97, 98]);
    hide Low, Shr, FAULTYVAL, FromType, FromLens, FromStored, AfterBlock, StreamBytes;
  }

  lemma {:induction false} FaultyEnds()
    ensures FromState(Input(FAULTYVAL, 8), Stage(0)) == Faulty(59, Blank() + [97, 98])
    ensures BytesVal(FAULTY) == FAULTYVAL && Entry.Verdict(FAULTY) == Faulty(59, Blank() + [97, 98]) && Decoded(FAULTY) == [97, 98]
  {
    FaultyIs();
    FaultyFirst(Blank());
    FaultyLens(Blank());
    FaultySecond(Blank() + [97, 98]);
    BlankLong();
    hide FAULTYVAL, Blank, BytesVal, FromType, FromLens;
    assert (Blank() + [97, 98])[WSIZE..] == [97, 98];
  }

  lemma {:induction false} NothingYet()
    ensures FromState(Input(FAULTYVAL, 0), Stage(0)).hist == Blank() && |Blank()| == WSIZE
  {
    BlankLong();
    hide Low, Shr, Blank, FixedLengths, FixedDistances, FAULTYVAL;
  }

  /** With all data read and at most one byte delivered, the blocks are not waiting for anything. */
  lemma {:induction false} FaultStops(z: Blocks)
    requires z.Fit(z.s.Loaded()) && z.V() == FAULTYVAL && z.s.bounds.lim == 8 && |z.s.out| <= 1
    requires Same(FAULTYVAL, 8, Stage(0), z.At(z.s.Loaded())) && FromState(Input(FAULTYVAL, 8), Stage(0)).Faulty?
    ensures !z.Hungry() && !z.Choked()
  {
    var r := z.s.Loaded();
    var a := z.At(r);
    z.FitSaved();
    z.RingOut();
    z.AtHist(r);
    z.AtMode(r);
    SameAt(FAULTYVAL, 8, Stage(0), a, 8);
    SameComes(FAULTYVAL, 8, Stage(0), a);
    FaultyComes(a);
    StageFacts(a);
    hide FromState, Inflater.Saved, Blocks.Fit, Blocks.At, Same, Comes, Blank, Lacks, FAULTYVAL, Pending, Stage, Staged, Inflater.Loaded;
    if z.Hungry() { LacksIsStarved(Input(FAULTYVAL, 8), a); }
  }

  lemma {:induction false} WholeFile(r: Reader)
    requires r.file == FAULTY && r.start == 0 && r.csize == 8
    ensures r.Data() == FAULTY
  {
    assert FAULTY[0..8] == FAULTY;
  }

  /** An entry of these data of which something has been delivered has met the fault. */
  lemma {:induction false} FaultMet(r: Reader)
    requires r.Ok() && r.compression_method != 0 && r.file == FAULTY && r.start == 0 && r.csize == 8 && |r.delivered| == 1
    ensures r.im == IM_BAD
  {
    FaultyEnds();
    WholeFile(r);
    OkIs(r);
    hide Reader.Ok, Reader.Flow, FAULTYVAL, FAULTY, FromState, Blank, BytesVal, Reader.Data, Entry.Verdict, Decoded;
    if r.im == IM_BLOCKS {
      Started(r);
      BlocksNow(r);
      hide Blocks.Fit, Blocks.At, Blocks.Hungry, Blocks.Choked, Same, Inflater.Loaded, Stage;
      FaultStops(r.z);
    }
  }

  lemma {:induction false} OkIs(r: Reader)
    requires r.Ok() && r.compression_method != 0 && r.csize <= UNZ_BUFSIZE
    ensures r.Flow() && r.im != IM_ASTRAY && r.z.s.out == r.delivered
    ensures r.im == IM_DONE ==> Entry.Verdict(r.Data()).Ended?
    ensures r.im == IM_LOST ==> Entry.Verdict(r.Data()).NoSpace?
    ensures r.im == IM_BLOCKS ==> r.Paused() && r.InFirst() && r.z.s.bounds.lim == r.csize - r.rest_read_compressed
  {
    hide Blocks.Fit, Blocks.At, Blocks.Caught, Blocks.Calm, Blocks.Hungry, Blocks.Choked, Reader.Counts, Entry.Verdict, Decoded, Same, Reader.InPiece;
  }

  /** The data have been read. */
  lemma {:induction false} Started(r: Reader)
    requires r.Flow() && r.im == IM_BLOCKS && r.Data() == FAULTY && |r.z.s.out| > 0 && r.csize == 8
    ensures r.z.s.bounds.lim > 0
  {
    FaultyIs();
    hide Reader.Flow, FromState, Blank, FAULTYVAL, BytesVal, FAULTY, Reader.Data;
    if r.z.s.bounds.lim == 0 {
      r.OutPrefix(0);
      NothingYet();
    }
  }

  lemma {:induction false} BlocksNow(r: Reader)
    requires r.Flow() && r.Paused() && r.im == IM_BLOCKS && BytesVal(r.Data()) == FAULTYVAL && r.z.s.bounds.lim == 8
    ensures r.z.Fit(r.z.s.Loaded()) && r.z.V() == FAULTYVAL && Same(FAULTYVAL, 8, Stage(0), r.z.At(r.z.s.Loaded())) && (r.z.Hungry() || r.z.Choked())
  {
    hide Blocks.Fit, Blocks.At, Blocks.Caught, Blocks.Calm, Blocks.Hungry, Blocks.Choked, Entry.Verdict, Decoded, Same, Reader.InPiece, BytesVal,
         FAULTYVAL, Blank;
  }

  /** A read of such an entry. */
  method Take(r: Reader, len: nat) returns (buf: seq<byte>)
    requires r.Ok() && r.compression_method != 0 && r.file == FAULTY && r.start == 0 && r.csize == 8 && r.usize == 2
    modifies r, r.z, r.z.s, r.z.s.window, r.z.hufts
    ensures r.Ok() && r.delivered == old(r.delivered) + buf && r.delivered <= [97, 98]
    ensures |buf| == if old(r.im) == IM_BAD then 0 else Least(len, 2 - |old(r.delivered)|)
  {
    FaultyEnds();
    WholeFile(r);
    OkIs(r);
    r.Totals();
    hide Reader.Ok, Decoded, Entry.Verdict, Reader.Doomed, Reader.Data, BytesVal, Blank, FAULTYVAL, Stage, FromState, Reader.Flow, Reader.Paused,
         Reader.Doomed, Reader.InFirst;
    var out;
    out, buf := r.Read(len);
    OkIs(r);
  }

  /** An entry that loses a byte: the first call meets the fault when its room is full with the second byte pending. One call with
      more room gets both. */
  method LosesByte() returns (first: seq<byte>, second: seq<byte>, whole: seq<byte>)
    ensures Decoded(FAULTY) == [97, 98] && first == [97] && second == [] && whole == [97, 98]
  {
    FaultyEnds();
    hide Reader.Ok, Decoded, Entry.Verdict, Reader.Doomed, Reader.Data, BytesVal, Blank, FAULTYVAL, Stage, FromState;
    var r := new Reader(FAULTY, 0, 0, 8, 2, 0, 8);
    first := Take(r, 1);
    assert first == r.delivered == [97];
    FaultMet(r);
    second := Take(r, 1);
    var r2 := new Reader(FAULTY, 0, 0, 8, 2, 0, 8);
    whole := Take(r2, 2);
    assert whole == r2.delivered == [97, 98];
  }

  // ---------------------------------------------------------------- a stored entry that ends too early

  /** A stored entry of three bytes that is said to have five uncompressed: a read of all five gets the three and goes round for ever. */
  method NeverReturns() returns (out: Outcome, buf: seq<byte>)
    ensures out.Spins? && buf == [7, 8, 9]
  {
    hide Crc.Crc32, Octets, Reader.Flow, Reader.Doomed, Entry.Verdict, Decoded;
    var r := new Reader([7, 8, 9], 0, 0, 3, 5, 0, 0);
    r.Totals();
    out, buf := r.Read(5);
    AllThree(r);
  }

  lemma {:induction false} AllThree(r: Reader)
    requires r.Ok() && r.compression_method == 0 && r.file == [7, 8, 9] && r.start == 0 && r.csize == 3 && r.Left() == 0
    ensures r.delivered == [7, 8, 9]
  {
    hide Octets, Reader.Flow;
  }
}
