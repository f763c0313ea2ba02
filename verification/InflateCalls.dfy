/** Any number of calls of inflate_blocks, with any limits on input and output: chopping does not matter. */
module InflateCalls {
  import opened Bits
  import opened BitStream
  import opened InflateSpec
  import opened InflateBlocksSpec
  import opened InflateBlockSteps
  import opened Window
  import opened BitBuffer
  import opened Inflate
  import opened InflateBlocks
  import opened DeflateStream
  import opened InflateRoundTrip
  import opened SpareByte

  /** The input there is after calls that offer so much more input and so much room each. */
  function Supplied(size: nat, limits: seq<(nat, nat)>): nat
  {
    if limits == [] then 0 else Least(Supplied(size, limits[..|limits| - 1]) + limits[|limits| - 1].0, size)
  }

  /** How the data, as far as supplied, end. */
  ghost function Ending(data: seq<byte>, limits: seq<(nat, nat)>): Finish
  {
    FromType(Input(BytesVal(data), Supplied(|data|, limits)), 0, Blank())
  }

  /** What they decode to. */
  ghost function Content(data: seq<byte>, limits: seq<(nat, nat)>): seq<byte>
  {
    BlankBefore(data, limits);
    Ending(data, limits).hist[WSIZE..]
  }

  lemma {:induction false} BlankBefore(data: seq<byte>, limits: seq<(nat, nat)>)
    ensures |Ending(data, limits).hist| >= WSIZE
  {
    TypeGrows(Input(BytesVal(data), Supplied(|data|, limits)), 0, Blank());
    hide FromType;
  }

  /** How many bytes are delivered: every call fills its room, unless that is more than there is. */
  ghost function DeliveredBy(data: seq<byte>, limits: seq<(nat, nat)>): nat
  {
    if limits == [] then 0
    else Least(DeliveredBy(data, limits[..|limits| - 1]) + limits[|limits| - 1].1, |Content(data, limits)|)
  }

  /** What a result code tells about the ending of the data. */
  ghost predicate Told(rc: int, f: Finish, n: nat, all: nat)
  {
    (rc == Z_STREAM_END ==> f.Ended? && n == all) && (rc == Z_DATA_ERROR ==> f.Faulty?) && (rc == Z_MEM_ERROR ==> f.NoSpace?)
    && (GoingOn(rc) ==> f.Starved? || n < all)
    && (GoingOn(rc) || rc == Z_STREAM_END || rc == Z_DATA_ERROR || rc == Z_MEM_ERROR)
  }

  lemma {:induction false} NoCalls(data: seq<byte>, limits: seq<(nat, nat)>)
    ensures limits[..0] == [] && Supplied(|data|, limits[..0]) == 0 && DeliveredBy(data, limits[..0]) == 0
  {
    hide Content;
  }

  /** One more call in the recursions. */
  lemma {:induction false} OneMore(data: seq<byte>, limits: seq<(nat, nat)>, n: nat)
    requires n < |limits|
    ensures Supplied(|data|, limits[..n + 1]) == Least(Supplied(|data|, limits[..n]) + limits[n].0, |data|)
    ensures DeliveredBy(data, limits[..n + 1]) ==
            Least(DeliveredBy(data, limits[..n]) + limits[n].1, |Content(data, limits[..n + 1])|)
  {
    hide Content;
    assert limits[..n + 1][..n] == limits[..n];
  }

  lemma {:induction false} SuppliedMore(size: nat, limits: seq<(nat, nat)>)
    ensures Supplied(size, limits) <= size
  {
  }

  lemma {:induction false} EndingIs(data: seq<byte>, limits: seq<(nat, nat)>)
    ensures Ending(data, limits) == FromState(Input(BytesVal(data), Supplied(|data|, limits)), State(IsType, false, 0, Blank()))
  {
    hide FromType, Blank;
  }

  /** What has been delivered and what is told, in terms of the ending. */
  lemma {:induction false} CallTold(data: seq<byte>, limits: seq<(nat, nat)>, rc: int, out: seq<byte>, before: nat, room: nat, f: Finish)
    requires f == Ending(data, limits) && DeliveredBy(data, limits) == Least(before + room, |Content(data, limits)|)
    requires |f.hist| >= WSIZE && out == f.hist[WSIZE..][..Least(before + room, |f.hist| - WSIZE)]
    requires (rc == Z_STREAM_END ==> f.Ended? && |out| == |f.hist| - WSIZE) && (rc == Z_DATA_ERROR ==> f.Faulty?)
             && (rc == Z_MEM_ERROR ==> f.NoSpace?) && (GoingOn(rc) ==> f.Starved? || |out| < |f.hist| - WSIZE)
             && (GoingOn(rc) || rc == Z_STREAM_END || rc == Z_DATA_ERROR || rc == Z_MEM_ERROR)
    ensures out == Content(data, limits)[..DeliveredBy(data, limits)] && |out| == DeliveredBy(data, limits) <= |Content(data, limits)|
    ensures Told(rc, Ending(data, limits), |out|, |Content(data, limits)|)
  {
    hide Ending, DeliveredBy;
  }

  /** Data that begin with encoded blocks: their expansion is what they decode to, from the moment on when all bits that are looked
      at are supplied, and eight bits past the end are always enough; before, it is a part of the expansion. */
  lemma {:induction false} EncodedEnding(data: seq<byte>, limits: seq<(nat, nat)>, bs: seq<Block>)
    requires bs != [] && BlocksOk([], bs) && Begins(BytesVal(data), StreamBits(0, [], bs)) && (forall b :: b in bs ==> Strict(b))
    ensures var n := 8 * Supplied(|data|, limits);
            (if StreamLook(BytesVal(data), 0, [], bs) <= n
             then Ending(data, limits) == Ended(|StreamBits(0, [], bs)|, Blank() + ExpandBlocks([], bs)) && Content(data, limits) == ExpandBlocks([], bs)
             else Ending(data, limits).Starved? && Content(data, limits) <= ExpandBlocks([], bs))
            && (|StreamBits(0, [], bs)| + 8 <= n ==> StreamLook(BytesVal(data), 0, [], bs) <= n)
  {
    hide BlocksOk, StreamBits, ExpandBlocks, BytesVal, FromType, Strict, Begins, StreamLook, Blank;
    var v := BytesVal(data);
    assert Shr(v, 0) == v by { LowNone(v); }
    BlankLong();
    assert Blank() + [] == Blank();
    StreamBackHere(Input(v, Supplied(|data|, limits)), 0, Blank(), [], bs);
    StreamClose(v, 0, [], bs);
    BlankBefore(data, limits);
    AfterBlank(Ending(data, limits).hist, ExpandBlocks([], bs));
  }

  lemma {:induction false} AfterBlank(h: seq<byte>, e: seq<byte>)
    requires |Blank()| == WSIZE <= |h|
    ensures h == Blank() + e ==> h[WSIZE..] == e
    ensures h <= Blank() + e ==> h[WSIZE..] <= e
  {
    hide Blank;
  }

  /** Any number of calls with any limits, on any data: after the calls that were made, the first bytes of what the data
      supplied so far decode to are delivered, as many as there was room for; and the result code tells how they end. */
  method AnyCalls(data: seq<byte>, space: array<HuftSpec.Huft>, limits: seq<(nat, nat)>)
    returns (out: seq<byte>, rc: int, calls: nat)
    requires space.Length == HuftBuild.MANY
    modifies space
    ensures calls <= |limits| && (GoingOn(rc) ==> calls == |limits|) && (calls == 0 ==> limits == [])
    ensures DeliveredBy(data, limits[..calls]) <= |Content(data, limits[..calls])|
    ensures out == Content(data, limits[..calls])[..DeliveredBy(data, limits[..calls])]
    ensures var f := Ending(data, limits[..calls]);
            calls > 0 ==> Told(rc, f, |out|, |Content(data, limits[..calls])|)
  {
    hide Blocks.Fit, Blocks.LeftOk, Blocks.At, Same, Pos, Inflater.Loaded, Ending, Content, DeliveredBy, Supplied, Blank;
    var b := new Blocks(data, space);
    ghost var st := State(IsType, false, 0, Blank());
    rc, out, calls := Z_OK, [], 0;
    NoCalls(data, limits);
    SameSelf(BytesVal(data), 0, st);
    while calls < |limits| && GoingOn(rc)
      invariant calls <= |limits|
      invariant |out| == DeliveredBy(data, limits[..calls])
      invariant GoingOn(rc) ==> b.Fit(b.s.Loaded()) && Same(BytesVal(data), b.s.bounds.lim, st, b.At(b.s.Loaded())) && b.s.bounds.lim == Supplied(|data|, limits[..calls])
      invariant fresh(b) && fresh(b.s) && fresh(b.s.window) && b.hufts == space && b.s.input == data && b.s.out == out
      invariant DeliveredBy(data, limits[..calls]) <= |Content(data, limits[..calls])|
      invariant out == Content(data, limits[..calls])[..DeliveredBy(data, limits[..calls])]
      invariant calls > 0 ==> Told(rc, Ending(data, limits[..calls]), |out|, |Content(data, limits[..calls])|)
      invariant calls == 0 ==> GoingOn(rc)
    {
      ghost var lim0 := b.s.bounds.lim;
      b.Supply(limits[calls].0, limits[calls].1);
      OneMore(data, limits, calls);
      SuppliedMore(|data|, limits[..calls]);
      calls := calls + 1;
      ghost var a, bd := b.At(b.s.Loaded()), b.s.bounds;
      SameLater(BytesVal(data), lim0, bd.lim, st, a);
      ghost var before := |out|;
      rc := b.Proceed(Z_OK);
      b.LeftFurther(rc, bd, st, a);
      b.Delivered(rc, bd, st);
      b.LeftBounds(rc, bd, st);
      if GoingOn(rc) { b.StillOn(rc, bd, st); }
      out := b.s.out;
      EndingIs(data, limits[..calls]);
      CallTold(data, limits[..calls], rc, out, before, limits[calls - 1].1, FromState(Input(BytesVal(data), bd.lim), st));
    }
  }
}
