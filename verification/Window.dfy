/** The sliding window of inflate: a ring that holds the last bytes produced, of which the ones between the
    read and the write position are still to be delivered. */
module Window {
  import opened Bits
  import opened InflateSpec

  /** What the memory of a new window holds. */
  function Blank(): seq<byte>
  {
    seq(WSIZE, _ => 0)
  }

  lemma {:induction false} BlankLong()
    ensures |Blank()| == WSIZE
  {
  }

  /** The slot of the window that write position q has passed holds the byte produced that long ago. */
  ghost predicate Mirrors(win: seq<byte>, q: nat, hist: seq<byte>)
  {
    q <= |win| <= |hist|
    && forall x :: 0 <= x < |win| ==> win[x] == hist[if x < q then |hist| - q + x else |hist| - q - |win| + x]
  }

  /** Bytes in the window that are still to be delivered. */
  function Pending(read: nat, q: nat): nat
  {
    if read <= q then q - read else if read <= WSIZE + q then WSIZE - read + q else 0
  }

  /** WAVAIL: bytes that can be written before the end of the window or the read position. */
  function Room(read: nat, q: nat): nat
  {
    if q < read then read - q - 1 else if q <= WSIZE then WSIZE - q else 0
  }

  /** Delivered bytes, then the pending ones, are all the bytes produced after the first windowful of history. */
  ghost predicate Ring(win: seq<byte>, read: nat, q: nat, hist: seq<byte>, out: seq<byte>)
  {
    |win| == WSIZE && Mirrors(win, q, hist) && read < WSIZE && |hist| == WSIZE + |out| + Pending(read, q)
    && forall i :: 0 <= i < |out| ==> out[i] == hist[WSIZE + i]
  }

  /** The slot d bytes behind the write position. */
  function Source(q: nat, d: nat): nat
  {
    if q < d then (if d <= WSIZE + q then WSIZE + q - d else 0) else q - d
  }

  lemma {:induction false} SourceHolds(win: seq<byte>, read: nat, q: nat, hist: seq<byte>, out: seq<byte>, d: nat)
    requires Ring(win, read, q, hist, out) && 1 <= d <= WSIZE
    ensures Source(q, d) < |win| && win[Source(q, d)] == hist[|hist| - d]
  {
  }

  /** Stepping the source over the end of the window follows the write position. */
  lemma {:induction false} SourceNext(q: nat, d: nat)
    requires q < WSIZE && 1 <= d <= WSIZE
    ensures Source(q + 1, d) == if Source(q, d) + 1 == WSIZE then 0 else Source(q, d) + 1
    ensures Source(WSIZE, d) == Source(0, d)
  {
  }

  lemma {:induction false} RingPut(win: seq<byte>, read: nat, q: nat, hist: seq<byte>, out: seq<byte>, b: byte)
    requires Ring(win, read, q, hist, out) && Room(read, q) > 0
    ensures q < |win| && Ring(win[q := b], read, q + 1, hist + [b], out)
    ensures Room(read, q + 1) == Room(read, q) - 1
  {
  }

  lemma {:induction false} RingWrap(win: seq<byte>, read: nat, hist: seq<byte>, out: seq<byte>)
    requires Ring(win, read, WSIZE, hist, out) && read != 0
    ensures Ring(win, read, 0, hist, out) && Pending(read, 0) == Pending(read, WSIZE)
  {
  }

  /** Delivering n bytes that lie in one piece, up to the end of the window. */
  lemma {:induction false} RingDeliver(win: seq<byte>, read: nat, q: nat, hist: seq<byte>, out: seq<byte>, n: nat)
    requires Ring(win, read, q, hist, out) && n <= (if read <= q then q else WSIZE) - read
    ensures read + n < WSIZE ==> Ring(win, read + n, q, hist, out + win[read..read + n]) && Pending(read + n, q) == Pending(read, q) - n
    ensures read + n == WSIZE ==>
              var q' := if q == WSIZE then 0 else q;
              Ring(win, 0, q', hist, out + win[read..read + n]) && Pending(0, q') == Pending(read, q) - n
  {
    var o2 := out + win[read..read + n];
    forall i | 0 <= i < |o2| ensures o2[i] == hist[WSIZE + i] {
      if i >= |out| { assert o2[i] == win[read + (i - |out|)]; }
    }
  }

  /** Everything in the window has been produced, and no more than a windowful is pending. */
  lemma {:induction false} RingBounds(win: seq<byte>, read: nat, q: nat, hist: seq<byte>, out: seq<byte>)
    requires Ring(win, read, q, hist, out)
    ensures q <= WSIZE && read < WSIZE && Pending(read, q) <= WSIZE && |hist| >= WSIZE && Room(read, q) <= WSIZE - q
    ensures out <= hist[WSIZE..] && |hist| - WSIZE - |out| == Pending(read, q)
    ensures Room(read, q) == 0 && (q < WSIZE || read == 0) ==> Pending(read, q) >= WSIZE - 1
    ensures Pending(read, q) == 0 <==> read == q
  {
  }
}
