/** The bit buffer of inflate: b holds the next k bits of the input, and above them possibly more bits of bytes that
    have been handed back; those agree with the input, so reading the bytes again changes nothing. */
module BitBuffer {
  import opened Bits
  import opened BitStream

  /** The local copies of LOAD: bit buffer, input offset and bytes left, window write position and room. */
  datatype Regs = Regs(b: nat, k: nat, p: nat, n: nat, q: nat, m: nat)

  /** Bits consumed. */
  function Pos(r: Regs): nat
  {
    if r.k <= 8 * r.p then 8 * r.p - r.k else 0
  }

  ghost predicate BufOk(v: nat, b: nat, k: nat, p: nat)
  {
    k <= 8 * p && exists n: nat :: Holds(v, b, k, p, n)
  }

  /** b is the next n bits of the input, at least k of them. */
  ghost predicate Holds(v: nat, b: nat, k: nat, p: nat, n: nat)
    requires k <= 8 * p
  {
    k <= n <= 32 && b == Low(Shr(v, 8 * p - k), n)
  }

  /** NEXTBYTE, put above the k bits. */
  function Grabbed(data: seq<byte>, r: Regs): Regs
    requires r.p < |data| && r.n > 0
  {
    r.(b := Or(r.b, Shl(data[r.p], r.k)), k := r.k + 8, p := r.p + 1, n := r.n - 1)
  }

  /** DUMPBITS */
  function Dumped(r: Regs, j: nat): Regs
    requires j <= r.k
  {
    r.(b := Shr(r.b, j), k := r.k - j)
  }

  lemma {:induction false} GrabOk(data: seq<byte>, r: Regs)
    requires BufOk(BytesVal(data), r.b, r.k, r.p) && r.k <= 24 && r.p < |data| && r.n > 0
    ensures var r' := Grabbed(data, r); BufOk(BytesVal(data), r'.b, r'.k, r'.p) && Pos(Grabbed(data, r)) == Pos(r)
  {
    hide Or, Low, Shr, Shl, Pow2, BytesVal;
    var v := BytesVal(data);
    var n: nat :| Holds(v, r.b, r.k, r.p, n);
    ByteAt(data, r.p);
    ShrShr(v, Pos(r), r.k);
    OrAgree(Shr(v, Pos(r)), n, r.k, 8);
    var n2 := if n < r.k + 8 then r.k + 8 else n;
    assert Holds(v, Grabbed(data, r).b, r.k + 8, r.p + 1, n2);
  }

  lemma {:induction false} DumpOk(v: nat, r: Regs, j: nat)
    requires BufOk(v, r.b, r.k, r.p) && j <= r.k
    ensures var r' := Dumped(r, j); BufOk(v, r'.b, r'.k, r'.p) && Pos(Dumped(r, j)) == Pos(r) + j
    ensures Low(r.b, j) == Low(Shr(v, Pos(r)), j)
  {
    hide Low, Shr, Pow2;
    var n: nat :| Holds(v, r.b, r.k, r.p, n);
    LowLow(Shr(v, Pos(r)), n, j);
    ShrLow(Shr(v, Pos(r)), n, j);
    ShrShr(v, Pos(r), j);
    assert Holds(v, Shr(r.b, j), r.k - j, r.p, n - j);
  }

  /** Handing c whole bytes back leaves their bits in b. */
  lemma {:induction false} ReturnOk(v: nat, r: Regs, c: nat)
    requires BufOk(v, r.b, r.k, r.p) && 8 * c <= r.k
    ensures c <= r.p
    ensures var r' := r.(k := r.k - 8 * c, p := r.p - c, n := r.n + c); BufOk(v, r'.b, r'.k, r'.p) && Pos(r') == Pos(r)
  {
    hide Low, Shr;
    var n: nat :| Holds(v, r.b, r.k, r.p, n);
    assert Holds(v, r.b, r.k - 8 * c, r.p - c, n);
  }

  /** An empty buffer. */
  lemma {:induction false} ClearOk(v: nat, r: Regs)
    ensures BufOk(v, 0, 0, r.p)
  {
    hide Shr;
    assert Holds(v, 0, 0, r.p, 0);
  }
}
