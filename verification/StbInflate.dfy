/** The zlib decoder of DuiLib/stb_image.c: bit buffer, growing output, blocks. */
module StbInflate {
  import opened Bits
  import opened BitStream
  import opened Canonical
  import opened BitReversal
  import opened StbHuffman
  import opened Deflate
  import opened DeflateStream
  import opened DeflateLimits

  /** How a routine ends: well; with an error; where the source leaves the behaviour undefined; or at the bound on
      tokens and blocks. */
  datatype Status = Ok | Fail | Undef | Fuel

  /** The routine ended as the format decoder does. */
  ghost predicate Agrees(st: Status, pos: nat, out: seq<byte>, r: Res)
  {
    match r
    case Good(p, o) => st == Ok && pos == p && out == o
    case Corrupt => st == Fail
    case Undefined => st == Undef
    case OutOfFuel => st == Fuel
  }

  // ---------------------------------------------------------------- lemmas about the bit buffer

  /** A short code is found in the fast table, and what the fast table holds is right. */
  lemma {:induction false} FastHit(z: Zhuffman, lens: seq<nat>, w: nat, n: nat)
    requires z.Built(lens) && n >= 16
    ensures var b := z.fast[Low(Low(w, n), 9)];
            b < NO_FAST ==> b < 288 && z.value[b] < |lens| && Reads(lens, z.value[b], w) && z.size[b] == lens[z.value[b]] <= 15
  {
    var r := Low(Low(w, n), 9);
    Pow2Values();
    LowLow(w, n, 9);
    hide Low, Rev, Code, Shr, Pow2, Limits;
    var b := z.fast[r];
    if b < NO_FAST {
      var i := z.value[b];
      RevLow(w, 9, lens[i]);
    }
  }

  lemma {:induction false} FastMiss(z: Zhuffman, lens: seq<nat>, w: nat, n: nat, i: nat)
    requires z.Built(lens) && n >= 16 && z.fast[Low(Low(w, n), 9)] >= NO_FAST && Reads(lens, i, w)
    ensures lens[i] > ZFAST_BITS
  {
    var r := Low(Low(w, n), 9);
    Pow2Values();
    LowLow(w, n, 9);
    if lens[i] <= ZFAST_BITS {
      RevLow(w, 9, lens[i]);
    }
    hide Low, Rev, Code, Shr, Pow2, Limits;
  }

  /** A position past the codes of length k is not in a code of that length or less. */
  lemma {:induction false} SlowMiss(z: Zhuffman, lens: seq<nat>, w: nat, k: nat, i: nat)
    requires z.Built(lens) && 1 <= k <= 15 && Rev(w, 16) >= z.maxcode[k] && Reads(lens, i, w)
    ensures lens[i] > k
  {
    hide Rev, Code, Shr, Count, Below, Sorted, FastTable;
    ReadsIsCovers(lens, i, w);
    CoverBelowEnd(lens, i, Rev(w, 16));
    if lens[i] <= k { EndMono(lens, lens[i], k); }
  }

  /** The slow search stops at the length of the code the stream begins with. */
  lemma {:induction false} SlowHit(z: Zhuffman, lens: seq<nat>, w: nat, s: nat) returns (i: nat)
    requires z.Built(lens) && 10 <= s < 16 && Rev(w, 16) < z.maxcode[s]
    requires forall i: nat :: Reads(lens, i, w) ==> lens[i] >= s
    ensures Reads(lens, i, w) && lens[i] == s
    ensures Shr(Rev(w, 16), 16 - s) - z.firstcode[s] + z.firstsymbol[s] == Slot(lens, i) < 288
    ensures z.value[Slot(lens, i)] == i && z.size[Slot(lens, i)] == s
  {
    hide Rev, Code, Shr, Count, Below, Sorted, FastTable, Slot;
    i := CoverExists(lens, s, Rev(w, 16));
    ReadsIsCovers(lens, i, w);
    SlowSlot(z, lens, w, i);
  }

  lemma {:induction false} SlowSlot(z: Zhuffman, lens: seq<nat>, w: nat, i: nat)
    requires z.Built(lens) && Reads(lens, i, w)
    ensures var s := lens[i]; Shr(Rev(w, 16), 16 - s) - z.firstcode[s] + z.firstsymbol[s] == Slot(lens, i) < 288
    ensures z.value[Slot(lens, i)] == i && z.size[Slot(lens, i)] == lens[i]
  {
    hide Rev, Shr, Count, Below;
    TopOfRev(w, lens[i], 16);
  }

  // ---------------------------------------------------------------- the zbuf struct

  class Zbuf {
    const data: seq<byte>          // the input, zbuffer to zbuffer_end
    var zbuffer: nat               // offset of the next input byte
    var num_bits: nat
    var code_buffer: nat
    var zout_start: array<byte>    // the output buffer; zout_end is its length
    var zout: nat                  // offset of the next output byte
    const z_expandable: bool
    const z_length: Zhuffman
    const z_distance: Zhuffman
    ghost var fetched: nat         // bytes taken into code_buffer, counting the zeros past the end

    /** The input as one number. */
    ghost function V(): nat { BytesVal(data) }

    /** Bits consumed so far. */
    ghost function Pos(): nat
      reads this`fetched, this`num_bits
    {
      if num_bits <= 8 * fetched then 8 * fetched - num_bits else 0
    }

    ghost function Out(): seq<byte>
      reads this`zout_start, this`zout, zout_start
    {
      if zout <= zout_start.Length then zout_start[..zout] else []
    }

    ghost function Cap(): Option<nat>
      reads this`zout_start
    {
      if z_expandable then None else Some(zout_start.Length)
    }

    /** The bit buffer holds the next num_bits bits of the input. */
    ghost predicate BitsOk()
      reads this`zbuffer, this`num_bits, this`code_buffer, this`fetched
    {
      num_bits <= 32 && num_bits <= 8 * fetched
      && zbuffer == (if fetched < |data| then fetched else |data|)
      && code_buffer == Low(Shr(V(), Pos()), num_bits)
    }

    ghost predicate OutOk()
      reads this`zout_start, this`zout
    {
      zout <= zout_start.Length && (z_expandable ==> zout_start.Length > 0)
    }

    constructor (input: seq<byte>, obuf: array<byte>, expandable: bool)
      requires expandable ==> obuf.Length > 0
      ensures data == input && zout_start == obuf && z_expandable == expandable && fresh(z_length) && fresh(z_distance)
      ensures z_length != z_distance && z_length.Shape() && z_distance.Shape()
      ensures BitsOk() && OutOk() && Pos() == 0 && Out() == [] && num_bits == 0
    {
      data, zbuffer, num_bits, code_buffer, zout_start, zout, z_expandable := input, 0, 0, 0, obuf, 0, expandable;
      fetched := 0;
      z_length := new Zhuffman();
      z_distance := new Zhuffman();
    }

    method Zget8() returns (b: byte)
      requires BitsOk()
      modifies this`zbuffer, this`fetched
      ensures fetched == old(fetched) + 1 && zbuffer == (if fetched < |data| then fetched else |data|)
      ensures b == if old(fetched) < |data| then data[old(fetched)] else 0
    {
      fetched := fetched + 1;
      if zbuffer >= |data| { return 0; }
      b := data[zbuffer];
      zbuffer := zbuffer + 1;
    }

    method FillBits()
      requires BitsOk() && num_bits <= 24
      modifies this`zbuffer, this`num_bits, this`code_buffer, this`fetched
      ensures BitsOk() && num_bits > 24 && Pos() == old(Pos())
    {
      hide Low, Shr, Shl, Or, Pow2, BytesVal;
      ghost var pos := Pos();
      var first := true;
      while first || num_bits <= 24
        invariant BitsOk() && Pos() == pos && (first ==> num_bits <= 24)
        decreases 32 - num_bits
      {
        first := false;
        assert code_buffer < Pow2(num_bits);  // the assertion at the head of the loop
        FillStep(data, pos, num_bits, fetched);
        var b := Zget8();
        code_buffer := Or(code_buffer, Shl(b, num_bits));
        num_bits := num_bits + 8;
        Pow2Mono(num_bits, 32);
        assert code_buffer < Pow2(32);  // fits a uint32
      }
    }

    method Zreceive(n: nat) returns (k: nat)
      requires BitsOk() && n <= 24
      modifies this`zbuffer, this`num_bits, this`code_buffer, this`fetched
      ensures BitsOk() && Pos() == old(Pos()) + n && k == Low(Shr(V(), old(Pos())), n)
      ensures num_bits <= 32 - n
      ensures old(num_bits) >= n ==> num_bits == old(num_bits) - n && fetched == old(fetched)
    {
      if num_bits < n { FillBits(); }
      hide Low, Shr, Shl, Or, Pow2, BytesVal;
      ConsumeStep(V(), Pos(), num_bits, n);
      k := Low(code_buffer, n);
      code_buffer := Shr(code_buffer, n);
      num_bits := num_bits - n;
    }

    /** zhuffman_decode; lens are the lengths that z was built from. */
    method ZhuffmanDecode(z: Zhuffman, ghost lens: seq<nat>) returns (r: int)
      requires BitsOk() && z.Built(lens)
      modifies this`zbuffer, this`num_bits, this`code_buffer, this`fetched
      ensures BitsOk()
      ensures match Decode(lens, Shr(V(), old(Pos())))
              case Some(i) => i < |lens| && r == i && Pos() == old(Pos()) + lens[i]
              case None => r == -1 && Pos() == old(Pos())
    {
      if num_bits < 16 { FillBits(); }
      ghost var w := Shr(V(), Pos());
      FastHit(z, lens, w, num_bits);
      var b := z.fast[Low(code_buffer, ZFAST_BITS)];
      if b < 0xffff {
        DecodeIs(lens, z.value[b], w);
        Take(z.size[b]);
        return z.value[b];
      }
      r := SlowDecode(z, lens);
    }

    /** Dropping s bits from the bit buffer. */
    method Take(s: nat)
      requires BitsOk() && s <= num_bits
      modifies this`num_bits, this`code_buffer
      ensures BitsOk() && Pos() == old(Pos()) + s
    {
      ConsumeStep(V(), Pos(), num_bits, s);
      code_buffer := Shr(code_buffer, s);
      num_bits := num_bits - s;
    }

    /** The part of zhuffman_decode after the fast table has missed. */
    method SlowDecode(z: Zhuffman, ghost lens: seq<nat>) returns (r: int)
      requires BitsOk() && num_bits >= 16 && z.Built(lens) && z.fast[Low(code_buffer, ZFAST_BITS)] >= NO_FAST
      modifies this`num_bits, this`code_buffer
      ensures BitsOk()
      ensures match Decode(lens, Shr(V(), old(Pos())))
              case Some(i) => i < |lens| && r == i && Pos() == old(Pos()) + lens[i]
              case None => r == -1 && Pos() == old(Pos())
    {
      hide Low, Shr, Shl, Or, Pow2, BytesVal, Rev, Code, Decode, BitReverse;
      ghost var w := Shr(V(), Pos());
      forall i: nat | Reads(lens, i, w) ensures lens[i] > ZFAST_BITS { FastMiss(z, lens, w, num_bits, i); }
      BitReverseIsRev(code_buffer, 16);
      RevLow(w, num_bits, 16);
      var k := BitReverse(code_buffer, 16);
      var s := ZFAST_BITS + 1;
      Sentinel(z, lens, k);
      while k >= z.maxcode[s]
        invariant 10 <= s <= 16
        invariant forall i: nat :: Reads(lens, i, w) ==> lens[i] >= s
        decreases 16 - s
      {
        forall i: nat | Reads(lens, i, w) ensures lens[i] > s { SlowMiss(z, lens, w, s, i); }
        s := s + 1;
      }
      if s == 16 {
        return -1;
      }
      ghost var i := SlowHit(z, lens, w, s);
      DecodeIs(lens, i, w);
      var b := Shr(k, 16 - s) - z.firstcode[s] + z.firstsymbol[s];
      assert z.size[b] == s;  // the assertion before the bits are dropped
      Take(s);
      return z.value[b];
    }

    /** expand: the buffer doubles until n more bytes fit; what was written stays. */
    method ExpandOut(n: nat) returns (ok: bool)
      requires OutOk()
      modifies this`zout_start
      ensures OutOk() && Out() == old(Out()) && ok == z_expandable
      ensures ok ==> zout + n <= zout_start.Length && fresh(zout_start)
      ensures !ok ==> zout_start == old(zout_start)
    {
      if !z_expandable { return false; }
      var limit := zout_start.Length;
      while zout + n > limit
        invariant limit >= zout_start.Length
        decreases zout + n - limit
      {
        limit := limit * 2;
      }
      var q := new byte[limit](_ => 0);
      var i := 0;
      while i < zout
        invariant 0 <= i <= zout && q[..i] == zout_start[..i]
        modifies q
      {
        q[i] := zout_start[i];
        i := i + 1;
      }
      zout_start := q;
      ok := true;
    }

    method PutByte(b: byte)
      requires OutOk() && zout < zout_start.Length
      modifies zout_start, this`zout
      ensures OutOk() && Out() == old(Out()) + [b] && zout == old(zout) + 1
    {
      zout_start[zout] := b;
      zout := zout + 1;
    }

    /** The loop that copies a match, byte by byte, over bytes it may itself have written. */
    method CopyMatch(len: nat, dist: nat)
      requires OutOk() && zout + len <= zout_start.Length && (len > 0 ==> 1 <= dist <= zout)
      modifies zout_start, this`zout
      ensures OutOk() && Out() == CopyBack(old(Out()), len, dist)
    {
      var n := len;
      var p := if dist <= zout then zout - dist else 0;
      ghost var out0 := Out();
      hide CopyBack;
      while n > 0
        invariant 0 <= n <= len && OutOk() && zout + n <= zout_start.Length && |Out()| == zout
        invariant n > 0 ==> 1 <= dist <= zout && p == zout - dist
        invariant CopyBack(Out(), n, dist) == CopyBack(out0, len, dist)
      {
        CopyBackStep(Out(), n, dist);
        PutByte(zout_start[p]);
        p := p + 1;
        n := n - 1;
      }
      CopyBackDone(Out(), dist);
    }

    /** A table base plus its extra bits, if it has any. */
    method AddExtra(base: nat, extra: nat) returns (r: nat)
      requires BitsOk() && extra <= 24
      modifies this`zbuffer, this`num_bits, this`code_buffer, this`fetched
      ensures BitsOk() && Pos() == old(Pos()) + extra && r == base + Low(Shr(V(), old(Pos())), extra)
    {
      r := base;
      if extra != 0 {
        var x := Zreceive(extra);
        r := r + x;
      }
    }

    /** The check of the distance, the room check and the copy. */
    method CopyOut(len: nat, d: nat) returns (st: Status)
      requires OutOk()
      modifies this`zout, this`zout_start, zout_start
      ensures OutOk() && (zout_start == old(zout_start) || fresh(zout_start))
      ensures !z_expandable ==> zout_start == old(zout_start)
      ensures if d > |old(Out())| || Full(old(Cap()), |old(Out())| + len) then st == Fail
              else if d == 0 && len > 0 then st == Undef
              else st == Ok && Out() == CopyBack(old(Out()), len, d)
    {
      hide CopyBack;
      if zout < d { return Fail; }
      if zout + len > zout_start.Length {
        var ok := ExpandOut(len);
        if !ok { return Fail; }
      }
      if d == 0 && len > 0 { return Undef; }  // the copy would read what was never written
      CopyMatch(len, d);
      st := Ok;
    }

    /** Length and distance after length symbol 257 + i. */
    method ReadLengthDistance(i: nat, ghost dist: seq<nat>) returns (ok: bool, len: nat, d: nat)
      requires BitsOk() && z_distance.Built(dist) && |dist| <= 32 && i < 31
      modifies this`zbuffer, this`num_bits, this`code_buffer, this`fetched
      ensures BitsOk()
      ensures match ReadMatch(dist, i, Shr(V(), old(Pos())))
              case Repeat(u, n, m) => ok && len == n && d == m && Pos() == old(Pos()) + u
              case _ => !ok
    {
      hide Decode, Low, Shr, BytesVal, LBase, LExtra, DBase, DExtra, Zhuffman.Built, Pow2;
      ghost var v, pos := V(), Pos();
      ExtraBounds(i);
      len := AddExtra(LBase(i), LExtra(i));
      ShrShr(v, pos, LExtra(i));
      var z := ZhuffmanDecode(z_distance, dist);
      if z < 0 { return false, 0, 0; }
      ShrShr(v, pos, LExtra(i) + dist[z]);
      DistBounds(z);
      d := AddExtra(DBase(z), DExtra(z));
      ok := true;
    }

    /** The part of parse_huffman_block after length symbol 257 + i. */
    method MatchSymbol(i: nat, ghost dist: seq<nat>) returns (st: Status)
      requires BitsOk() && OutOk() && z_distance.Built(dist) && |dist| <= 32 && i < 31
      modifies this`zbuffer, this`num_bits, this`code_buffer, this`fetched, this`zout, this`zout_start, zout_start
      ensures BitsOk() && OutOk() && (zout_start == old(zout_start) || fresh(zout_start))
      ensures !z_expandable ==> zout_start == old(zout_start)
      ensures match ReadMatch(dist, i, Shr(V(), old(Pos())))
              case Repeat(u, len, d) =>
                if d > |old(Out())| || Full(old(Cap()), |old(Out())| + len) then st == Fail
                else if d == 0 && len > 0 then st == Undef
                else st == Ok && Pos() == old(Pos()) + u && Out() == CopyBack(old(Out()), len, d)
              case _ => st == Fail
    {
      hide Decode, Low, Shr, CopyBack, BytesVal, Full, ReadMatch;
      var ok, len, d := ReadLengthDistance(i, dist);
      if !ok { return Fail; }
      st := CopyOut(len, d);
    }

    /** Storing a literal, making room if there is none. */
    method EmitByte(b: byte) returns (ok: bool)
      requires OutOk()
      modifies this`zout, this`zout_start, zout_start
      ensures OutOk() && (zout_start == old(zout_start) || fresh(zout_start))
      ensures !z_expandable ==> zout_start == old(zout_start)
      ensures ok == !Full(old(Cap()), |old(Out())| + 1)
      ensures ok ==> Out() == old(Out()) + [b]
    {
      if zout >= zout_start.Length {
        ok := ExpandOut(1);
        if !ok { return; }
      }
      PutByte(b);
      ok := true;
    }

    /** One turn of the loop of parse_huffman_block; more says whether the loop goes on. */
    method OneSymbol(ghost lit: seq<nat>, ghost dist: seq<nat>) returns (st: Status, more: bool)
      requires BitsOk() && OutOk() && z_length.Built(lit) && z_distance.Built(dist) && |lit| <= 288 && |dist| <= 32
      modifies this`zbuffer, this`num_bits, this`code_buffer, this`fetched, this`zout, this`zout_start, zout_start
      ensures BitsOk() && OutOk() && (zout_start == old(zout_start) || fresh(zout_start))
      ensures !z_expandable ==> zout_start == old(zout_start)
      ensures match ReadTok(lit, dist, Shr(V(), old(Pos())))
              case NoCode => st == Fail && !more
              case Stop(u) => st == Ok && !more && Pos() == old(Pos()) + u && Out() == old(Out())
              case Emit(u, b) =>
                if Full(old(Cap()), |old(Out())| + 1) then st == Fail && !more
                else more && Pos() == old(Pos()) + u && Out() == old(Out()) + [b]
              case Repeat(u, len, d) =>
                if d > |old(Out())| || Full(old(Cap()), |old(Out())| + len) then st == Fail && !more
                else if d == 0 && len > 0 then st == Undef && !more
                else more && Pos() == old(Pos()) + u && Out() == CopyBack(old(Out()), len, d)
    {
      hide Decode, Low, Shr, CopyBack, BytesVal, LBase, LExtra, DBase, DExtra, Full, ReadMatch, Zhuffman.Built, Pow2;
      ghost var pos := Pos();
      var z := ZhuffmanDecode(z_length, lit);
      st, more := Ok, false;
      if z < 256 {
        if z < 0 { return Fail, false; }
        more := EmitByte(z);
        if !more { return Fail, false; }
      } else {
        if z == 256 { return; }
        ShrShr(V(), pos, lit[z]);
        st := MatchSymbol(z - 257, dist);
        more := st == Ok;
      }
    }

    /** parse_huffman_block, for at most fuel symbols. */
    method ParseHuffmanBlock(fuel: nat, ghost lit: seq<nat>, ghost dist: seq<nat>) returns (st: Status)
      requires BitsOk() && OutOk() && z_length.Built(lit) && z_distance.Built(dist) && |lit| <= 288 && |dist| <= 32
      modifies this`zbuffer, this`num_bits, this`code_buffer, this`fetched, this`zout, this`zout_start, zout_start
      ensures BitsOk() && OutOk() && (zout_start == old(zout_start) || fresh(zout_start))
      ensures !z_expandable ==> zout_start == old(zout_start)
      ensures Agrees(st, Pos(), Out(), RunToks(fuel, lit, dist, V(), old(Pos()), old(Out()), old(Cap())))
    {
      hide RunToks, Decode, Low, Shr, CopyBack, BytesVal, ReadTok, Full, Zhuffman.Built, Pow2;
      ghost var goal := RunToks(fuel, lit, dist, V(), Pos(), Out(), Cap());
      var f := fuel;
      while f > 0
        invariant BitsOk() && OutOk() && (zout_start == old(zout_start) || fresh(zout_start))
        invariant !z_expandable ==> zout_start == old(zout_start)
        invariant RunToks(f, lit, dist, V(), Pos(), Out(), Cap()) == goal
      {
        RunToksUnfold(f, lit, dist, V(), Pos(), Out(), Cap());
        f := f - 1;
        var more;
        st, more := OneSymbol(lit, dist);
        if !more { return; }
      }
      RunToksUnfold(0, lit, dist, V(), Pos(), Out(), Cap());
      st := Fuel;
    }

    // -------------------------------------------------------------- dynamic blocks

    /** The lengths of the code length code. */
    method ReadClSizes(hclen: nat) returns (sizes: seq<nat>)
      requires BitsOk() && hclen <= 19
      modifies this`zbuffer, this`num_bits, this`code_buffer, this`fetched
      ensures BitsOk() && Pos() == old(Pos()) + 3 * hclen && sizes == ReadClLens(V(), old(Pos()), hclen)
      ensures Ordered(sizes, V(), old(Pos()), hclen)
    {
      hide Low, Shr, BytesVal, Zag, Ordered;
      ghost var pos := Pos();
      ClOrder(V(), pos, hclen);
      ClLensUnfold(V(), pos, 0);
      sizes := seq(19, _ => 0);
      var i := 0;
      while i < hclen
        invariant 0 <= i <= hclen && BitsOk() && Pos() == pos + 3 * i && sizes == ReadClLens(V(), pos, i)
      {
        ClLensUnfold(V(), pos, i + 1);
        var s := Zreceive(3);
        sizes := sizes[Zag(i) := s];
        i := i + 1;
      }
    }

    /** One turn of the loop that reads the run-length coded lengths. */
    method OneLength(z: Zhuffman, ghost cl: seq<nat>, acc: seq<nat>, ghost total: nat) returns (ok: bool, wild: bool, lens: seq<nat>)
      requires BitsOk() && z.Built(cl) && |cl| == 19 && ValidLens(acc) && |acc| < total
      modifies this`zbuffer, this`num_bits, this`code_buffer, this`fetched
      ensures BitsOk() && (ok ==> |lens| > |acc| && ValidLens(lens))
      ensures ReadLens(cl, V(), old(Pos()), acc, total) ==
              if ok then ReadLens(cl, V(), Pos(), lens, total) else if wild then LensOverrun else LensUndefined
    {
      hide Decode, Low, Shr, BytesVal, Zhuffman.Built, Times, Pow2, ReadLens, ValidLens, Kraft;
      ReadLensUnfold(cl, V(), Pos(), acc, total);
      lens, wild := acc, false;
      var c := ZhuffmanDecode(z, cl);
      if c < 0 { return false, false, acc; }  // the assertion fails here
      ok := true;
      if c < 16 {
        lens := acc + [c];
        ValidAppend(acc, [c]);
      } else if c == 16 {
        if |acc| == 0 { return false, false, acc; }  // there is no previous length to repeat
        var x := Zreceive(2);
        if |acc| + x + 3 > LENCODES { return false, true, acc; }  // memset writes past the array
        ValidRepeat(acc, x + 3);
        lens := acc + Times(acc[|acc| - 1], x + 3);
      } else if c == 17 {
        var x := Zreceive(3);
        if |acc| + x + 3 > LENCODES { return false, true, acc; }
        ValidAppend(acc, Times(0, x + 3));
        lens := acc + Times(0, x + 3);
      } else {
        var x := Zreceive(7);
        if |acc| + x + 11 > LENCODES { return false, true, acc; }
        ValidAppend(acc, Times(0, x + 11));
        lens := acc + Times(0, x + 11);
      }
    }

    /** The loop of compute_huffman_codes over the coded lengths. */
    method AllLengths(z: Zhuffman, ghost cl: seq<nat>, total: nat) returns (ok: bool, wild: bool, lens: seq<nat>)
      requires BitsOk() && z.Built(cl) && |cl| == 19
      modifies this`zbuffer, this`num_bits, this`code_buffer, this`fetched
      ensures BitsOk() && ValidLens(lens)
      ensures ValidLens([]) && ReadLens(cl, V(), old(Pos()), [], total) ==
              if ok then LensGood(Pos(), lens) else if wild then LensOverrun else LensUndefined
    {
      hide Decode, Low, Shr, BytesVal, Zhuffman.Built, Times, Pow2, ReadLens, ValidLens, Kraft;
      NoneValid();
      lens := [];
      ghost var goal := ReadLens(cl, V(), Pos(), [], total);
      while |lens| < total
        invariant BitsOk() && ValidLens(lens) && ReadLens(cl, V(), Pos(), lens, total) == goal
        decreases total - |lens|
      {
        var next;
        ok, wild, next := OneLength(z, cl, lens, total);
        if !ok { return; }
        lens := next;
      }
      ReadLensDone(cl, V(), Pos(), lens, total);
      ok, wild := true, false;
    }

    /** compute_huffman_codes; cl is the code length code. */
    method ComputeHuffmanCodes() returns (st: Status, ghost lit: seq<nat>, ghost dist: seq<nat>, ghost cl: seq<nat>)
      requires BitsOk() && z_length.Shape() && z_distance.Shape() && z_length != z_distance
      modifies this`zbuffer, this`num_bits, this`code_buffer, this`fetched, z_length, z_distance
      ensures BitsOk() && z_length.Shape() && z_distance.Shape()
      ensures match ReadCodes(V(), old(Pos()))
              case CodesGood(p, l, d) =>
                st == Ok && Pos() == p && lit == l && dist == d && z_length.Built(l) && z_distance.Built(d)
              case CodesCorrupt => st == Fail
              case CodesUndefined => st == Undef
              case CodesOverrun => st == Undef
      ensures ReadBy(cl, V(), old(Pos()))
    {
      hide Decode, Low, Shr, BytesVal, Zhuffman.Built, ReadLens, ReadClLens, Pow2, Kraft, ValidLens, Zhuffman.Shape, Ordered, ReadBy;
      Pow2Values();
      lit, dist := [], [];
      ghost var pos := Pos();
      var hlit := Zreceive(5);
      hlit := hlit + 257;
      var hdist := Zreceive(5);
      hdist := hdist + 1;
      var hclen := Zreceive(4);
      hclen := hclen + 4;
      var sizes := ReadClSizes(hclen);
      ClLensValid(sizes);
      cl := sizes;
      CodesOrdered(V(), pos, cl);
      var z := new Zhuffman();
      var ok := z.Build(sizes);
      if !ok { return Fail, lit, dist, cl; }
      var wild, lencodes;
      ok, wild, lencodes := AllLengths(z, sizes, hlit + hdist);
      if !ok { return Undef, lit, dist, cl; }
      if |lencodes| != hlit + hdist { return Fail, lit, dist, cl; }
      ValidSplit(lencodes, hlit);
      st := BuildBoth(lencodes[..hlit], lencodes[hlit..]);
      lit, dist := lencodes[..hlit], lencodes[hlit..];
    }

    method BuildBoth(lit: seq<nat>, dist: seq<nat>) returns (st: Status)
      requires z_length.Shape() && z_distance.Shape() && z_length != z_distance
      requires ValidLens(lit) && ValidLens(dist) && |lit| <= 288 && |dist| <= 32
      modifies z_length, z_distance
      ensures z_length.Shape() && z_distance.Shape()
      ensures st == if Kraft(lit) <= SPACE && Kraft(dist) <= SPACE then Ok else Fail
      ensures st == Ok ==> z_length.Built(lit) && z_distance.Built(dist)
    {
      var ok := z_length.Build(lit);
      if !ok { return Fail; }
      ok := z_distance.Build(dist);
      if !ok { return Fail; }
      st := Ok;
    }

    // -------------------------------------------------------------- stored blocks

    /** Draining the bit buffer into the header. */
    method DrainHeader(ghost p: nat) returns (header: seq<byte>)
      requires BitsOk() && num_bits % 8 == 0 && num_bits <= 24 && Pos() == p
      modifies this`num_bits, this`code_buffer
      ensures BitsOk() && num_bits == 0 && |header| <= 3 && Pos() == p + 8 * |header| && AreBytes(V(), p, header)
    {
      hide Low, Shr, BytesVal, Pow2, AreBytes;
      header := [];
      BytesNone(V(), p);
      while num_bits > 0
        invariant BitsOk() && num_bits % 8 == 0 && num_bits + 8 * |header| <= 24 && Pos() == p + 8 * |header|
        invariant AreBytes(V(), p, header)
        decreases num_bits
      {
        ConsumeStep(V(), Pos(), num_bits, 8);
        Pow2Values();
        var b: byte := Low(code_buffer, 8);
        BytesMore(V(), p, header, b);
        header := header + [b];
        Take(8);
      }
    }

    /** Filling the header with whole bytes. */
    method FillHeader(first: seq<byte>, ghost p: nat) returns (header: seq<byte>)
      requires BitsOk() && num_bits == 0 && |first| <= 4 && Pos() == p + 8 * |first| && AreBytes(V(), p, first)
      modifies this`zbuffer, this`fetched
      ensures BitsOk() && |header| == 4 && Pos() == p + 32 && AreBytes(V(), p, header)
    {
      hide Low, Shr, BytesVal, Pow2, AreBytes;
      header := first;
      while |header| < 4
        invariant BitsOk() && num_bits == 0 && |header| <= 4 && Pos() == p + 8 * |header| && AreBytes(V(), p, header)
        decreases 4 - |header|
      {
        ByteAt(data, fetched);
        NoBits(Shr(V(), Pos() + 8), Shr(V(), Pos()));
        var b := Zget8();
        BytesMore(V(), p, header, b);
        header := header + [b];
      }
    }

    /** Skipping to a byte boundary and gathering the four header bytes, first those already in the bit buffer. */
    method StoredHeader() returns (header: seq<byte>)
      requires BitsOk() && num_bits <= 30
      modifies this`zbuffer, this`num_bits, this`code_buffer, this`fetched
      ensures BitsOk() && num_bits == 0 && |header| == 4
      ensures Pos() == old(Pos()) + Pad(old(Pos())) + 32 && AreBytes(V(), old(Pos()) + Pad(old(Pos())), header)
    {
      hide Low, Shr, BytesVal, Pow2, AreBytes, Pad;
      PadIs(fetched, num_bits);
      var odd := num_bits % 8;
      if odd != 0 {
        var discard := Zreceive(odd);
      }
      ghost var p := Pos();
      header := DrainHeader(p);
      header := FillHeader(header, p);
    }

    /** memcpy of n input bytes to the output. */
    method CopyInput(n: nat)
      requires OutOk() && zbuffer + n <= |data| && zout + n <= zout_start.Length
      modifies zout_start, this`zout, this`zbuffer
      ensures OutOk() && Out() == old(Out()) + data[old(zbuffer)..old(zbuffer) + n] && zbuffer == old(zbuffer) + n
    {
      ghost var out0, start := Out(), zbuffer;
      var i := 0;
      while i < n
        invariant 0 <= i <= n && OutOk() && zout + (n - i) <= zout_start.Length && zbuffer == start
        invariant Out() == out0 + data[start..start + i]
      {
        PutByte(data[zbuffer + i]);
        i := i + 1;
      }
      zbuffer := zbuffer + n;
    }

    /** parse_uncompressed_block. */
    method ParseUncompressedBlock() returns (st: Status)
      requires BitsOk() && OutOk() && num_bits <= 30
      modifies this`zbuffer, this`num_bits, this`code_buffer, this`fetched, this`zout, this`zout_start, zout_start
      ensures BitsOk() && OutOk() && (zout_start == old(zout_start) || fresh(zout_start))
      ensures !z_expandable ==> zout_start == old(zout_start)
      ensures Agrees(st, Pos(), Out(), RunStored(V(), |data|, old(Pos()), old(Out()), old(Cap())))
    {
      hide Low, Shr, BytesVal, Pow2, RunStored, Xor, Pad, AreBytes, Full;
      ghost var pos, out := Pos(), Out();
      var header := StoredHeader();
      var len := Little(header[0], header[1]);
      var nlen := Little(header[2], header[3]);
      StoredOutcome(data, pos, out, Cap(), fetched, header);
      if nlen != Xor(len, 0xffff) { return Fail; }
      if zbuffer + len > |data| { return Fail; }
      st := StoredBody(len);
    }

    /** Making room and copying. */
    method StoredBody(len: nat) returns (st: Status)
      requires BitsOk() && OutOk() && num_bits == 0 && zbuffer + len <= |data| && fetched <= |data|
      modifies this`zbuffer, this`fetched, this`zout, this`zout_start, zout_start
      ensures BitsOk() && OutOk() && (zout_start == old(zout_start) || fresh(zout_start))
      ensures !z_expandable ==> zout_start == old(zout_start)
      ensures if Full(old(Cap()), |old(Out())| + len) then st == Fail
              else st == Ok && Pos() == old(Pos()) + 8 * len && Out() == old(Out()) + data[old(zbuffer)..old(zbuffer) + len]
    {
      hide Low, Shr, BytesVal, Pow2;
      if zout + len > zout_start.Length {
        var ok := ExpandOut(len);
        if !ok { return Fail; }
      }
      NoBits(Shr(V(), Pos() + 8 * len), Shr(V(), Pos()));
      CopyInput(len);
      fetched := fetched + len;
      st := Ok;
    }

    // -------------------------------------------------------------- the whole stream

    /** parse_zlib_header. */
    method ParseZlibHeader() returns (ok: bool)
      requires BitsOk() && num_bits == 0
      modifies this`zbuffer, this`fetched
      ensures BitsOk() && Pos() == old(Pos()) + 16 && ok == ZlibHeaderOk(Shr(V(), old(Pos())))
    {
      hide Low, Shr, BytesVal, Pow2;
      ghost var v, p := V(), Pos();
      ByteAt(data, fetched);
      ByteAt(data, fetched + 1);
      ShrShr(v, p, 8);
      NoBits(Shr(v, p + 8), Shr(v, p));
      NoBits(Shr(v, p + 16), Shr(v, p + 8));
      var cmf := Zget8();
      var flg := Zget8();
      var cm := cmf % 16;
      if Little(flg, cmf) % 31 != 0 { return false; }
      if flg / 32 % 2 == 1 { return false; }
      if cm != 8 { return false; }
      ok := true;
    }

    /** One block, its kind known. */
    method ParseBlock(kind: nat, fuel: nat) returns (st: Status)
      requires BitsOk() && OutOk() && num_bits <= 30 && kind < 4
      requires z_length.Shape() && z_distance.Shape() && z_length != z_distance
      modifies this`zbuffer, this`num_bits, this`code_buffer, this`fetched, this`zout, this`zout_start, zout_start, z_length, z_distance
      ensures BitsOk() && OutOk() && z_length.Shape() && z_distance.Shape()
      ensures zout_start == old(zout_start) || fresh(zout_start)
      ensures !z_expandable ==> zout_start == old(zout_start)
      ensures Agrees(st, Pos(), Out(), RunBlock(fuel, kind, V(), |data|, old(Pos()), old(Out()), old(Cap())))
    {
      hide Low, Shr, BytesVal, RunStored, RunToks, ReadCodes, Zhuffman.Built, Zhuffman.Shape, FixedLengths, FixedDistances, ValidLens, Kraft, Pow2;
      if kind == 0 {
        st := ParseUncompressedBlock();
      } else if kind == 3 {
        st := Fail;
      } else {
        ghost var lit, dist := FixedLengths(), FixedDistances();
        if kind == 1 {
          FixedOk();
          FixedKraft();
          var ok := z_length.Build(FixedLengths());
          ok := z_distance.Build(FixedDistances());
        } else {
          ghost var cl;
          st, lit, dist, cl := ComputeHuffmanCodes();
          if st != Ok { return; }
        }
        st := ParseHuffmanBlock(fuel, lit, dist);
      }
    }

    /** parse_zlib, for at most n blocks of at most fuel symbols; partial is stbi_png_partial. */
    method ParseZlib(parse_header: bool, partial: bool, n: nat, fuel: nat) returns (st: Status)
      requires BitsOk() && OutOk() && Pos() == 0 && num_bits == 0
      requires z_length.Shape() && z_distance.Shape() && z_length != z_distance
      modifies this`zbuffer, this`num_bits, this`code_buffer, this`fetched, this`zout, this`zout_start, zout_start, z_length, z_distance
      ensures BitsOk() && OutOk()
      ensures if parse_header && !ZlibHeaderOk(V()) then st == Fail
              else Agrees(st, Pos(), Out(),
                          RunBlocks(n, fuel, partial, V(), |data|, if parse_header then 16 else 0, old(Out()), old(Cap())))
    {
      hide Low, Shr, BytesVal, RunBlock, RunBlocks, Zhuffman.Shape, ZlibHeaderOk, Pow2;
      LowNone(V());
      if parse_header {
        var ok := ParseZlibHeader();
        if !ok { return Fail; }
      }
      ghost var goal := RunBlocks(n, fuel, partial, V(), |data|, Pos(), Out(), Cap());
      var m := n;
      while m > 0
        invariant BitsOk() && OutOk() && (zout_start == old(zout_start) || fresh(zout_start))
        invariant !z_expandable ==> zout_start == old(zout_start)
        invariant z_length.Shape() && z_distance.Shape()
        invariant RunBlocks(m, fuel, partial, V(), |data|, Pos(), Out(), Cap()) == goal
      {
        RunBlocksUnfold(m, fuel, partial, V(), |data|, Pos(), Out(), Cap());
        m := m - 1;
        var final, kind := BlockHeader();
        st := ParseBlock(kind, fuel);
        if st != Ok { return; }
        if partial && zout > 65536 { return; }
        if final == 1 { return; }
      }
      RunBlocksUnfold(0, fuel, partial, V(), |data|, Pos(), Out(), Cap());
      st := Fuel;
    }

    /** The three bits before a block. */
    method BlockHeader() returns (final: nat, kind: nat)
      requires BitsOk()
      modifies this`zbuffer, this`num_bits, this`code_buffer, this`fetched
      ensures BitsOk() && Pos() == old(Pos()) + 3 && num_bits <= 30 && kind < 4
      ensures final == Low(Shr(V(), old(Pos())), 1) && kind == Low(Shr(V(), old(Pos()) + 1), 2)
    {
      hide Low, Shr, BytesVal, Pow2;
      Pow2Values();
      final := Zreceive(1);
      kind := Zreceive(2);
    }
  }

  /** The buffer size after expand has doubled it k times. */
  function Doubled(limit: nat, k: nat): nat
  {
    if k == 0 then limit else 2 * Doubled(limit, k - 1)
  }

  /** The doubling of expand comes to an end, whatever is needed, exactly if the buffer has a size at all. */
  lemma {:induction false} ExpandEnds(limit: nat, need: nat)
    ensures (exists k: nat :: need <= Doubled(limit, k)) <==> limit > 0 || need == 0
  {
    if limit > 0 {
      DoubledGrows(limit, need);
    } else {
      forall k: nat ensures Doubled(limit, k) == 0 { DoubledNone(k); }
      if need == 0 { assert need <= Doubled(limit, 0); }
    }
  }

  lemma {:induction false} DoubledGrows(limit: nat, k: nat)
    requires limit > 0
    ensures Doubled(limit, k) > k
  {
    if k > 0 { DoubledGrows(limit, k - 1); }
  }

  lemma {:induction false} DoubledNone(k: nat)
    ensures Doubled(0, k) == 0
  {
    if k > 0 { DoubledNone(k - 1); }
  }

  /** What do_zlib makes of data, for at most n blocks of at most fuel symbols. */
  ghost function Unpacked(data: seq<byte>, parse_header: bool, partial: bool, n: nat, fuel: nat, cap: Option<nat>): (Status, seq<byte>)
  {
    if parse_header && !ZlibHeaderOk(BytesVal(data)) then (Fail, [])
    else match RunBlocks(n, fuel, partial, BytesVal(data), |data|, if parse_header then 16 else 0, [], cap)
      case Good(_, o) => (Ok, o)
      case Corrupt => (Fail, [])
      case Undefined => (Undef, [])
      case OutOfFuel => (Fuel, [])
  }

  /** do_zlib: 1, 0, or a bound reached, and the output. */
  method DoZlib(data: seq<byte>, obuf: array<byte>, exp: bool, parse_header: bool, partial: bool, n: nat, fuel: nat)
    returns (st: Status, out: seq<byte>)
    requires exp ==> obuf.Length > 0
    modifies obuf
    ensures var u := Unpacked(data, parse_header, partial, n, fuel, if exp then None else Some(obuf.Length));
            st == u.0 && (st == Ok ==> out == u.1)
  {
    hide RunBlocks, ZlibHeaderOk, BytesVal, Low, Shr, Zhuffman.Shape;
    var a := new Zbuf(data, obuf, exp);
    st := a.ParseZlib(parse_header, partial, n, fuel);
    out := a.zout_start[..a.zout];
  }

  /** Data that begin with the encoding of blocks, with a header before it or without, decode to the expansion of the blocks, or to
      an error exactly if that does not fit an output buffer that cannot grow. */
  lemma {:induction false} RoundTrip(data: seq<byte>, parse_header: bool, bs: seq<Block>, n: nat, fuel: nat, cap: Option<nat>)
    requires bs != [] && BlocksOk([], bs)
    requires var start := if parse_header then 16 else 0;
             Begins(Shr(BytesVal(data), start), StreamBits(start, [], bs)) && start + |StreamBits(start, [], bs)| <= 8 * |data|
    requires n >= |bs| && forall b :: b in bs ==> fuel > TokCount(b)
    ensures var start := if parse_header then 16 else 0;
            RunBlocks(n, fuel, false, BytesVal(data), |data|, start, [], cap) ==
            if Full(cap, |ExpandBlocks([], bs)|) then Corrupt else Good(start + |StreamBits(start, [], bs)|, ExpandBlocks([], bs))
  {
    hide BlocksOk, StreamBits, ExpandBlocks, RunBlocks, BytesVal, Shr;
    var start := if parse_header then 16 else 0;
    StreamBack(n, fuel, BytesVal(data), |data|, start, [], bs);
    if cap.Some? { BlocksCapped(n, fuel, false, BytesVal(data), |data|, start, [], cap.value); }
  }

  /** Section 2.2 of RFC 1950: method 8, a window of 2^(cinfo + 8) bytes, a level, no dictionary, and check bits. */
  function ZlibHeader(cinfo: nat, level: nat): (h: seq<byte>)
    requires cinfo <= 7 && level <= 3
    ensures |h| == 2 && var cmf: nat, flg: nat := h[0], h[1];
            cmf == 16 * cinfo + 8 && flg / 64 == level && flg / 32 % 2 == 0 && (256 * cmf + flg) % 31 == 0
  {
    hide Fcheck;
    var cmf: nat := 16 * cinfo + 8;
    var c := Fcheck(256 * cmf + 64 * level);
    LevelBits(level, c);
    [cmf, 64 * level + c]
  }

  lemma {:induction false} LevelBits(level: nat, c: nat)
    requires level <= 3 && c < 31
    ensures (64 * level + c) / 64 == level && (64 * level + c) / 32 % 2 == 0
  {
    assert level == 0 || level == 1 || level == 2 || level == 3;
  }

  /** What is missing to a multiple of 31. */
  function Fcheck(x: nat): (c: nat)
    ensures c < 31 && (x + c) % 31 == 0
  {
    (31 - x % 31) % 31
  }

  /** The headers that are accepted, in bytes; one past the end of the data counts as zero. */
  lemma {:induction false} HeaderBytes(data: seq<byte>)
    ensures ZlibHeaderOk(BytesVal(data)) <==>
            |data| > 0 && var cmf: nat, flg: nat := data[0], if |data| > 1 then data[1] else 0;
            cmf % 16 == 8 && flg / 32 % 2 == 0 && (256 * cmf + flg) % 31 == 0
  {
    hide BytesVal, Low, Shr;
    ByteAt(data, 0);
    ByteAt(data, 1);
    LowNone(BytesVal(data));
  }

  /** What comes after two bytes. */
  lemma {:induction false} AfterTwo(head: seq<byte>, rest: seq<byte>)
    requires |head| == 2
    ensures Shr(BytesVal(head + rest), 16) == BytesVal(rest)
  {
    Drop(head + rest);
    Drop((head + rest)[1..]);
    assert (head + rest)[1..][1..] == rest;
    ShrShr(BytesVal(head + rest), 8, 8);
    hide BytesVal, Shr;
  }

  lemma {:induction false} Drop(data: seq<byte>)
    requires data != []
    ensures Shr(BytesVal(data), 8) == BytesVal(data[1..])
  {
    Pow2Values();
    ShrInterval(BytesVal(data), BytesVal(data[1..]), 8);
    ShlMul(BytesVal(data[1..]), 8);
    hide Shr, Shl, Pow2;
  }

  /** Any such header, encoded blocks after it, and whatever comes then, decode to the expansion of the blocks, or to an error exactly if
      that does not fit an output buffer that cannot grow. */
  lemma {:induction false} ZlibBack(cinfo: nat, level: nat, rest: seq<byte>, bs: seq<Block>, n: nat, fuel: nat, cap: Option<nat>)
    requires cinfo <= 7 && level <= 3 && bs != [] && BlocksOk([], bs)
    requires Begins(BytesVal(rest), StreamBits(16, [], bs)) && |StreamBits(16, [], bs)| <= 8 * |rest|
    requires n >= |bs| && forall b :: b in bs ==> fuel > TokCount(b)
    ensures Unpacked(ZlibHeader(cinfo, level) + rest, true, false, n, fuel, cap) ==
            if Full(cap, |ExpandBlocks([], bs)|) then (Fail, []) else (Ok, ExpandBlocks([], bs))
  {
    hide *;
    var data := ZlibHeader(cinfo, level) + rest;
    HeaderBytes(data);
    AfterTwo(ZlibHeader(cinfo, level), rest);
    RoundTrip(data, true, bs, n, fuel, cap);
    UnpackedIs(data, true, false, n, fuel, cap);
  }

  lemma {:induction false} UnpackedIs(data: seq<byte>, parse_header: bool, partial: bool, n: nat, fuel: nat, cap: Option<nat>)
    ensures Unpacked(data, parse_header, partial, n, fuel, cap) ==
      if parse_header && !ZlibHeaderOk(BytesVal(data)) then (Fail, [])
      else match RunBlocks(n, fuel, partial, BytesVal(data), |data|, if parse_header then 16 else 0, [], cap)
        case Good(_, o) => (Ok, o)
        case Corrupt => (Fail, [])
        case Undefined => (Undef, [])
        case OutOfFuel => (Fuel, [])
  {
    hide ZlibHeaderOk, RunBlocks, BytesVal;
  }

  lemma {:induction false} RunBlocksUnfold(n: nat, fuel: nat, partial: bool, v: nat, size: nat, pos: nat, out: seq<byte>, cap: Option<nat>)
    ensures RunBlocks(n, fuel, partial, v, size, pos, out, cap) ==
      if n == 0 then OutOfFuel
      else
        match RunBlock(fuel, Low(Shr(v, pos + 1), 2), v, size, pos + 3, out, cap)
        case Good(p, o) =>
          if Low(Shr(v, pos), 1) == 1 || (partial && |o| > 65536) then Good(p, o)
          else RunBlocks(n - 1, fuel, partial, v, size, p, o, cap)
        case Corrupt => Corrupt
        case Undefined => Undefined
        case OutOfFuel => OutOfFuel
  {
    hide Low, Shr, RunBlock;
  }

  /** Section 2.2 of RFC 1950, as far as this decoder checks it. */
  ghost predicate ZlibHeaderOk(v: nat)
  {
    var cmf, flg := Low(v, 8), Low(Shr(v, 8), 8);
    Little(flg, cmf) % 31 == 0 && flg / 32 % 2 == 0 && cmf % 16 == 8
  }

  /** Two bytes as a 16-bit number. */
  function Little(lo: nat, hi: nat): nat
  {
    hi * 256 + lo
  }

  ghost predicate AreBytes(v: nat, p: nat, bytes: seq<byte>)
  {
    forall i :: 0 <= i < |bytes| ==> bytes[i] == Low(Shr(v, p + 8 * i), 8)
  }

  lemma {:induction false} BytesNone(v: nat, p: nat)
    ensures AreBytes(v, p, [])
  {
  }

  lemma {:induction false} BytesMore(v: nat, p: nat, bytes: seq<byte>, b: byte)
    requires AreBytes(v, p, bytes) && b == Low(Shr(v, p + 8 * |bytes|), 8)
    ensures AreBytes(v, p, bytes + [b])
  {
    hide Low, Shr;
  }

  lemma {:induction false} NoBits(x: nat, y: nat)
    ensures Low(x, 0) == 0 && Low(y, 0) == 0
  {
  }

  lemma {:induction false} XorOnes(x: nat)
    requires x <= 0xffff
    ensures Xor(x, 0xffff) == 0xffff - x
  {
    Pow2Values();
    XorMask(x, 16);
  }

  lemma {:induction false} XorMask(x: nat, n: nat)
    requires x < Pow2(n)
    ensures Xor(x, Pow2(n) - 1) == Pow2(n) - 1 - x
  {
    if n > 0 {
      XorMask(x / 2, n - 1);
      XorOdd(x, Pow2(n - 1) - 1);
    }
  }

  lemma {:induction false} XorOdd(x: nat, m: nat)
    ensures Xor(x, 2 * m + 1) == (1 - x % 2) + 2 * Xor(x / 2, m)
  {
  }

  /** The stored block in the decoder's own terms: header bytes, byte offset and remaining input. */
  lemma {:induction false} StoredOutcome(data: seq<byte>, pos: nat, out: seq<byte>, cap: Option<nat>, f: nat, header: seq<byte>)
    requires |header| == 4 && AreBytes(BytesVal(data), pos + Pad(pos), header) && pos + Pad(pos) + 32 == 8 * f
    ensures var len, nlen := Little(header[0], header[1]), Little(header[2], header[3]);
            var zb := if f < |data| then f else |data|;
            RunStored(BytesVal(data), |data|, pos, out, cap) ==
              (if nlen != Xor(len, 0xffff) || zb + len > |data| || Full(cap, |out| + len) then Corrupt
               else Good(8 * f + 8 * len, out + data[zb..zb + len]))
            && (nlen == Xor(len, 0xffff) && zb + len <= |data| ==> f <= |data|)
  {
    hide Low, Shr, BytesVal, Pow2, StreamBytes, Xor, Pad, Full, RunStored, AreBytes, Little;
    var v, p := BytesVal(data), pos + Pad(pos);
    var len, nlen := Little(header[0], header[1]), Little(header[2], header[3]);
    StoredLens(v, p, header);
    RunStoredAt(v, |data|, pos, out, cap, f);
    XorOnes(len);
    if len + nlen == 0xffff {
      PastEnd(data, p, f, len, nlen);
      if f + len <= |data| {
        SliceBytes(data, f, len);
        EmptySlice(data, f);
      }
    }
  }

  lemma {:induction false} EmptySlice(data: seq<byte>, f: nat)
    requires f <= |data|
    ensures data[f..f] == []
  {
  }

  lemma {:induction false} StoredLens(v: nat, p: nat, header: seq<byte>)
    requires |header| == 4 && AreBytes(v, p, header)
    ensures Little(header[0], header[1]) == Low(Shr(v, p), 16) <= 0xffff
    ensures Little(header[2], header[3]) == Low(Shr(v, p + 16), 16) <= 0xffff
  {
    hide Low, Shr, Pow2;
    StoredSizes(v, p);
    assert header[0] == Low(Shr(v, p + 8 * 0), 8) && header[1] == Low(Shr(v, p + 8 * 1), 8);
    assert header[2] == Low(Shr(v, p + 8 * 2), 8) && header[3] == Low(Shr(v, p + 8 * 3), 8);
  }

  lemma {:induction false} RunStoredAt(v: nat, size: nat, pos: nat, out: seq<byte>, cap: Option<nat>, f: nat)
    requires pos + Pad(pos) + 32 == 8 * f
    ensures var len, nlen := Low(Shr(v, pos + Pad(pos)), 16), Low(Shr(v, pos + Pad(pos) + 16), 16);
            RunStored(v, size, pos, out, cap) ==
              if len + nlen != 0xffff || f + len > size || Full(cap, |out| + len) then Corrupt
              else Good(8 * f + 8 * len, out + StreamBytes(v, 8 * f, len))
  {
    hide Low, Shr, Pow2, StreamBytes, Full, Pad;
  }

  lemma {:induction false} StoredSizes(v: nat, p: nat)
    ensures Low(Shr(v, p), 16) == Low(Shr(v, p + 8), 8) * 256 + Low(Shr(v, p), 8)
    ensures Low(Shr(v, p + 16), 16) == Low(Shr(v, p + 24), 8) * 256 + Low(Shr(v, p + 16), 8)
  {
    hide Low, Shr;
    TwoBytes(Shr(v, p));
    TwoBytes(Shr(v, p + 16));
    ShrShr(v, p, 8);
    ShrShr(v, p + 16, 8);
  }

  /** A stored block whose lengths check out cannot end its header past the input and still be empty. */
  lemma {:induction false} PastEnd(data: seq<byte>, p: nat, fetched: nat, len: nat, nlen: nat)
    requires p + 32 == 8 * fetched && len + nlen == 0xffff && nlen == Low(Shr(BytesVal(data), p + 16), 16)
    ensures fetched > |data| ==> len > 0
  {
    hide Low, Shr, BytesVal;
    StoredSizes(BytesVal(data), p);
    ByteAt(data, fetched - 1);
    Pow2Values();
  }

  lemma {:induction false} ValidAppend(a: seq<nat>, b: seq<nat>)
    requires ValidLens(a) && forall i :: 0 <= i < |b| ==> b[i] <= 15
    ensures ValidLens(a + b)
  {
  }

  lemma {:induction false} ValidRepeat(a: seq<nat>, n: nat)
    requires ValidLens(a) && |a| > 0
    ensures ValidLens(a + Times(a[|a| - 1], n))
  {
  }

  lemma {:induction false} ValidSplit(a: seq<nat>, n: nat)
    requires ValidLens(a) && n <= |a|
    ensures ValidLens(a[..n]) && ValidLens(a[n..])
  {
  }

  lemma {:induction false} ClLensValid(cl: seq<nat>)
    requires forall i :: 0 <= i < |cl| ==> cl[i] < 8
    ensures ValidLens(cl)
  {
  }

  lemma {:induction false} ExtraBounds(i: nat)
    requires i < 31
    ensures LExtra(i) <= 24
  {
  }

  lemma {:induction false} DistBounds(i: nat)
    requires i < 32
    ensures DExtra(i) <= 24
  {
  }

  lemma {:induction false} Sentinel(z: Zhuffman, lens: seq<nat>, k: nat)
    requires z.Built(lens) && k < Pow2(16)
    ensures |z.maxcode| == 17 && k < z.maxcode[16]
  {
    Pow2Values();
  }

  lemma {:induction false} CopyBackStep(out: seq<byte>, n: nat, d: nat)
    requires n > 0 && 1 <= d <= |out|
    ensures CopyBack(out, n, d) == CopyBack(out + [out[|out| - d]], n - 1, d)
  {
  }

  lemma {:induction false} CopyBackDone(out: seq<byte>, d: nat)
    ensures CopyBack(out, 0, d) == out
  {
  }

  lemma {:induction false} RunToksUnfold(fuel: nat, lit: seq<nat>, dist: seq<nat>, v: nat, pos: nat, out: seq<byte>, cap: Option<nat>)
    requires |lit| <= 288 && |dist| <= 32
    ensures RunToks(fuel, lit, dist, v, pos, out, cap) ==
      if fuel == 0 then OutOfFuel
      else match ReadTok(lit, dist, Shr(v, pos))
        case NoCode => Corrupt
        case Stop(u) => Good(pos + u, out)
        case Emit(u, b) =>
          if Full(cap, |out| + 1) then Corrupt else RunToks(fuel - 1, lit, dist, v, pos + u, out + [b], cap)
        case Repeat(u, len, d) =>
          if d > |out| || Full(cap, |out| + len) then Corrupt
          else if d == 0 && len > 0 then Undefined
          else RunToks(fuel - 1, lit, dist, v, pos + u, CopyBack(out, len, d), cap)
  {
    hide ReadTok, Shr, CopyBack, Full;
  }

  lemma {:induction false} ClLensUnfold(v: nat, pos: nat, n: nat)
    requires n <= 19
    ensures ReadClLens(v, pos, n) ==
            if n == 0 then seq(19, _ => 0) else ReadClLens(v, pos, n - 1)[Zag(n - 1) := Low(Shr(v, pos + 3 * (n - 1)), 3)]
  {
    hide Low, Shr, Zag;
  }

}
