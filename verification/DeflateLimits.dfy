/** What the two limits of the decoder change: the size of an output buffer that cannot grow, and the bounds on blocks and tokens. */
module DeflateLimits {
  import opened Bits
  import opened Canonical
  import opened BitStream
  import opened Deflate
  import opened DeflateStream

  /** The result with an output buffer of c bytes, from a good result without a limit. */
  ghost function Capped(r: Res, c: nat): Res
  {
    if r.Good? && |r.out| > c then Corrupt else r
  }

  lemma {:induction false} ToksCapped(fuel: nat, lit: seq<nat>, dist: seq<nat>, v: nat, pos: nat, out: seq<byte>, c: nat)
    requires |lit| <= 288 && |dist| <= 32 && |out| <= c && RunToks(fuel, lit, dist, v, pos, out, None).Good?
    ensures var r := RunToks(fuel, lit, dist, v, pos, out, None);
            |r.out| >= |out| && RunToks(fuel, lit, dist, v, pos, out, Some(c)) == Capped(r, c)
    decreases fuel
  {
    hide ReadTok, Shr;
    match ReadTok(lit, dist, Shr(v, pos))
    case Emit(u, b) =>
      if |out| + 1 <= c {
        ToksCapped(fuel - 1, lit, dist, v, pos + u, out + [b], c);
      } else {
        ToksLonger(fuel - 1, lit, dist, v, pos + u, out + [b]);
      }
    case Repeat(u, len, d) =>
      if |out| + len <= c {
        ToksCapped(fuel - 1, lit, dist, v, pos + u, CopyBack(out, len, d), c);
      } else {
        ToksLonger(fuel - 1, lit, dist, v, pos + u, CopyBack(out, len, d));
      }
    case _ =>
  }

  lemma {:induction false} ToksLonger(fuel: nat, lit: seq<nat>, dist: seq<nat>, v: nat, pos: nat, out: seq<byte>)
    requires |lit| <= 288 && |dist| <= 32 && RunToks(fuel, lit, dist, v, pos, out, None).Good?
    ensures |RunToks(fuel, lit, dist, v, pos, out, None).out| >= |out|
    decreases fuel
  {
    hide ReadTok, Shr;
    match ReadTok(lit, dist, Shr(v, pos))
    case Emit(u, b) => ToksLonger(fuel - 1, lit, dist, v, pos + u, out + [b]);
    case Repeat(u, len, d) => ToksLonger(fuel - 1, lit, dist, v, pos + u, CopyBack(out, len, d));
    case _ =>
  }

  lemma {:induction false} BlockCapped(fuel: nat, kind: nat, v: nat, size: nat, pos: nat, out: seq<byte>, c: nat)
    requires |out| <= c && RunBlock(fuel, kind, v, size, pos, out, None).Good?
    ensures var r := RunBlock(fuel, kind, v, size, pos, out, None);
            |r.out| >= |out| && RunBlock(fuel, kind, v, size, pos, out, Some(c)) == Capped(r, c)
  {
    hide RunToks, ReadCodes, StreamBytes, Low, Shr;
    if kind == 1 {
      ToksCapped(fuel, FixedLengths(), FixedDistances(), v, pos, out, c);
    } else if kind == 2 {
      var r := ReadCodes(v, pos);
      ToksCapped(fuel, r.lit, r.dist, v, r.pos, out, c);
    }
  }

  /** The size of the buffer makes no difference but this: what does not fit is an error. */
  lemma {:induction false} BlocksCapped(n: nat, fuel: nat, partial: bool, v: nat, size: nat, pos: nat, out: seq<byte>, c: nat)
    requires |out| <= c && RunBlocks(n, fuel, partial, v, size, pos, out, None).Good?
    ensures var r := RunBlocks(n, fuel, partial, v, size, pos, out, None);
            |r.out| >= |out| && RunBlocks(n, fuel, partial, v, size, pos, out, Some(c)) == Capped(r, c)
    decreases n
  {
    hide RunBlock, Low, Shr;
    var kind := Low(Shr(v, pos + 1), 2);
    BlockCapped(fuel, kind, v, size, pos + 3, out, c);
    var r := RunBlock(fuel, kind, v, size, pos + 3, out, None);
    if !(Low(Shr(v, pos), 1) == 1 || (partial && |r.out| > 65536)) {
      if |r.out| <= c {
        BlocksCapped(n - 1, fuel, partial, v, size, r.pos, r.out, c);
      } else {
        BlocksCapped(n - 1, fuel, partial, v, size, r.pos, r.out, |r.out|);
      }
    }
  }

  // ---------------------------------------------------------------- the bounds

  lemma {:induction false} ToksMore(fuel: nat, more: nat, lit: seq<nat>, dist: seq<nat>, v: nat, pos: nat, out: seq<byte>, cap: Option<nat>)
    requires |lit| <= 288 && |dist| <= 32 && fuel <= more && !RunToks(fuel, lit, dist, v, pos, out, cap).OutOfFuel?
    ensures RunToks(more, lit, dist, v, pos, out, cap) == RunToks(fuel, lit, dist, v, pos, out, cap)
    decreases fuel
  {
    hide ReadTok, Shr;
    match ReadTok(lit, dist, Shr(v, pos))
    case Emit(u, b) =>
      if !Full(cap, |out| + 1) { ToksMore(fuel - 1, more - 1, lit, dist, v, pos + u, out + [b], cap); }
    case Repeat(u, len, d) =>
      if d <= |out| && !Full(cap, |out| + len) && !(d == 0 && len > 0) {
        ToksMore(fuel - 1, more - 1, lit, dist, v, pos + u, CopyBack(out, len, d), cap);
      }
    case _ =>
  }

  lemma {:induction false} BlockMore(fuel: nat, more: nat, kind: nat, v: nat, size: nat, pos: nat, out: seq<byte>, cap: Option<nat>)
    requires fuel <= more && !RunBlock(fuel, kind, v, size, pos, out, cap).OutOfFuel?
    ensures RunBlock(more, kind, v, size, pos, out, cap) == RunBlock(fuel, kind, v, size, pos, out, cap)
  {
    hide RunToks, ReadCodes, StreamBytes, RunStored, Low, Shr;
    if kind == 1 {
      ToksMore(fuel, more, FixedLengths(), FixedDistances(), v, pos, out, cap);
    } else if kind == 2 {
      var r := ReadCodes(v, pos);
      if r.CodesGood? { ToksMore(fuel, more, r.lit, r.dist, v, r.pos, out, cap); }
    }
  }

  /** A result reached within the bounds is the result for all larger bounds. */
  lemma {:induction false} BlocksMore(n: nat, m: nat, fuel: nat, more: nat, partial: bool, v: nat, size: nat, pos: nat, out: seq<byte>, cap: Option<nat>)
    requires n <= m && fuel <= more && !RunBlocks(n, fuel, partial, v, size, pos, out, cap).OutOfFuel?
    ensures RunBlocks(m, more, partial, v, size, pos, out, cap) == RunBlocks(n, fuel, partial, v, size, pos, out, cap)
    decreases n
  {
    hide RunBlock, Low, Shr;
    var kind := Low(Shr(v, pos + 1), 2);
    var r := RunBlock(fuel, kind, v, size, pos + 3, out, cap);
    BlockMore(fuel, more, kind, v, size, pos + 3, out, cap);
    if r.Good? && !(Low(Shr(v, pos), 1) == 1 || (partial && |r.out| > 65536)) {
      BlocksMore(n - 1, m - 1, fuel, more, partial, v, size, r.pos, r.out, cap);
    }
  }

  // ---------------------------------------------------------------- the loop that does not end

  /** Past the input there are zeros. */
  lemma {:induction false} ZerosAfter(data: seq<byte>, pos: nat)
    requires pos >= 8 * |data|
    ensures Shr(BytesVal(data), pos) == 0
  {
    BytesBound(data);
    Pow2Mono(8 * |data|, pos);
    ShrZero(BytesVal(data), pos);
  }

  lemma {:induction false} BytesBound(data: seq<byte>)
    ensures BytesVal(data) < Pow2(8 * |data|)
  {
    if data != [] {
      BytesBound(data[1..]);
      Pow2Add(8, 8 * (|data| - 1));
      Pow2Values();
      hide Pow2;
      Larger(data[0], BytesVal(data[1..]), Pow2(8 * (|data| - 1)));
    }
  }

  lemma {:induction false} Larger(b: byte, x: nat, m: nat)
    requires x < m
    ensures b + 256 * x < 256 * m
  {
  }

  /** Every token takes a bit. */
  lemma {:induction false} TokTakes(lit: seq<nat>, dist: seq<nat>, w: nat)
    requires |lit| <= 288 && |dist| <= 32
    ensures match ReadTok(lit, dist, w) case Emit(u, _) => u > 0 case Stop(u) => u > 0 case Repeat(u, _, _) => u > 0 case NoCode => true
  {
    hide Low, Shr, Rev, Code, LBase, LExtra, DBase, DExtra;
  }

  /** The decoding goes on after the token. */
  predicate GoesOn(tok: Step, n: nat, cap: Option<nat>)
  {
    match tok
    case Emit(_, _) => !Full(cap, n + 1)
    case Repeat(_, len, d) => d <= n && !Full(cap, n + len) && (d > 0 || len == 0)
    case _ => false
  }

  function Used(tok: Step): nat
  {
    match tok case Emit(u, _) => u case Repeat(u, _, _) => u case Stop(u) => u case NoCode => 0
  }

  function Grown(out: seq<byte>, tok: Step): seq<byte>
  {
    match tok
    case Emit(_, b) => out + [b]
    case Repeat(_, len, d) => if len == 0 || 1 <= d <= |out| then CopyBack(out, len, d) else out
    case _ => out
  }

  lemma {:induction false} ToksStep(fuel: nat, lit: seq<nat>, dist: seq<nat>, v: nat, pos: nat, out: seq<byte>, cap: Option<nat>)
    requires |lit| <= 288 && |dist| <= 32
    ensures var tok := ReadTok(lit, dist, Shr(v, pos));
            TooFew(fuel + 1, lit, dist, v, pos, out, cap) <==>
            GoesOn(tok, |out|, cap) && TooFew(fuel, lit, dist, v, pos + Used(tok), Grown(out, tok), cap)
  {
    hide ReadTok, Shr, CopyBack;
  }

  /** What has been put out when the tokens reach the end of an input of size bytes; None if they end before. */
  ghost function AtTail(lit: seq<nat>, dist: seq<nat>, v: nat, size: nat, pos: nat, out: seq<byte>, cap: Option<nat>): Option<seq<byte>>
    requires |lit| <= 288 && |dist| <= 32
    decreases if pos <= 8 * size then 8 * size - pos else 0
  {
    if pos >= 8 * size then Some(out)
    else
      var tok := ReadTok(lit, dist, Shr(v, pos));
      if Used(tok) > 0 && GoesOn(tok, |out|, cap) then AtTail(lit, dist, v, size, pos + Used(tok), Grown(out, tok), cap) else None
  }

  /** The token of the all-zero stream can be taken for ever, with n bytes put out. */
  ghost predicate ForEver(lit: seq<nat>, dist: seq<nat>, n: nat, cap: Option<nat>)
    requires |lit| <= 288 && |dist| <= 32
  {
    match ReadTok(lit, dist, 0)
    case Emit(_, _) => cap.None?
    case Repeat(_, len, d) => d <= n && (if len == 0 then !Full(cap, n) else d > 0 && cap.None?)
    case _ => false
  }

  /** So many tokens are not enough. */
  ghost predicate TooFew(fuel: nat, lit: seq<nat>, dist: seq<nat>, v: nat, pos: nat, out: seq<byte>, cap: Option<nat>)
    requires |lit| <= 288 && |dist| <= 32
  {
    RunToks(fuel, lit, dist, v, pos, out, cap).OutOfFuel?
  }

  /** Nor are any. */
  ghost predicate Endless(lit: seq<nat>, dist: seq<nat>, v: nat, pos: nat, out: seq<byte>, cap: Option<nat>)
    requires |lit| <= 288 && |dist| <= 32
  {
    forall fuel: nat :: TooFew(fuel, lit, dist, v, pos, out, cap)
  }

  /** A block of codes is never decoded to its end, however many tokens are taken, exactly if the tokens reach the end of the input
      and the one that the zeros after it decode to can be taken for ever. */
  lemma {:induction false} NeverEnds(data: seq<byte>, lit: seq<nat>, dist: seq<nat>, pos: nat, out: seq<byte>, cap: Option<nat>)
    requires |lit| <= 288 && |dist| <= 32
    ensures var tail := AtTail(lit, dist, BytesVal(data), |data|, pos, out, cap);
            Endless(lit, dist, BytesVal(data), pos, out, cap) <==> tail.Some? && ForEver(lit, dist, |tail.value|, cap)
    decreases if pos <= 8 * |data| then 8 * |data| - pos else 0
  {
    hide ReadTok, Shr, BytesVal, CopyBack, TooFew, ForEver, GoesOn, Grown;
    var v := BytesVal(data);
    if pos >= 8 * |data| {
      if ForEver(lit, dist, |out|, cap) {
        forall fuel: nat ensures TooFew(fuel, lit, dist, v, pos, out, cap) { TailOn(fuel, data, lit, dist, pos, out, cap); }
      } else {
        TailStops(data, lit, dist, pos, out, cap);
      }
    } else {
      var tok := ReadTok(lit, dist, Shr(v, pos));
      TokTakes(lit, dist, Shr(v, pos));
      TokGoes(tok, |out|, cap);
      if GoesOn(tok, |out|, cap) {
        NeverEnds(data, lit, dist, pos + Used(tok), Grown(out, tok), cap);
        StepAll(lit, dist, v, pos, out, cap, tok);
      } else {
        ToksStep(0, lit, dist, v, pos, out, cap);
      }
    }
  }

  lemma {:induction false} TokGoes(tok: Step, n: nat, cap: Option<nat>)
    ensures GoesOn(tok, n, cap) ==> tok.Emit? || tok.Repeat?
  {
  }

  lemma {:induction false} StepAll(lit: seq<nat>, dist: seq<nat>, v: nat, pos: nat, out: seq<byte>, cap: Option<nat>, tok: Step)
    requires |lit| <= 288 && |dist| <= 32 && tok == ReadTok(lit, dist, Shr(v, pos)) && GoesOn(tok, |out|, cap)
    ensures Endless(lit, dist, v, pos, out, cap) <==> Endless(lit, dist, v, pos + Used(tok), Grown(out, tok), cap)
  {
    hide ReadTok, Shr, TooFew, GoesOn, Grown, Used;
    var p, o := pos + Used(tok), Grown(out, tok);
    if Endless(lit, dist, v, pos, out, cap) {
      forall fuel: nat ensures TooFew(fuel, lit, dist, v, p, o, cap) {
        assert TooFew(fuel + 1, lit, dist, v, pos, out, cap);
        ToksStep(fuel, lit, dist, v, pos, out, cap);
      }
    }
    if Endless(lit, dist, v, p, o, cap) {
      forall fuel: nat ensures TooFew(fuel, lit, dist, v, pos, out, cap) {
        NoFuel(lit, dist, v, pos, out, cap);
        if fuel > 0 {
          assert TooFew(fuel - 1, lit, dist, v, p, o, cap);
          ToksStep(fuel - 1, lit, dist, v, pos, out, cap);
        }
      }
    }
  }

  lemma {:induction false} NoFuel(lit: seq<nat>, dist: seq<nat>, v: nat, pos: nat, out: seq<byte>, cap: Option<nat>)
    requires |lit| <= 288 && |dist| <= 32
    ensures TooFew(0, lit, dist, v, pos, out, cap)
  {
  }

  /** Past the input, one token after the other. */
  lemma {:induction false} TailOn(fuel: nat, data: seq<byte>, lit: seq<nat>, dist: seq<nat>, pos: nat, out: seq<byte>, cap: Option<nat>)
    requires |lit| <= 288 && |dist| <= 32 && pos >= 8 * |data| && ForEver(lit, dist, |out|, cap)
    ensures TooFew(fuel, lit, dist, BytesVal(data), pos, out, cap)
    decreases fuel
  {
    hide ReadTok, Shr, BytesVal, TooFew, CopyBack;
    if fuel == 0 {
      NoFuel(lit, dist, BytesVal(data), pos, out, cap);
    } else {
      var tok := ReadTok(lit, dist, 0);
      ZerosAfter(data, pos);
      ToksStep(fuel - 1, lit, dist, BytesVal(data), pos, out, cap);
      TailOn(fuel - 1, data, lit, dist, pos + Used(tok), Grown(out, tok), cap);
    }
  }

  /** Otherwise it comes to an end: at once, or when the buffer is full. */
  lemma {:induction false} TailStops(data: seq<byte>, lit: seq<nat>, dist: seq<nat>, pos: nat, out: seq<byte>, cap: Option<nat>)
    requires |lit| <= 288 && |dist| <= 32 && pos >= 8 * |data| && !ForEver(lit, dist, |out|, cap)
    ensures !Endless(lit, dist, BytesVal(data), pos, out, cap)
    decreases if cap.Some? && |out| <= cap.value then cap.value - |out| else 0
  {
    hide ReadTok, Shr, BytesVal, TooFew, CopyBack;
    var v, tok := BytesVal(data), ReadTok(lit, dist, 0);
    ZerosAfter(data, pos);
    if GoesOn(tok, |out|, cap) {
      TailStops(data, lit, dist, pos + Used(tok), Grown(out, tok), cap);
      StepAll(lit, dist, v, pos, out, cap, tok);
    } else {
      ToksStep(0, lit, dist, v, pos, out, cap);
      assert !TooFew(1, lit, dist, v, pos, out, cap);
    }
  }
}
