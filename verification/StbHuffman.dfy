/** zbuild_huffman of DuiLib/stb_image.c: a 9-bit fast table and a preshifted slow table. */
module StbHuffman {
  import opened Bits
  import opened Canonical
  import opened BitReversal

  const ZFAST_BITS: nat := 9
  const ZFAST_SIZE: nat := 512
  const NO_FAST: nat := 0xffff

  /** Symbol i has a short code that the nine bits r start with. */
  ghost predicate FastFor(lens: seq<nat>, i: nat, r: nat)
  {
    i < |lens| && 0 < lens[i] <= ZFAST_BITS && Rev(r, lens[i]) == Code(lens, i)
  }

  /** The first n symbols are entered in size and value. */
  ghost predicate Sorted(lens: seq<nat>, n: nat, size: seq<nat>, value: seq<nat>)
  {
    n <= |lens| <= 288 && |size| == 288 && |value| == 288
    && forall i :: 0 <= i < n && lens[i] > 0 ==>
         Slot(lens, i) < 288 && size[Slot(lens, i)] == lens[i] && value[Slot(lens, i)] == i
  }

  /** The fast table holds the short codes among the first n symbols, and nothing else. */
  ghost predicate FastTable(lens: seq<nat>, n: nat, fast: seq<nat>, value: seq<nat>)
  {
    |fast| == 512 && |value| == 288
    && (forall i, r :: 0 <= i < n && 0 <= r < 512 && FastFor(lens, i, r) ==> fast[r] == Slot(lens, i))
    && (forall r :: 0 <= r < 512 && fast[r] != NO_FAST ==>
          fast[r] < 288 && value[fast[r]] < n && FastFor(lens, value[fast[r]], r) && Slot(lens, value[fast[r]]) == fast[r])
  }

  /** The three arrays indexed by code length are right for the lengths below n. */
  ghost predicate Limits(lens: seq<nat>, n: nat, firstcode: seq<nat>, firstsymbol: seq<nat>, maxcode: seq<nat>)
    requires 1 <= n <= 16
  {
    |firstcode| == 16 && |firstsymbol| == 16 && |maxcode| == 17
    && forall k :: 1 <= k < n ==>
         firstcode[k] == NextCode(lens, k) && firstsymbol[k] == Below(lens, k) && maxcode[k] == End(lens, k)
  }

  /** The zhuffman struct. */
  class Zhuffman {
    var fast: seq<nat>         // uint16[512]
    var firstcode: seq<nat>    // uint16[16]
    var maxcode: seq<nat>      // int[17]
    var firstsymbol: seq<nat>  // uint16[16]
    var size: seq<nat>         // uint8[288]
    var value: seq<nat>        // uint16[288]

    ghost predicate Shape()
      reads this
    {
      |fast| == 512 && |firstcode| == 16 && |maxcode| == 17 && |firstsymbol| == 16 && |size| == 288 && |value| == 288
    }

    constructor ()
      ensures Shape()
    {
      fast := seq(512, _ => 0);
      firstcode := seq(16, _ => 0);
      maxcode := seq(17, _ => 0);
      firstsymbol := seq(16, _ => 0);
      size := seq(288, _ => 0);
      value := seq(288, _ => 0);
    }

    /** The tables describe the canonical code of lens. */
    ghost predicate Built(lens: seq<nat>)
      reads this
    {
      ValidLens(lens) && Kraft(lens) <= SPACE
      && Sorted(lens, |lens|, size, value) && FastTable(lens, |lens|, fast, value)
      && Limits(lens, 16, firstcode, firstsymbol, maxcode) && maxcode[16] == SPACE
    }

    /** zbuild_huffman: 1 exactly when the lengths are not over-subscribed. */
    method Build(sizelist: seq<nat>) returns (ok: bool)
      requires Shape() && ValidLens(sizelist) && |sizelist| <= 288
      modifies this
      ensures Shape()
      ensures ok <==> Kraft(sizelist) <= SPACE
      ensures ok ==> Built(sizelist)
    {
      fast := seq(512, _ => NO_FAST);
      var sizes := CountSizes(sizelist);
      var next_code;
      ok, next_code := SetLimits(sizelist, sizes);
      EndIsKraft(sizelist);
      if !ok { return; }
      maxcode := maxcode[16 := 0x10000];
      Enter(sizelist, next_code);
    }

    static method CountSizes(sizelist: seq<nat>) returns (sizes: seq<nat>)
      requires ValidLens(sizelist)
      ensures |sizes| == 17 && forall k :: 1 <= k < 16 ==> sizes[k] == Count(sizelist, k)
    {
      sizes := seq(17, _ => 0);
      var i := 0;
      while i < |sizelist|
        invariant i <= |sizelist| && |sizes| == 17
        invariant forall k :: 0 <= k < 16 ==> sizes[k] == Count(sizelist[..i], k)
      {
        forall k ensures Count(sizelist[..i + 1], k) == Count(sizelist[..i], k) + if sizelist[i] == k then 1 else 0 {
          CountNext(sizelist, i, k);
        }
        sizes := sizes[sizelist[i] := sizes[sizelist[i]] + 1];
        i := i + 1;
      }
      assert sizelist[..i] == sizelist;
      sizes := sizes[0 := 0];
    }

    /** The loop over the bit lengths, with its over-subscription check. */
    method SetLimits(ghost lens: seq<nat>, sizes: seq<nat>) returns (ok: bool, next_code: seq<nat>)
      requires Shape() && ValidLens(lens) && |lens| <= 288
      requires |sizes| == 17 && forall k :: 1 <= k < 16 ==> sizes[k] == Count(lens, k)
      modifies this`firstcode, this`firstsymbol, this`maxcode
      ensures Shape()
      ensures ok <==> End(lens, 15) <= SPACE
      ensures ok ==> Limits(lens, 16, firstcode, firstsymbol, maxcode) && NextCodes(lens, 0, next_code)
    {
      next_code := seq(16, _ => 0);
      var code: nat, k: nat, i: nat := 0, 0, 1;
      LimitsInit(lens);
      assert LimitsInv(lens, i, code, k, next_code, firstcode, firstsymbol, maxcode);
      hide *;
      while i < 16
        invariant 1 <= i <= 16 && |next_code| == 16 && |firstcode| == 16 && |firstsymbol| == 16 && |maxcode| == 17
        invariant LimitsInv(lens, i, code, k, next_code, firstcode, firstsymbol, maxcode)
      {
        LimitsStep(lens, i, code, k, next_code, firstcode, firstsymbol, maxcode);
        assert sizes[i] == Count(lens, i);
        next_code := next_code[i := code];
        assert code < 0x10000 && k < 0x10000;  // the casts to uint16 keep the value
        firstcode := firstcode[i := code];
        firstsymbol := firstsymbol[i := k];
        code := code + sizes[i];
        if sizes[i] != 0 && code - 1 >= Pow2(i) {
          return false, next_code;
        }
        maxcode := maxcode[i := Shl(code, 16 - i)];
        code := 2 * code;
        k := k + sizes[i];
        i := i + 1;
      }
      LimitsDone(lens, code, k, next_code, firstcode, firstsymbol, maxcode);
      ok := true;
    }

    /** The loop body for a symbol with a code. */
    method EnterSymbol(ghost lens: seq<nat>, i: nat, s: nat, c: nat, code: nat)
      requires ValidLens(lens) && i < |lens| <= 288 && Kraft(lens) <= SPACE
      requires s == lens[i] > 0 && c == Slot(lens, i) && code == Code(lens, i)
      requires Sorted(lens, i, size, value) && FastTable(lens, i, fast, value)
      modifies this`size, this`value, this`fast
      ensures Sorted(lens, i + 1, size, value) && FastTable(lens, i + 1, fast, value)
    {
      ghost var oldFast, oldValue := fast, value;
      SortedStep(lens, i, size, value);
      SlotBound(lens, i);
      assert |fast| == 512 && |size| == 288 && |value| == 288;
      Pow2Mono(s, if s <= 9 then 9 else s);
      Pow2Values();
      BitReverseIsRev(code, if s <= 16 then s else 0);
      hide *;
      size := size[c := s];
      value := value[c := i];
      if s <= ZFAST_BITS {
        FillFast(BitReverse(code, s), s, c);
      }
      FastStep(lens, i, oldFast, oldValue, fast);
    }

    method FillFast(first: nat, s: nat, c: nat)
      requires |fast| == 512 && first < Pow2(s) <= 512
      modifies this`fast
      ensures |fast| == 512
      ensures forall r :: 0 <= r < 512 ==> fast[r] == if Low(r, s) == first then c else old(fast[r])
    {
      var k := first;
      ghost var t: nat := 0;
      ShlOne(s);
      while k < 512
        invariant |fast| == 512 && k == first + Shl(t, s)
        invariant forall r :: 0 <= r < 512 ==> fast[r] == if r < k && Low(r, s) == first then c else old(fast[r])
        decreases 512 - k
      {
        forall r: nat | k < r < k + Pow2(s) ensures Low(r, s) != first {
          NextCongruent(first, t, s, r);
        }
        Join(first, t, s);
        ShlAdd(t, 1, s);
        fast := fast[k := c];
        k := k + Pow2(s);
        t := t + 1;
      }
      forall r: nat | 0 <= r < 512 && r < first ensures Low(r, s) != first { }
    }

    /** The loop over the symbols. */
    method Enter(sizelist: seq<nat>, first: seq<nat>)
      requires Shape() && ValidLens(sizelist) && |sizelist| <= 288 && Kraft(sizelist) <= SPACE
      requires NextCodes(sizelist, 0, first)
      requires Limits(sizelist, 16, firstcode, firstsymbol, maxcode)
      requires forall r :: 0 <= r < 512 ==> fast[r] == NO_FAST
      modifies this`size, this`value, this`fast
      ensures Sorted(sizelist, |sizelist|, size, value) && FastTable(sizelist, |sizelist|, fast, value)
    {
      var next_code := first;
      var i := 0;
      hide Count, NextCode, Below, End, Shl, Pow2, Kraft, Rev, Code, Rank, Slot, FastFor;
      assert Sorted(sizelist, 0, size, value) && FastTable(sizelist, 0, fast, value);
      hide Sorted, FastTable, Limits, NextCodes, ValidLens;
      while i < |sizelist|
        invariant i <= |sizelist| && |next_code| == 16 && |firstcode| == 16 && |firstsymbol| == 16
        invariant NextCodes(sizelist, i, next_code)
        invariant Sorted(sizelist, i, size, value) && FastTable(sizelist, i, fast, value) && Limits(sizelist, 16, firstcode, firstsymbol, maxcode)
      {
        var s := sizelist[i];
        NextCodesStep(sizelist, i, next_code);
        if s != 0 {
          CodeOf(sizelist, i, next_code);
          var c := next_code[s] - firstcode[s] + firstsymbol[s];
          EnterSymbol(sizelist, i, s, c, next_code[s]);
          next_code := next_code[s := next_code[s] + 1];
        } else {
          SkipStep(sizelist, i, size, value, fast);
        }
        i := i + 1;
      }
    }

    lemma CodeOf(lens: seq<nat>, i: nat, next_code: seq<nat>)
      requires ValidLens(lens) && i < |lens| && lens[i] > 0 && NextCodes(lens, i, next_code) && Limits(lens, 16, firstcode, firstsymbol, maxcode)
      ensures next_code[lens[i]] == Code(lens, i) >= firstcode[lens[i]]
      ensures next_code[lens[i]] - firstcode[lens[i]] + firstsymbol[lens[i]] == Slot(lens, i)
    {
    }
  }

  /** next_code[s] is the code of the next symbol of length s, the first n symbols being done. */
  ghost predicate NextCodes(lens: seq<nat>, n: nat, next_code: seq<nat>)
  {
    n <= |lens| && |next_code| == 16
    && forall s :: 1 <= s < 16 ==> next_code[s] == NextCode(lens, s) + Count(lens[..n], s)
  }

  lemma {:induction false} NextCodesStep(lens: seq<nat>, n: nat, next_code: seq<nat>)
    requires ValidLens(lens) && n < |lens| && NextCodes(lens, n, next_code)
    ensures NextCodes(lens, n + 1,
              if lens[n] == 0 then next_code else next_code[lens[n] := next_code[lens[n]] + 1])
  {
    forall k ensures Count(lens[..n + 1], k) == Count(lens[..n], k) + if lens[n] == k then 1 else 0 {
      CountNext(lens, n, k);
    }
  }

  ghost predicate LimitsInv(lens: seq<nat>, i: nat, code: nat, k: nat, next_code: seq<nat>,
                            firstcode: seq<nat>, firstsymbol: seq<nat>, maxcode: seq<nat>)
  {
    1 <= i <= 16 && |next_code| == 16
    && code == NextCode(lens, i) && k == Below(lens, i) && End(lens, i - 1) <= SPACE
    && Limits(lens, i, firstcode, firstsymbol, maxcode)
    && forall s :: 1 <= s < i ==> next_code[s] == NextCode(lens, s)
  }

  lemma {:induction false} LimitsInit(lens: seq<nat>)
    ensures NextCode(lens, 1) == 0 && Below(lens, 1) == 0 && End(lens, 0) == 0
  {
  }

  lemma {:induction false} LimitsStep(lens: seq<nat>, i: nat, code: nat, k: nat, next_code: seq<nat>,
                                      firstcode: seq<nat>, firstsymbol: seq<nat>, maxcode: seq<nat>)
    requires i < 16 && |lens| <= 288 && LimitsInv(lens, i, code, k, next_code, firstcode, firstsymbol, maxcode)
    ensures code < 0x10000 && k < 0x10000
    ensures Count(lens, i) != 0 && code + Count(lens, i) - 1 >= Pow2(i) ==> End(lens, 15) > SPACE
    ensures !(Count(lens, i) != 0 && code + Count(lens, i) - 1 >= Pow2(i)) ==>
              LimitsInv(lens, i + 1, 2 * (code + Count(lens, i)), k + Count(lens, i), next_code[i := code],
                        firstcode[i := code], firstsymbol[i := k], maxcode[i := Shl(code + Count(lens, i), 16 - i)])
  {
    LimitCheck(lens, i);
    LimitsRecur(lens, i);
    BelowBound(lens, i);
    EndMono(lens, i, 15);
    hide Count, NextCode, Below, End, Shl, Pow2;
  }

  lemma {:induction false} LimitsDone(lens: seq<nat>, code: nat, k: nat, next_code: seq<nat>,
                                      firstcode: seq<nat>, firstsymbol: seq<nat>, maxcode: seq<nat>)
    requires LimitsInv(lens, 16, code, k, next_code, firstcode, firstsymbol, maxcode)
    ensures End(lens, 15) <= SPACE
    ensures Limits(lens, 16, firstcode, firstsymbol, maxcode) && NextCodes(lens, 0, next_code)
  {
    assert lens[..0] == [];
  }

  lemma {:induction false} SkipStep(lens: seq<nat>, i: nat, size: seq<nat>, value: seq<nat>, fast: seq<nat>)
    requires i < |lens| && lens[i] == 0 && Sorted(lens, i, size, value) && FastTable(lens, i, fast, value)
    ensures Sorted(lens, i + 1, size, value) && FastTable(lens, i + 1, fast, value)
  {
    hide Slot;
  }

  lemma {:induction false} SortedStep(lens: seq<nat>, i: nat, size: seq<nat>, value: seq<nat>)
    requires i < |lens| && lens[i] > 0 && Sorted(lens, i, size, value)
    ensures Slot(lens, i) < 288
    ensures Sorted(lens, i + 1, size[Slot(lens, i) := lens[i]], value[Slot(lens, i) := i])
  {
    SlotBound(lens, i);
    forall j | 0 <= j < i && lens[j] > 0 && Slot(lens, j) == Slot(lens, i) ensures false {
      SlotInjective(lens, i, j);
    }
    hide Slot;
  }

  /** The table after the fill: the indices that start with the code of symbol i now name it. */
  lemma {:induction false} FastStep(lens: seq<nat>, i: nat, fast: seq<nat>, value: seq<nat>, fast': seq<nat>)
    requires ValidLens(lens) && i < |lens| <= 288 && Kraft(lens) <= SPACE && lens[i] > 0 && Slot(lens, i) < 288
    requires FastTable(lens, i, fast, value) && |fast'| == 512
    requires forall r :: 0 <= r < 512 ==>
      fast'[r] == if lens[i] <= ZFAST_BITS && Low(r, lens[i]) == Rev(Code(lens, i), lens[i]) then Slot(lens, i) else fast[r]
    ensures FastTable(lens, i + 1, fast', value[Slot(lens, i) := i])
  {
    forall r: nat ensures FastFor(lens, i, r) <==> lens[i] <= ZFAST_BITS && Low(r, lens[i]) == Rev(Code(lens, i), lens[i]) {
      if lens[i] <= ZFAST_BITS { FastIndices(lens, i, r); }
    }
    forall j, r | FastFor(lens, i, r) && FastFor(lens, j, r) ensures i == j {
      FastUnique(lens, i, j, r);
    }
    hide Low, Rev, Code;
    FastStepAt(lens, i, fast, value, fast');
  }

  lemma {:induction false} FastStepAt(lens: seq<nat>, i: nat, fast: seq<nat>, value: seq<nat>, fast': seq<nat>)
    requires i < |lens| && lens[i] > 0 && Slot(lens, i) < 288
    requires FastTable(lens, i, fast, value) && |fast'| == 512
    requires forall r: nat :: r < 512 ==> fast'[r] == if FastFor(lens, i, r) then Slot(lens, i) else fast[r]
    requires forall j: nat, r: nat :: FastFor(lens, i, r) && FastFor(lens, j, r) ==> i == j
    ensures FastTable(lens, i + 1, fast', value[Slot(lens, i) := i])
  {
    var value' := value[Slot(lens, i) := i];
    forall r | 0 <= r < 512 && fast'[r] != NO_FAST
      ensures fast'[r] < 288 && value'[fast'[r]] < i + 1 && FastFor(lens, value'[fast'[r]], r) && Slot(lens, value'[fast'[r]]) == fast'[r]
    {
      if !FastFor(lens, i, r) {
        assert fast'[r] == fast[r];
        if fast[r] == Slot(lens, i) {
          SlotInjective(lens, i, value[fast[r]]);
        }
      }
    }
    hide Slot, FastFor;
  }

  lemma {:induction false} CodeBelow(lens: seq<nat>, i: nat)
    requires ValidLens(lens) && i < |lens| && lens[i] > 0 && Kraft(lens) <= SPACE
    ensures Code(lens, i) < Pow2(lens[i])
  {
    EndIsKraft(lens);
    EndMono(lens, lens[i] - 1, 15);
    EndMono(lens, lens[i], 15);
    LimitStep(lens, lens[i]);
    RankBelowCount(lens, i);
  }

  /** The table indices that start with a code are those congruent to the reversed code. */
  lemma {:induction false} FastIndices(lens: seq<nat>, i: nat, r: nat)
    requires ValidLens(lens) && i < |lens| && 0 < lens[i] <= ZFAST_BITS && Kraft(lens) <= SPACE
    ensures FastFor(lens, i, r) <==> Low(r, lens[i]) == Rev(Code(lens, i), lens[i])
  {
    CodeBelow(lens, i);
    RevRev(r, lens[i]);
    RevRev(Code(lens, i), lens[i]);
    ShrZero(Code(lens, i), lens[i]);
    RevRev(Rev(Code(lens, i), lens[i]), lens[i]);
    RevLow(r, lens[i], lens[i]);
  }

  lemma {:induction false} FastUnique(lens: seq<nat>, i: nat, j: nat, r: nat)
    requires ValidLens(lens) && FastFor(lens, i, r) && FastFor(lens, j, r)
    ensures i == j
  {
    assert Reads(lens, i, r) && Reads(lens, j, r);
    ReadsUnique(lens, i, j, r);
  }

  lemma {:induction false} NextCongruent(first: nat, t: nat, s: nat, r: nat)
    requires first < Pow2(s) && first + Shl(t, s) < r < first + Shl(t, s) + Pow2(s)
    ensures Low(r, s) != first
  {
    Split(r, s);
    var u := Shr(r, s);
    if u < t { ShlMono(u, t, s); }
    if u > t { ShlMono(t, u, s); }
  }

  /** code - 1 >= (1 << i) says that the codes up to length i overflow the code space. */
  lemma {:induction false} LimitStep(lens: seq<nat>, i: nat)
    requires 1 <= i <= 15 && End(lens, i - 1) <= SPACE
    ensures NextCode(lens, i) < 0x10000
    ensures Shl(NextCode(lens, i) + Count(lens, i), 16 - i) == End(lens, i)
    ensures NextCode(lens, i) + Count(lens, i) <= Pow2(i) <==> End(lens, i) <= SPACE
    ensures Count(lens, i) == 0 ==> NextCode(lens, i) + Count(lens, i) <= Pow2(i)
  {
    assert End(lens, i) == End(lens, i - 1) + Shl(Count(lens, i), 16 - i);
    hide *;
    NextCodeEnd(lens, i);
    ShlAdd(NextCode(lens, i), Count(lens, i), 16 - i);
    ShlOne(16 - i);
    Pow2Values();
    WholeSpace(i);
    ShlOrder(NextCode(lens, i) + Count(lens, i), Pow2(i), 16 - i);
    ShlOrder(NextCode(lens, i), Pow2(i), 16 - i);
    Pow2Mono(i, 15);
  }

  lemma {:induction false} ShlOrder(a: nat, b: nat, k: nat)
    ensures a <= b <==> Shl(a, k) <= Shl(b, k)
  {
    hide Shl;
    if a > b { ShlMono(b, a, k); }
    if a < b { ShlMono(a, b, k); }
  }

  lemma {:induction false} LimitCheck(lens: seq<nat>, i: nat)
    requires 1 <= i <= 15 && End(lens, i - 1) <= SPACE
    ensures NextCode(lens, i) < 0x10000
    ensures Shl(NextCode(lens, i) + Count(lens, i), 16 - i) == End(lens, i)
    ensures Count(lens, i) != 0 && NextCode(lens, i) + Count(lens, i) - 1 >= Pow2(i) <==> End(lens, i) > SPACE
  {
    LimitStep(lens, i);
    hide *;
  }

  lemma {:induction false} LimitsRecur(lens: seq<nat>, i: nat)
    ensures NextCode(lens, i + 1) == if i == 0 then 0 else 2 * (NextCode(lens, i) + Count(lens, i))
    ensures Below(lens, i + 1) == if i == 0 then 0 else Below(lens, i) + Count(lens, i)
    ensures End(lens, 0) == 0
  {
  }

  lemma {:induction false} WholeSpace(i: nat)
    requires i <= 16
    ensures Shl(Pow2(i), 16 - i) == SPACE
  {
    hide Shl, Pow2;
    ShlOne(i);
    ShlShl(1, i, 16 - i);
    ShlOne(16);
    Pow2Values();
  }
}
