/** The canonical Huffman code of section 3.2.2 of RFC 1951, stated on code lengths alone.
    Codes are placed side by side in a code space of 2^16 positions: a code of length n owns the
    2^(16-n) positions whose first n bits are the code. */
module Canonical {
  import opened Bits

  datatype Option<+T> = None | Some(value: T)

  const MAXBITS: nat := 15
  const SPACE: nat := 0x10000

  ghost predicate ValidLens(lens: seq<nat>)
  {
    forall i :: 0 <= i < |lens| ==> lens[i] <= MAXBITS
  }

  /** bl_count[k] of RFC 1951. */
  function Count(lens: seq<nat>, k: nat): (n: nat)
    ensures n <= |lens|
  {
    if lens == [] then 0
    else Count(lens[..|lens| - 1], k) + if lens[|lens| - 1] == k then 1 else 0
  }

  /** next_code[k] of RFC 1951, step 2. */
  function NextCode(lens: seq<nat>, k: nat): nat
  {
    if k <= 1 then 0 else 2 * (NextCode(lens, k - 1) + Count(lens, k - 1))
  }

  /** How many earlier symbols share the length of symbol i. */
  function Rank(lens: seq<nat>, i: nat): nat
    requires i < |lens|
  {
    Count(lens[..i], lens[i])
  }

  /** The code of symbol i, RFC 1951, step 3. */
  function Code(lens: seq<nat>, i: nat): nat
    requires i < |lens|
  {
    NextCode(lens, lens[i]) + Rank(lens, i)
  }

  /** The stream b starts with the code of symbol i, most significant code bit first. */
  ghost predicate Reads(lens: seq<nat>, i: nat, b: nat)
  {
    i < |lens| && lens[i] > 0 && Rev(b, lens[i]) == Code(lens, i)
  }

  /** The symbol whose code the stream b starts with. */
  ghost function Decode(lens: seq<nat>, b: nat): (r: Option<nat>)
    ensures r.Some? ==> Reads(lens, r.value, b)
    ensures r.None? ==> forall i :: !Reads(lens, i, b)
  {
    if exists i :: Reads(lens, i, b) then
      var i :| Reads(lens, i, b);
      Some(i)
    else None
  }

  /** The Kraft sum in units of 2^-16. */
  function Kraft(lens: seq<nat>): nat
    requires ValidLens(lens)
  {
    if lens == [] then 0
    else Kraft(lens[..|lens| - 1]) + if lens[|lens| - 1] == 0 then 0 else Pow2(16 - lens[|lens| - 1])
  }

  function Zeros(n: nat): seq<nat> { seq(n, _ => 0) }

  /** Symbols without a code take no code space. */
  lemma {:induction false} KraftPad(a: seq<nat>, z: seq<nat>)
    requires ValidLens(a) && forall i :: 0 <= i < |z| ==> z[i] == 0
    ensures ValidLens(a + z) && Kraft(a + z) == Kraft(a)
  {
    if z == [] {
      assert a + z == a;
    } else {
      var n := |z| - 1;
      KraftPad(a, z[..n]);
      assert (a + z)[..|a| + n] == a + z[..n];
    }
  }

  /** The first position after all codes of length at most k. */
  function End(lens: seq<nat>, k: nat): nat
    requires k <= 16
  {
    if k == 0 then 0 else End(lens, k - 1) + Shl(Count(lens, k), 16 - k)
  }

  /** The first position that symbol i owns. */
  function Start(lens: seq<nat>, i: nat): nat
    requires i < |lens| && lens[i] <= 16
  {
    Shl(Code(lens, i), 16 - lens[i])
  }

  ghost predicate Covers(lens: seq<nat>, i: nat, q: nat)
  {
    i < |lens| && 0 < lens[i] <= 16 && Start(lens, i) <= q < Start(lens, i) + Pow2(16 - lens[i])
  }

  // ---------------------------------------------------------------- counting

  lemma {:induction false} CountMono(lens: seq<nat>, i: nat, k: nat)
    requires i <= |lens|
    ensures Count(lens[..i], k) <= Count(lens, k)
    decreases |lens|
  {
    if i < |lens| {
      assert lens[..|lens| - 1][..i] == lens[..i];
      CountMono(lens[..|lens| - 1], i, k);
    } else {
      assert lens[..i] == lens;
    }
  }

  lemma {:induction false} CountNext(lens: seq<nat>, i: nat, k: nat)
    requires i < |lens|
    ensures Count(lens[..i + 1], k) == Count(lens[..i], k) + if lens[i] == k then 1 else 0
  {
    assert lens[..i + 1][..i] == lens[..i];
  }

  lemma {:induction false} RankBelowCount(lens: seq<nat>, i: nat)
    requires i < |lens|
    ensures Rank(lens, i) < Count(lens, lens[i])
  {
    CountNext(lens, i, lens[i]);
    CountMono(lens, i + 1, lens[i]);
  }

  lemma {:induction false} RankInjective(lens: seq<nat>, i: nat, j: nat)
    requires i < j < |lens| && lens[i] == lens[j]
    ensures Rank(lens, i) < Rank(lens, j)
  {
    CountNext(lens, i, lens[i]);
    assert lens[..j][..i + 1] == lens[..i + 1];
    CountMono(lens[..j], i + 1, lens[i]);
  }

  lemma {:induction false} RankSurjective(lens: seq<nat>, k: nat, r: nat) returns (i: nat)
    requires r < Count(lens, k)
    ensures i < |lens| && lens[i] == k && Rank(lens, i) == r
  {
    var n := |lens| - 1;
    if lens[n] == k && Count(lens[..n], k) == r {
      i := n;
    } else {
      i := RankSurjective(lens[..n], k, r);
      assert lens[..n][..i] == lens[..i];
    }
  }

  // ---------------------------------------------------------------- positions

  lemma {:induction false} NextCodeEnd(lens: seq<nat>, k: nat)
    requires 1 <= k <= 16
    ensures Shl(NextCode(lens, k), 16 - k) == End(lens, k - 1)
  {
    if k > 1 {
      NextCodeEnd(lens, k - 1);
      ShlAdd(NextCode(lens, k - 1), Count(lens, k - 1), 16 - (k - 1));
      ShlHalf(NextCode(lens, k - 1) + Count(lens, k - 1), 16 - k);
    } else {
      ShlMul(0, 15);
    }
  }

  lemma {:induction false} StartAt(lens: seq<nat>, i: nat)
    requires i < |lens| && 1 <= lens[i] <= 16
    ensures Start(lens, i) == End(lens, lens[i] - 1) + Shl(Rank(lens, i), 16 - lens[i])
    ensures Start(lens, i) + Pow2(16 - lens[i]) <= End(lens, lens[i])
  {
    var k := lens[i];
    NextCodeEnd(lens, k);
    ShlAdd(NextCode(lens, k), Rank(lens, i), 16 - k);
    RankBelowCount(lens, i);
    ShlMono(Rank(lens, i), Count(lens, k), 16 - k);
  }

  lemma {:induction false} EndMono(lens: seq<nat>, a: nat, b: nat)
    requires a <= b <= 16
    ensures End(lens, a) <= End(lens, b)
    decreases b
  {
    if a < b { EndMono(lens, a, b - 1); }
  }

  /** No two symbols own a common position: the code is prefix-free. */
  lemma {:induction false} CoverUnique(lens: seq<nat>, i: nat, j: nat, q: nat)
    requires Covers(lens, i, q) && Covers(lens, j, q)
    ensures i == j
  {
    if i != j {
      var a, b := if lens[i] < lens[j] || (lens[i] == lens[j] && i < j) then i else j,
                  if lens[i] < lens[j] || (lens[i] == lens[j] && i < j) then j else i;
      StartAt(lens, a);
      StartAt(lens, b);
      if lens[a] == lens[b] {
        RankInjective(lens, a, b);
        ShlMono(Rank(lens, a), Rank(lens, b), 16 - lens[a]);
      } else {
        EndMono(lens, lens[a], lens[b] - 1);
      }
      assert false;
    }
  }

  /** Every position below End(k) is owned by a symbol of length at most k. */
  lemma {:induction false} CoverExists(lens: seq<nat>, k: nat, q: nat) returns (i: nat)
    requires k <= 16 && q < End(lens, k)
    ensures Covers(lens, i, q) && lens[i] <= k
  {
    if q < End(lens, k - 1) {
      i := CoverExists(lens, k - 1, q);
    } else {
      var d := q - End(lens, k - 1);
      var r := Shr(d, 16 - k);
      ShrInterval(d, r, 16 - k);
      if r >= Count(lens, k) {
        if r > Count(lens, k) { ShlMono(Count(lens, k), r, 16 - k); }
        assert false;
      }
      i := RankSurjective(lens, k, r);
      StartAt(lens, i);
    }
  }

  lemma {:induction false} CoverBelowEnd(lens: seq<nat>, i: nat, q: nat)
    requires Covers(lens, i, q)
    ensures End(lens, lens[i] - 1) <= q < End(lens, lens[i])
  {
    StartAt(lens, i);
  }

  lemma {:induction false} ReadsIsCovers(lens: seq<nat>, i: nat, b: nat)
    requires i < |lens| && lens[i] <= 16
    ensures Reads(lens, i, b) <==> Covers(lens, i, Rev(b, 16))
  {
    if lens[i] > 0 {
      TopOfRev(b, lens[i], 16);
      ShrInterval(Rev(b, 16), Code(lens, i), 16 - lens[i]);
    }
  }

  /** At most one code can be read from a stream, whatever the lengths are. */
  lemma {:induction false} ReadsUnique(lens: seq<nat>, i: nat, j: nat, b: nat)
    requires ValidLens(lens) && Reads(lens, i, b) && Reads(lens, j, b)
    ensures i == j
  {
    ReadsIsCovers(lens, i, b);
    ReadsIsCovers(lens, j, b);
    CoverUnique(lens, i, j, Rev(b, 16));
  }

  lemma {:induction false} DecodeIs(lens: seq<nat>, i: nat, b: nat)
    requires ValidLens(lens) && Reads(lens, i, b)
    ensures Decode(lens, b) == Some(i)
  {
    ReadsUnique(lens, i, Decode(lens, b).value, b);
  }

  /** A code is read exactly when the position is below the end of the code space in use. */
  lemma {:induction false} DecodeTotal(lens: seq<nat>, b: nat)
    requires ValidLens(lens)
    ensures Decode(lens, b).Some? <==> Rev(b, 16) < End(lens, 15)
  {
    var q := Rev(b, 16);
    if q < End(lens, 15) {
      var i := CoverExists(lens, 15, q);
      ReadsIsCovers(lens, i, b);
    } else if Decode(lens, b).Some? {
      var i := Decode(lens, b).value;
      ReadsIsCovers(lens, i, b);
      CoverBelowEnd(lens, i, q);
      EndMono(lens, lens[i], 15);
      assert false;
    }
  }

  // ---------------------------------------------------------------- the Kraft sum

  lemma {:induction false} EndAppend(lens: seq<nat>, k: nat)
    requires lens != [] && k <= 16
    ensures var l := lens[|lens| - 1];
            End(lens, k) == End(lens[..|lens| - 1], k) + if 0 < l <= k then Pow2(16 - l) else 0
  {
    if k > 0 {
      EndAppend(lens, k - 1);
      var c := Count(lens[..|lens| - 1], k);
      ShlAdd(c, 1, 16 - k);
      ShlOne(16 - k);
    }
  }

  /** The end of the code space in use is the Kraft sum. */
  lemma {:induction false} EndIsKraft(lens: seq<nat>)
    requires ValidLens(lens)
    ensures End(lens, 15) == Kraft(lens)
  {
    if lens == [] {
      EndEmpty(15);
    } else {
      EndIsKraft(lens[..|lens| - 1]);
      EndAppend(lens, 15);
    }
  }

  lemma {:induction false} EndEmpty(k: nat)
    requires k <= 16
    ensures End([], k) == 0
  {
    if k > 0 {
      EndEmpty(k - 1);
      ShlOne(16 - k);
    }
  }

  // ---------------------------------------------------------------- symbols sorted by code length

  /** The number of symbols with a code shorter than k. */
  function Below(lens: seq<nat>, k: nat): nat
  {
    if k <= 1 then 0 else Below(lens, k - 1) + Count(lens, k - 1)
  }

  /** The place of symbol i when symbols are sorted by code length, then by number. */
  function Slot(lens: seq<nat>, i: nat): nat
    requires i < |lens|
  {
    Below(lens, lens[i]) + Rank(lens, i)
  }

  lemma {:induction false} BelowAppend(lens: seq<nat>, k: nat)
    requires lens != []
    ensures Below(lens, k) == Below(lens[..|lens| - 1], k) + if 0 < lens[|lens| - 1] < k then 1 else 0
  {
    if k > 1 { BelowAppend(lens, k - 1); }
  }

  lemma {:induction false} BelowBound(lens: seq<nat>, k: nat)
    ensures Below(lens, k) <= |lens|
  {
    if lens == [] {
      BelowEmpty(k);
    } else {
      BelowAppend(lens, k);
      BelowBound(lens[..|lens| - 1], k);
    }
  }

  lemma {:induction false} BelowEmpty(k: nat)
    ensures Below([], k) == 0
  {
    if k > 1 { BelowEmpty(k - 1); }
  }

  lemma {:induction false} BelowMono(lens: seq<nat>, a: nat, b: nat)
    requires a <= b
    ensures Below(lens, a) <= Below(lens, b)
    decreases b
  {
    if a < b { BelowMono(lens, a, b - 1); }
  }

  lemma {:induction false} SlotBound(lens: seq<nat>, i: nat)
    requires i < |lens| && lens[i] > 0
    ensures Slot(lens, i) < Below(lens, lens[i] + 1) <= |lens|
  {
    RankBelowCount(lens, i);
    BelowBound(lens, lens[i] + 1);
  }

  lemma {:induction false} SlotInjective(lens: seq<nat>, i: nat, j: nat)
    requires i < |lens| && j < |lens| && lens[i] > 0 && lens[j] > 0 && Slot(lens, i) == Slot(lens, j)
    ensures i == j
  {
    if i != j {
      var a, b := if lens[i] < lens[j] || (lens[i] == lens[j] && i < j) then i else j,
                  if lens[i] < lens[j] || (lens[i] == lens[j] && i < j) then j else i;
      if lens[a] == lens[b] {
        RankInjective(lens, a, b);
      } else {
        SlotBound(lens, a);
        BelowMono(lens, lens[a] + 1, lens[b]);
      }
      assert false;
    }
  }
}
