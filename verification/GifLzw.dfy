/** The LZW code of GIF89a, Appendix F, as a list of strings: what a code means, the decoding of a stream of codes of growing
    width, and an encoder to check it against. */
module GifLzw {
  import opened Bits
  import opened Canonical

  /** The table size of the decoder. */
  const LIMIT: nat := 4096

  /** The clear code, the strings of all codes (none for the clear and end codes), and the code before. */
  datatype Lz = Lz(clear: nat, dict: seq<seq<byte>>, prev: Option<nat>)

  predicate Special(clear: nat, c: int) { c == clear || c == clear + 1 }

  function Fresh(clear: nat): Lz
  {
    Lz(clear, seq(clear, i requires 0 <= i => [i % 256]) + [[], []], None)
  }

  ghost predicate Wf(lz: Lz)
  {
    lz.clear <= LIMIT && lz.clear + 2 <= |lz.dict| && (|lz.dict| > lz.clear + 2 ==> |lz.dict| <= LIMIT)
    && (forall i :: 0 <= i < |lz.dict| && !Special(lz.clear, i) ==> lz.dict[i] != [])
    && match lz.prev
       case None => |lz.dict| == lz.clear + 2
       case Some(o) => o < |lz.dict| && !Special(lz.clear, o)
  }

  datatype Effect = Emit(lz: Lz, s: seq<byte>) | Bad

  /** What a code other than the two special ones does: it adds the string before it, followed by its own first symbol, and
      stands for a string that may be the one just added. */
  ghost function Take(lz: Lz, c: nat): Effect
    requires Wf(lz) && !Special(lz.clear, c)
  {
    if c > |lz.dict| then Bad
    else match lz.prev
      case None => if c == |lz.dict| then Bad else Emit(lz.(prev := Some(c)), lz.dict[c])
      case Some(o) =>
        if |lz.dict| >= LIMIT then Bad
        else
          var first := if c < |lz.dict| then lz.dict[c][0] else lz.dict[o][0];
          var dict := lz.dict + [lz.dict[o] + [first]];
          Emit(Lz(lz.clear, dict, Some(c)), dict[c])
  }

  lemma {:induction false} TakeWf(lz: Lz, c: nat)
    requires Wf(lz) && !Special(lz.clear, c) && Take(lz, c).Emit?
    ensures Wf(Take(lz, c).lz) && Take(lz, c).s != [] && Take(lz, c).lz.clear == lz.clear
    ensures |Take(lz, c).lz.dict| == |lz.dict| + if lz.prev.Some? then 1 else 0
  {
  }

  lemma {:induction false} FreshWf(clear: nat)
    requires clear <= LIMIT
    ensures Wf(Fresh(clear)) && Fresh(clear).clear == clear && |Fresh(clear).dict| == clear + 2
    ensures forall i :: 0 <= i < clear ==> Fresh(clear).dict[i] == [i % 256]
  {
  }

  // ---------------------------------------------------------------- streams of codes

  /** The width of the next code. */
  function NextSize(size: nat, avail: nat): nat
  {
    if Low(avail, size) == 0 && avail <= 0x0fff then size + 1 else size
  }

  lemma {:induction false} NextPositive(size: nat, avail: nat)
    requires size > 0
    ensures NextSize(size, avail) > 0
  {
    hide Low;
  }

  /** The image is done, or the data are corrupt; and what was put out. */
  datatype Raster = Done(out: seq<byte>) | Corrupt(out: seq<byte>)

  /** Where decoding stands: table, code width, and whether a clear code is still missing. */
  datatype Place = Place(lz: Lz, size: nat, first: bool)

  /** Decoding the n bits of v from bit pos on; cs is the minimum code size. */
  ghost function DecodeCodes(cs: nat, v: nat, n: nat, pos: nat, p: Place, out: seq<byte>): Raster
    requires Wf(p.lz) && p.size > 0 && p.lz.clear == Pow2(cs) && cs <= 12
    decreases if pos <= n then n - pos else 0
  {
    Pow2Mono(cs, 12);
    if pos + p.size > n then Done(out)
    else
      var c := Low(Shr(v, pos), p.size);
      if c == p.lz.clear then
        FreshWf(c);
        DecodeCodes(cs, v, n, pos + p.size, Place(Fresh(c), cs + 1, false), out)
      else if c == p.lz.clear + 1 then Done(out)
      else if p.first || Take(p.lz, c).Bad? then Corrupt(out)
      else
        TakeWf(p.lz, c);
        var e := Take(p.lz, c);
        DecodeCodes(cs, v, n, pos + p.size, Place(e.lz, NextSize(p.size, |e.lz.dict|), false), out + e.s)
  }

  // ---------------------------------------------------------------- an encoder

  ghost predicate NonEmpty(ps: seq<seq<byte>>)
    ensures NonEmpty(ps) && ps != [] ==> NonEmpty(ps[..|ps| - 1])
  {
    forall i :: 0 <= i < |ps| ==> ps[i] != []
  }

  /** The encoder's table after the phrases ps, of which the last has not been followed by anything: every phrase but the
      last has been entered with the first symbol of the next. */
  ghost function Table(clear: nat, ps: seq<seq<byte>>): seq<seq<byte>>
    requires NonEmpty(ps)
    decreases |ps|
  {
    if |ps| <= 1 then Fresh(clear).dict
    else Table(clear, ps[..|ps| - 1]) + [ps[|ps| - 2] + [ps[|ps| - 1][0]]]
  }

  /** A way to cut symbols into phrases such that each is in the table when its turn comes, the longest match being one of
      them. */
  ghost predicate Phrases(clear: nat, ps: seq<seq<byte>>)
    decreases |ps|
  {
    NonEmpty(ps)
    && (ps == [] || (Phrases(clear, ps[..|ps| - 1]) && InTable(clear, ps)))
  }

  /** The last phrase has a code. */
  ghost predicate InTable(clear: nat, ps: seq<seq<byte>>)
    requires ps != [] && NonEmpty(ps)
  {
    var dict, p := Table(clear, ps), ps[|ps| - 1];
    exists c: nat :: Stands(dict, clear, c, p)
  }

  ghost predicate Stands(dict: seq<seq<byte>>, clear: nat, c: nat, p: seq<byte>)
  {
    c < |dict| && !Special(clear, c) && dict[c] == p
  }

  /** The codes of the phrases. */
  ghost function Encode(clear: nat, ps: seq<seq<byte>>): (cs: seq<nat>)
    requires Phrases(clear, ps)
    ensures |cs| == |ps|
    decreases |ps|
  {
    if ps == [] then []
    else
      var dict, p := Table(clear, ps), ps[|ps| - 1];
      var c: nat :| Stands(dict, clear, c, p);
      Encode(clear, ps[..|ps| - 1]) + [c]
  }

  function Concat(ps: seq<seq<byte>>): seq<byte>
  {
    if ps == [] then [] else Concat(ps[..|ps| - 1]) + ps[|ps| - 1]
  }

  /** The decoder on a list of codes. */
  ghost function TakeAll(lz: Lz, cs: seq<nat>): Effect
    requires Wf(lz) && forall c :: c in cs ==> !Special(lz.clear, c)
    ensures var r := TakeAll(lz, cs); r.Emit? ==> Wf(r.lz) && r.lz.clear == lz.clear
    decreases |cs|
  {
    if cs == [] then Emit(lz, [])
    else
      match TakeAll(lz, cs[..|cs| - 1])
      case Bad => Bad
      case Emit(l, s) =>
        match Take(l, cs[|cs| - 1])
        case Bad => Bad
        case Emit(l2, s2) =>
          TakeWf(l, cs[|cs| - 1]);
          Emit(l2, s + s2)
  }

  lemma {:induction false} EncodePlain(clear: nat, ps: seq<seq<byte>>)
    requires Phrases(clear, ps)
    ensures forall c :: c in Encode(clear, ps) ==> !Special(clear, c)
    decreases |ps|
  {
    hide Table;
    if ps != [] { EncodePlain(clear, ps[..|ps| - 1]); }
  }

  lemma {:induction false} TableSize(clear: nat, ps: seq<seq<byte>>)
    requires NonEmpty(ps)
    ensures |Table(clear, ps)| == clear + 2 + if ps == [] then 0 else |ps| - 1
    decreases |ps|
  {
    if |ps| > 1 { TableSize(clear, ps[..|ps| - 1]); }
  }

  /** The decoder's table after the codes of ps is the encoder's before the last phrase is followed by anything. */
  lemma {:induction false} LzwRoundTrip(clear: nat, ps: seq<seq<byte>>)
    requires clear <= LIMIT && Phrases(clear, ps) && clear + 1 + |ps| <= LIMIT
    ensures Wf(Fresh(clear)) && forall c :: c in Encode(clear, ps) ==> !Special(clear, c)
    ensures var r := TakeAll(Fresh(clear), Encode(clear, ps));
            r.Emit? && r.s == Concat(ps) && r.lz.dict == Table(clear, ps)
            && (ps == [] ==> r.lz.prev == None)
            && (ps != [] ==> r.lz.prev.Some? && r.lz.prev.value < |r.lz.dict| && r.lz.dict[r.lz.prev.value] == ps[|ps| - 1])
    decreases |ps|
  {
    hide Table, Fresh, Phrases, Concat;
    FreshWf(clear);
    EncodePlain(clear, ps);
    if ps == [] {
      NoPhrases(clear);
    } else {
      var qs := ps[..|ps| - 1];
      PhrasesLess(clear, ps);
      LzwRoundTrip(clear, qs);
      var cs := Encode(clear, ps);
      assert cs[..|cs| - 1] == Encode(clear, qs);
      OneMore(clear, ps, cs[|cs| - 1], TakeAll(Fresh(clear), Encode(clear, qs)).lz);
    }
  }

  lemma {:induction false} NoPhrases(clear: nat)
    ensures Table(clear, []) == Fresh(clear).dict && Concat([]) == [] && Fresh(clear).prev == None
  {
  }

  lemma {:induction false} PhrasesLess(clear: nat, ps: seq<seq<byte>>)
    requires Phrases(clear, ps) && ps != []
    ensures Phrases(clear, ps[..|ps| - 1]) && Concat(ps) == Concat(ps[..|ps| - 1]) + ps[|ps| - 1]
    ensures NonEmpty(ps)
    ensures NonEmpty(ps[..|ps| - 1])
  {
    hide Table;
  }

  /** One more phrase: its code may be the entry that the decoder is only about to make. */
  lemma {:induction false} OneMore(clear: nat, ps: seq<seq<byte>>, c: nat, lz: Lz)
    requires ps != [] && NonEmpty(ps) && Wf(lz) && lz.clear == clear && clear + 1 + |ps| <= LIMIT
    requires NonEmpty(ps[..|ps| - 1]) && lz.dict == Table(clear, ps[..|ps| - 1])
    requires |ps| == 1 ==> lz.prev == None
    requires |ps| > 1 ==> lz.prev.Some? && lz.prev.value < |lz.dict| && lz.dict[lz.prev.value] == ps[|ps| - 2]
    requires Stands(Table(clear, ps), clear, c, ps[|ps| - 1])
    ensures var r := Take(lz, c); r.Emit? && r.s == ps[|ps| - 1] && r.lz.dict == Table(clear, ps) && r.lz.prev == Some(c)
  {
    TableSize(clear, ps);
    TableSize(clear, ps[..|ps| - 1]);
    TableNext(clear, ps);
    hide Table;
  }

  lemma {:induction false} TableNext(clear: nat, ps: seq<seq<byte>>)
    requires ps != [] && NonEmpty(ps) && NonEmpty(ps[..|ps| - 1])
    ensures Table(clear, ps) == Table(clear, ps[..|ps| - 1]) + if |ps| > 1 then [ps[|ps| - 2] + [ps[|ps| - 1][0]]] else []
  {
    if |ps| == 1 { assert Table(clear, ps[..0]) == Fresh(clear).dict; }
  }
}
