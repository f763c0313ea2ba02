/** A stream given byte by byte, of a block with codes of its own and one with the fixed codes, and what both decoders make of it. */
module SampleCase {
  import opened Bits
  import opened BitStream
  import opened Canonical
  import opened Deflate
  import opened DeflateStream
  import opened StbInflate
  import opened InflateTrees
  import opened InflateRoundTrip
  import Entry

  // ---------------------------------------------------------------- the bytes, and what they stand for

  const SAMPLE: seq<byte> :=
    [76, 196, 41, 1, 0, 0, 0, 132, 176, 172, 247, 244, 207, 128, 101, 98, 233, 158, 106, 99, 85, 0, 0]
  const SAMPLEVAL: nat := 124795206981587112495157033408043975845132448154700

  /** abcdab, eleven bytes from six back, twelve times the last byte; and, from the second block, z. */
  const OUTPUT: seq<byte> :=
    [97, 98, 99, 100, 97, 98, 97, 98, 99, 100, 97, 98, 97, 98, 99, 100, 97, 97, 97, 97, 97, 97, 97, 97, 97, 97, 97, 97, 97, 122]

  /** The code length code: two bits for 2, 17 and 18, three for 1, four for 3 and 16. */
  const CL: seq<nat> := [0, 3, 2, 4, 0, 0, 0, 0, 0, 0, 0, 0, 0, 0, 0, 0, 4, 2, 2]

  /** Three bits for each of a to d, two for the end of the block and for the length code 265. */
  const LITX: seq<nat> := [0, 3, 0, 2, 0, 2]
  const LITN: seq<nat> := [97, 4, 155, 1, 8, 1]

  function Lits(): seq<nat> { Unroll(LITX, LITN, 6) }

  const DISTS: seq<nat> := [1, 0, 0, 0, 1]

  // The lengths in runs: values, and how many of each.
  const DISTX: seq<nat> := [1, 0, 1]
  const DISTN: seq<nat> := [1, 3, 1]
  const CLX: seq<nat> := [0, 3, 2, 4, 0, 4, 2]
  const CLN: seq<nat> := [1, 1, 1, 1, 12, 1, 2]
  const FIXX: seq<nat> := [8, 9, 7, 8]
  const FIXN: seq<nat> := [144, 112, 24, 8]

  const OPS: seq<Op> :=
    [ManyZeros(86), Len(3), Again(0), ManyZeros(127), ManyZeros(6), Len(2), Zeros(5), Len(2), Len(1), Zeros(0), Len(1)]

  /** Where each item starts, and the last one ends. */
  const OPPOS: seq<nat> := [71, 80, 84, 90, 99, 108, 110, 115, 117, 120, 125, 128]

  const TOKS: seq<Tok> :=
    [Lit(97), Lit(98), Lit(99), Lit(100), Lit(97), Lit(98), Copy(8, 0, 4, 1), Copy(8, 1, 0, 0)]

  function Head(): Header
  {
    Header(CL, 18, Lits(), DISTS, OPS)
  }

  function Blocks(): seq<Block>
  {
    [Dynamic(Head(), TOKS), Fixed([Lit(122)])]
  }

  // ---------------------------------------------------------------- the number

  lemma {:induction false} One(a: byte, rest: seq<byte>)
    ensures BytesVal([a] + rest) == a + 256 * BytesVal(rest)
  {
    assert ([a] + rest)[1..] == rest;
  }

  lemma {:induction false} Four(a: byte, b: byte, c: byte, d: byte, rest: seq<byte>)
    ensures BytesVal([a, b, c, d] + rest) == a + 0x100 * b + 0x10000 * c + 0x1000000 * d + 0x100000000 * BytesVal(rest)
  {
    hide BytesVal;
    One(a, [b, c, d] + rest);
    One(b, [c, d] + rest);
    One(c, [d] + rest);
    One(d, rest);
    assert [a, b, c, d] + rest == [a] + ([b, c, d] + rest);
    assert [b, c, d] + rest == [b] + ([c, d] + rest);
    assert [c, d] + rest == [c] + ([d] + rest);
  }

  lemma {:induction false} Tail()
    ensures BytesVal([85, 0, 0]) == 85
  {
    One(85, [0, 0]);
    One(0, [0]);
    One(0, []);
    assert BytesVal([]) == 0;
    hide BytesVal;
    assert [85] + [0, 0] == [85, 0, 0] && [0] + [0] == [0, 0] && [0] + [] == [0];
  }

  lemma {:induction false} SampleIs()
    ensures BytesVal(SAMPLE) == SAMPLEVAL && |SAMPLE| == 23
  {
    hide BytesVal;
    var tail: seq<byte> := [85, 0, 0];
    Tail();
    var r0: seq<byte> := [233, 158, 106, 99] + tail;
    Four(233, 158, 106, 99, tail);
    var r1: seq<byte> := [207, 128, 101, 98] + r0;
    Four(207, 128, 101, 98, r0);
    var r2: seq<byte> := [176, 172, 247, 244] + r1;
    Four(176, 172, 247, 244, r1);
    var r3: seq<byte> := [0, 0, 0, 132] + r2;
    Four(0, 0, 0, 132, r2);
    Four(76, 196, 41, 1, r3);
    assert SAMPLE == [76, 196, 41, 1] + r3;
  }

  /** The fields of the stream, in the order in which they are read. */
  lemma {:induction false} HeadFields(v: nat)
    requires Shr(v, 0) == 124795206981587112495157033408043975845132448154700
    ensures Low(Shr(v, 0), 1) == 0 && Low(Shr(v, 1), 2) == 2 && Low(Shr(v, 3), 5) == 9 && Low(Shr(v, 8), 5) == 4 && Low(Shr(v, 13), 4) == 14
    ensures Shr(v, 17) == 952111869671532535516029612793304259072360596
  {
    Pow2Values();
    hide Low, Shr, Pow2;
    BitsAt(v, 0, 1, 124795206981587112495157033408043975845132448154700, 62397603490793556247578516704021987922566224077350, 0);
    BitsAt(v, 1, 2, 62397603490793556247578516704021987922566224077350, 15599400872698389061894629176005496980641556019337, 2);
    BitsAt(v, 3, 5, 15599400872698389061894629176005496980641556019337, 487481277271824658184207161750171780645048625604, 9);
    BitsAt(v, 8, 5, 487481277271824658184207161750171780645048625604, 15233789914744520568256473804692868145157769550, 4);
    BitsAt(v, 13, 4, 15233789914744520568256473804692868145157769550, 952111869671532535516029612793304259072360596, 14);
  }

  lemma {:induction false} ClFields(v: nat)
    requires Shr(v, 17) == 952111869671532535516029612793304259072360596
    ensures Low(Shr(v, 17), 3) == 4 && Low(Shr(v, 20), 3) == 2 && Low(Shr(v, 23), 3) == 2 && Low(Shr(v, 26), 3) == 0 && Low(Shr(v, 29), 3) == 0
    ensures Low(Shr(v, 32), 3) == 0 && Low(Shr(v, 35), 3) == 0 && Low(Shr(v, 38), 3) == 0 && Low(Shr(v, 41), 3) == 0
    ensures Shr(v, 44) == 7093786222275588926047307348201455616
  {
    Pow2Values();
    hide Low, Shr, Pow2;
    BitsAt(v, 17, 3, 952111869671532535516029612793304259072360596, 119013983708941566939503701599163032384045074, 4);
    BitsAt(v, 20, 3, 119013983708941566939503701599163032384045074, 14876747963617695867437962699895379048005634, 2);
    BitsAt(v, 23, 3, 14876747963617695867437962699895379048005634, 1859593495452211983429745337486922381000704, 2);
    BitsAt(v, 26, 3, 1859593495452211983429745337486922381000704, 232449186931526497928718167185865297625088, 0);
    BitsAt(v, 29, 3, 232449186931526497928718167185865297625088, 29056148366440812241089770898233162203136, 0);
    BitsAt(v, 32, 3, 29056148366440812241089770898233162203136, 3632018545805101530136221362279145275392, 0);
    BitsAt(v, 35, 3, 3632018545805101530136221362279145275392, 454002318225637691267027670284893159424, 0);
    BitsAt(v, 38, 3, 454002318225637691267027670284893159424, 56750289778204711408378458785611644928, 0);
    BitsAt(v, 41, 3, 56750289778204711408378458785611644928, 7093786222275588926047307348201455616, 0);
  }

  lemma {:induction false} MoreClFields(v: nat)
    requires Shr(v, 44) == 7093786222275588926047307348201455616
    ensures Low(Shr(v, 44), 3) == 0 && Low(Shr(v, 47), 3) == 0 && Low(Shr(v, 50), 3) == 0 && Low(Shr(v, 53), 3) == 0 && Low(Shr(v, 56), 3) == 4
    ensures Low(Shr(v, 59), 3) == 0 && Low(Shr(v, 62), 3) == 2 && Low(Shr(v, 65), 3) == 0 && Low(Shr(v, 68), 3) == 3
    ensures Shr(v, 71) == 52852825986412085041756237657
  {
    Pow2Values();
    hide Low, Shr, Pow2;
    BitsAt(v, 44, 3, 7093786222275588926047307348201455616, 886723277784448615755913418525181952, 0);
    BitsAt(v, 47, 3, 886723277784448615755913418525181952, 110840409723056076969489177315647744, 0);
    BitsAt(v, 50, 3, 110840409723056076969489177315647744, 13855051215382009621186147164455968, 0);
    BitsAt(v, 53, 3, 13855051215382009621186147164455968, 1731881401922751202648268395556996, 0);
    BitsAt(v, 56, 3, 1731881401922751202648268395556996, 216485175240343900331033549444624, 4);
    BitsAt(v, 59, 3, 216485175240343900331033549444624, 27060646905042987541379193680578, 0);
    BitsAt(v, 62, 3, 27060646905042987541379193680578, 3382580863130373442672399210072, 2);
    BitsAt(v, 65, 3, 3382580863130373442672399210072, 422822607891296680334049901259, 0);
    BitsAt(v, 68, 3, 422822607891296680334049901259, 52852825986412085041756237657, 3);
  }

  lemma {:induction false} OpFields(v: nat)
    requires Shr(v, 71) == 52852825986412085041756237657
    ensures Low(Shr(v, 71), 2) == 1 && Low(Shr(v, 73), 7) == 86 && Low(Shr(v, 80), 4) == 7 && Low(Shr(v, 84), 4) == 15 && Low(Shr(v, 88), 2) == 0
    ensures Low(Shr(v, 90), 2) == 1 && Low(Shr(v, 92), 7) == 127 && Low(Shr(v, 99), 2) == 1 && Low(Shr(v, 101), 7) == 6
    ensures Shr(v, 108) == 384554921666946648
  {
    Pow2Values();
    hide Low, Shr, Pow2;
    BitsAt(v, 71, 2, 52852825986412085041756237657, 13213206496603021260439059414, 1);
    BitsAt(v, 73, 7, 13213206496603021260439059414, 103228175754711103597180151, 86);
    BitsAt(v, 80, 4, 103228175754711103597180151, 6451760984669443974823759, 7);
    BitsAt(v, 84, 4, 6451760984669443974823759, 403235061541840248426484, 15);
    BitsAt(v, 88, 2, 403235061541840248426484, 100808765385460062106621, 0);
    BitsAt(v, 90, 2, 100808765385460062106621, 25202191346365015526655, 1);
    BitsAt(v, 92, 7, 25202191346365015526655, 196892119893476683801, 127);
    BitsAt(v, 99, 2, 196892119893476683801, 49223029973369170950, 1);
    BitsAt(v, 101, 7, 49223029973369170950, 384554921666946648, 6);
  }

  lemma {:induction false} MoreOpFields(v: nat)
    requires Shr(v, 108) == 384554921666946648
    ensures Low(Shr(v, 108), 2) == 0 && Low(Shr(v, 110), 2) == 2 && Low(Shr(v, 112), 3) == 5 && Low(Shr(v, 115), 2) == 0 && Low(Shr(v, 117), 3) == 3
    ensures Low(Shr(v, 120), 2) == 2 && Low(Shr(v, 122), 3) == 0 && Low(Shr(v, 125), 3) == 3
    ensures Shr(v, 128) == 366740152041
  {
    Pow2Values();
    hide Low, Shr, Pow2;
    BitsAt(v, 108, 2, 384554921666946648, 96138730416736662, 0);
    BitsAt(v, 110, 2, 96138730416736662, 24034682604184165, 2);
    BitsAt(v, 112, 3, 24034682604184165, 3004335325523020, 5);
    BitsAt(v, 115, 2, 3004335325523020, 751083831380755, 0);
    BitsAt(v, 117, 3, 751083831380755, 93885478922594, 3);
    BitsAt(v, 120, 2, 93885478922594, 23471369730648, 2);
    BitsAt(v, 122, 3, 23471369730648, 2933921216331, 0);
    BitsAt(v, 125, 3, 2933921216331, 366740152041, 3);
  }

  lemma {:induction false} TokFields(v: nat)
    requires Shr(v, 128) == 366740152041
    ensures Low(Shr(v, 128), 3) == 1 && Low(Shr(v, 131), 3) == 5 && Low(Shr(v, 134), 3) == 3 && Low(Shr(v, 137), 3) == 7 && Low(Shr(v, 140), 3) == 1
    ensures Low(Shr(v, 143), 3) == 5 && Low(Shr(v, 146), 2) == 2 && Low(Shr(v, 148), 1) == 0
    ensures Shr(v, 149) == 174875
  {
    Pow2Values();
    hide Low, Shr, Pow2;
    BitsAt(v, 128, 3, 366740152041, 45842519005, 1);
    BitsAt(v, 131, 3, 45842519005, 5730314875, 5);
    BitsAt(v, 134, 3, 5730314875, 716289359, 3);
    BitsAt(v, 137, 3, 716289359, 89536169, 7);
    BitsAt(v, 140, 3, 89536169, 11192021, 1);
    BitsAt(v, 143, 3, 11192021, 1399002, 5);
    BitsAt(v, 146, 2, 1399002, 349750, 2);
    BitsAt(v, 148, 1, 349750, 174875, 0);
  }

  lemma {:induction false} MoreTokFields(v: nat)
    requires Shr(v, 149) == 174875
    ensures Low(Shr(v, 149), 1) == 1 && Low(Shr(v, 150), 1) == 1 && Low(Shr(v, 151), 2) == 2 && Low(Shr(v, 153), 1) == 1 && Low(Shr(v, 154), 1) == 0
    ensures Low(Shr(v, 155), 2) == 0
    ensures Shr(v, 157) == 683
  {
    Pow2Values();
    hide Low, Shr, Pow2;
    BitsAt(v, 149, 1, 174875, 87437, 1);
    BitsAt(v, 150, 1, 87437, 43718, 1);
    BitsAt(v, 151, 2, 43718, 10929, 2);
    BitsAt(v, 153, 1, 10929, 5464, 1);
    BitsAt(v, 154, 1, 5464, 2732, 0);
    BitsAt(v, 155, 2, 2732, 683, 0);
  }

  lemma {:induction false} LastFields(v: nat)
    requires Shr(v, 157) == 683
    ensures Low(Shr(v, 157), 1) == 1 && Low(Shr(v, 158), 2) == 1 && Low(Shr(v, 160), 8) == 85 && Low(Shr(v, 168), 7) == 0
    ensures Shr(v, 175) == 0
  {
    Pow2Values();
    hide Low, Shr, Pow2;
    BitsAt(v, 157, 1, 683, 341, 1);
    BitsAt(v, 158, 2, 341, 85, 1);
    BitsAt(v, 160, 8, 85, 0, 85);
    BitsAt(v, 168, 7, 0, 0, 0);
  }

  // ---------------------------------------------------------------- a stream, part by part

  lemma {:induction false} LeadLsb(w: nat, x: nat, n: nat)
    requires Low(w, n) == x
    ensures Begins(w, LsbBits(x, n))
  {
    LsbVal(x, n);
    ShrZero(x, n);
    hide LsbBits, BitsVal;
  }

  lemma {:induction false} LeadCode(w: nat, lens: seq<nat>, i: nat)
    requires i < |lens| && Low(w, lens[i]) == Rev(Code(lens, i), lens[i])
    ensures Begins(w, CodeBits(lens, i))
  {
    MsbVal(Code(lens, i), lens[i]);
    hide MsbBits, BitsVal, Code, Rev, Low;
  }

  lemma {:induction false} LeadOp(w: nat, cl: seq<nat>, op: Op)
    requires |cl| == 19 && OpSym(op) < 19 && Low(w, cl[OpSym(op)]) == Rev(Code(cl, OpSym(op)), cl[OpSym(op)])
    requires !op.Len? ==> Low(Shr(w, cl[OpSym(op)]), OpExtra(op)) == op.x
    ensures Begins(w, OpBits(cl, op))
  {
    hide Begins, CodeBits, LsbBits, Low, Shr, Rev, Code;
    LeadCode(w, cl, OpSym(op));
    if op.Len? {
      assert CodeBits(cl, OpSym(op)) + [] == CodeBits(cl, OpSym(op));
    } else {
      LeadLsb(Shr(w, cl[OpSym(op)]), op.x, OpExtra(op));
      BeginsAppend(w, CodeBits(cl, OpSym(op)), LsbBits(op.x, OpExtra(op)));
    }
  }

  lemma {:induction false} LeadCopy(w: nat, lit: seq<nat>, dist: seq<nat>, t: Tok)
    requires TokOk(lit, dist, t) && t.Copy?
    requires var l := lit[257 + t.li]; Low(w, l) == Rev(Code(lit, 257 + t.li), l) && Low(Shr(w, l), LExtra(t.li)) == t.lx
    requires var p := lit[257 + t.li] + LExtra(t.li);
             Low(Shr(w, p), dist[t.di]) == Rev(Code(dist, t.di), dist[t.di]) && Low(Shr(w, p + dist[t.di]), DExtra(t.di)) == t.dx
    ensures Begins(w, TokBits(lit, dist, t))
  {
    hide Begins, CodeBits, LsbBits, Low, Shr, Rev, Code, LExtra, DExtra, TokOk, TokBits;
    CopyRange(lit, dist, t);
    var c1, x1, c2, x2 := CodeBits(lit, 257 + t.li), LsbBits(t.lx, LExtra(t.li)), CodeBits(dist, t.di), LsbBits(t.dx, DExtra(t.di));
    var p := |c1| + |x1|;
    LeadCode(w, lit, 257 + t.li);
    LeadLsb(Shr(w, |c1|), t.lx, LExtra(t.li));
    LeadCode(Shr(w, p), dist, t.di);
    LeadLsb(Shr(w, p + |c2|), t.dx, DExtra(t.di));
    ShrShr(w, p, |c2|);
    BeginsAppend(Shr(w, p), c2, x2);
    ShrShr(w, |c1|, |x1|);
    BeginsAppend(Shr(w, |c1|), x1, c2 + x2);
    BeginsAppend(w, c1, x1 + (c2 + x2));
  }

  /** A block, and what comes after it. */
  lemma {:induction false} LeadBlock(w: nat, pos: nat, out: seq<byte>, b: Block, rest: seq<Block>)
    requires BlockOk(|out|, b) && BlocksOk(ExpandBlock(out, b), rest)
    requires Low(w, 1) == (if rest == [] then 1 else 0) && Low(Shr(w, 1), 2) == Kind(b) && Begins(Shr(w, 3), BodyBits(pos + 3, |out|, b))
    requires var n := 3 + |BodyBits(pos + 3, |out|, b)|; Begins(Shr(w, n), StreamBits(pos + n, ExpandBlock(out, b), rest))
    ensures BlocksOk(out, [b] + rest) && ExpandBlocks(out, [b] + rest) == ExpandBlocks(ExpandBlock(out, b), rest)
    ensures Begins(w, StreamBits(pos, out, [b] + rest))
    ensures var n := 3 + |BodyBits(pos + 3, |out|, b)|;
            |StreamBits(pos, out, [b] + rest)| == n + |StreamBits(pos + n, ExpandBlock(out, b), rest)|
  {
    hide Begins, LsbBits, Low, Shr, BlockOk, ExpandBlock, BodyBits, Kind;
    var bs := [b] + rest;
    assert bs[0] == b && bs[1..] == rest && (|bs| == 1 <==> rest == []);
    var l, k, body := LsbBits(if rest == [] then 1 else 0, 1), LsbBits(Kind(b), 2), BodyBits(pos + 3, |out|, b);
    LeadLsb(w, if rest == [] then 1 else 0, 1);
    LeadLsb(Shr(w, 1), Kind(b), 2);
    ShrShr(w, 1, 2);
    BeginsAppend(Shr(w, 1), k, body);
    BeginsAppend(w, l, k + body);
    BeginsAppend(w, l + (k + body), StreamBits(pos + 3 + |body|, ExpandBlock(out, b), rest));
  }

  lemma {:induction false} LeadNothing(w: nat)
    ensures Begins(w, [])
  {
  }

  lemma {:induction false} LitCons(lit: seq<nat>, dist: seq<nat>, out: seq<byte>, t: Tok, rest: seq<Tok>)
    requires t.Lit? && |lit| > 256 && TokOk(lit, dist, t) && ToksOk(lit, dist, |out| + 1, rest)
    ensures ToksOk(lit, dist, |out|, [t] + rest)
    ensures ToksBits(lit, dist, |out|, [t] + rest) == TokBits(lit, dist, t) + ToksBits(lit, dist, |out| + 1, rest)
    ensures Expand(lit, dist, out, [t] + rest) == Expand(lit, dist, out + [t.b], rest)
  {
    assert ([t] + rest)[0] == t && ([t] + rest)[1..] == rest;
    hide TokBits;
  }

  lemma {:induction false} CopyCons(lit: seq<nat>, dist: seq<nat>, n: nat, t: Tok, len: nat, rest: seq<Tok>)
    requires t.Copy? && t.li < 29 && t.di < 30 && len == Length(t) && Distance(t) <= n
    requires |lit| > 256 && TokOk(lit, dist, t) && ToksOk(lit, dist, n + len, rest)
    ensures ToksOk(lit, dist, n, [t] + rest)
    ensures ToksBits(lit, dist, n, [t] + rest) == TokBits(lit, dist, t) + ToksBits(lit, dist, n + len, rest)
  {
    assert ([t] + rest)[0] == t && ([t] + rest)[1..] == rest;
    hide TokOk, TokBits, Length, Distance;
  }

  lemma {:induction false} CopyExpand(lit: seq<nat>, dist: seq<nat>, out: seq<byte>, t: Tok, next: seq<byte>, rest: seq<Tok>)
    requires t.Copy? && t.li < 29 && t.di < 30 && 1 <= Distance(t) <= |out| && next == CopyBack(out, Length(t), Distance(t))
    requires ToksOk(lit, dist, |out|, [t] + rest) && ToksOk(lit, dist, |next|, rest)
    ensures Expand(lit, dist, out, [t] + rest) == Expand(lit, dist, next, rest)
  {
    assert ([t] + rest)[0] == t && ([t] + rest)[1..] == rest;
    hide TokOk, Length, Distance, CopyBack;
  }

  /** A copy that is there already. */
  lemma {:induction false} CopyIs(o: seq<byte>, n: nat, len: nat, d: nat)
    requires 1 <= d <= n && n + len <= |o| && forall k :: n <= k < n + len ==> o[k] == o[k - d]
    ensures CopyBack(o[..n], len, d) == o[..n + len]
    decreases len
  {
    if len > 0 {
      assert o[..n] + [o[n - d]] == o[..n + 1];
      CopyIs(o, n + 1, len - 1, d);
    }
  }

  // ---------------------------------------------------------------- lengths in runs

  /** The first i of the runs, ns[j] times xs[j] each. */
  function Unroll(xs: seq<nat>, ns: seq<nat>, i: nat): seq<nat>
    requires i <= |xs| == |ns|
  {
    if i == 0 then [] else Unroll(xs, ns, i - 1) + Times(xs[i - 1], ns[i - 1])
  }

  function Total(ns: seq<nat>, i: nat): nat
    requires i <= |ns|
  {
    if i == 0 then 0 else Total(ns, i - 1) + ns[i - 1]
  }

  /** How many of them are k. */
  function Upto(xs: seq<nat>, ns: seq<nat>, i: nat, k: nat): nat
    requires i <= |xs| == |ns|
  {
    if i == 0 then 0 else Upto(xs, ns, i - 1, k) + if xs[i - 1] == k then ns[i - 1] else 0
  }

  /** The code space they use. */
  function Spaces(xs: seq<nat>, ns: seq<nat>, i: nat): nat
    requires i <= |xs| == |ns| && forall j :: 0 <= j < |xs| ==> xs[j] <= 15
  {
    if i == 0 then 0 else Spaces(xs, ns, i - 1) + if xs[i - 1] == 0 then 0 else ns[i - 1] * Pow2(16 - xs[i - 1])
  }

  lemma {:induction false} CountTimes(a: seq<nat>, x: nat, n: nat, k: nat)
    ensures Count(a + Times(x, n), k) == Count(a, k) + if x == k then n else 0
  {
    if n == 0 {
      assert a + Times(x, 0) == a;
    } else {
      CountTimes(a, x, n - 1, k);
      assert (a + Times(x, n))[..|a| + n - 1] == a + Times(x, n - 1);
    }
  }

  lemma {:induction false} CountUnroll(xs: seq<nat>, ns: seq<nat>, i: nat, k: nat)
    requires i <= |xs| == |ns|
    ensures |Unroll(xs, ns, i)| == Total(ns, i) && Count(Unroll(xs, ns, i), k) == Upto(xs, ns, i, k)
  {
    hide Times;
    if i > 0 {
      CountUnroll(xs, ns, i - 1, k);
      CountTimes(Unroll(xs, ns, i - 1), xs[i - 1], ns[i - 1], k);
    } else {
      assert Unroll(xs, ns, i) == [];
    }
  }

  lemma {:induction false} KraftUnroll(xs: seq<nat>, ns: seq<nat>, i: nat)
    requires i <= |xs| == |ns| && forall j :: 0 <= j < |xs| ==> xs[j] <= 15
    ensures ValidLens(Unroll(xs, ns, i)) && Kraft(Unroll(xs, ns, i)) == Spaces(xs, ns, i)
  {
    hide Times, Kraft, Pow2;
    if i > 0 {
      KraftUnroll(xs, ns, i - 1);
      if xs[i - 1] > 0 {
        KraftTimes(Unroll(xs, ns, i - 1), xs[i - 1], ns[i - 1]);
      } else {
        KraftPad(Unroll(xs, ns, i - 1), Times(0, ns[i - 1]));
      }
    } else {
      KraftNone();
    }
  }

  lemma {:induction false} UnrollPrefix(xs: seq<nat>, ns: seq<nat>, i: nat, m: nat)
    requires i <= m <= |xs| == |ns|
    ensures Unroll(xs, ns, i) <= Unroll(xs, ns, m)
    decreases m
  {
    if i < m {
      UnrollPrefix(xs, ns, i, m - 1);
      hide Times;
      assert Unroll(xs, ns, m - 1) <= Unroll(xs, ns, m);
    }
  }

  /** Symbol j of run i. */
  lemma {:induction false} RunSymbol(xs: seq<nat>, ns: seq<nat>, m: nat, i: nat, j: nat)
    requires i < m <= |xs| == |ns| && j < ns[i]
    ensures var lens, p := Unroll(xs, ns, m), Total(ns, i) + j;
            p < |lens| && lens[p] == xs[i] && Code(lens, p) == NextCode(lens, xs[i]) + Upto(xs, ns, i, xs[i]) + j
  {
    hide NextCode;
    var lens, head := Unroll(xs, ns, m), Unroll(xs, ns, i);
    CountUnroll(xs, ns, i, xs[i]);
    UnrollPrefix(xs, ns, i + 1, m);
    var p := |head| + j;
    var run := Unroll(xs, ns, i + 1);
    assert run == head + Times(xs[i], ns[i]);
    assert lens[p] == run[p] == xs[i];
    assert lens[..p] == run[..p] == head + Times(xs[i], j);
    CountTimes(head, xs[i], j, xs[i]);
  }

  lemma {:induction false} NextUnroll(xs: seq<nat>, ns: seq<nat>, m: nat, k: nat)
    requires m <= |xs| == |ns|
    ensures var lens := Unroll(xs, ns, m);
            NextCode(lens, k) == if k <= 1 then 0 else 2 * (NextCode(lens, k - 1) + Upto(xs, ns, m, k - 1))
  {
    if k > 1 { CountUnroll(xs, ns, m, k - 1); }
    hide Unroll, Upto, Count;
  }

  // ---------------------------------------------------------------- the codes

  lemma {:induction false} LitRuns()
    ensures Total(LITN, 1) == 97 && Total(LITN, 3) == 256 && Total(LITN, 5) == 265 && Total(LITN, 6) == 266
    ensures Upto(LITX, LITN, 6, 1) == 0 && Upto(LITX, LITN, 6, 2) == 2
    ensures Upto(LITX, LITN, 1, 3) == 0 && Upto(LITX, LITN, 3, 2) == 0 && Upto(LITX, LITN, 5, 2) == 1
    ensures Spaces(LITX, LITN, 6) == 0x10000
  {
    Pow2Values();
    MorePowers();
    assert Pow2(13) == 8192 && Pow2(14) == 16384;
    hide Pow2;
    assert Total(LITN, 3) == 256;
    assert Upto(LITX, LITN, 3, 1) == 0 && Upto(LITX, LITN, 3, 2) == 0;
    assert Upto(LITX, LITN, 5, 2) == 1;
    assert Spaces(LITX, LITN, 3) == 4 * 8192;
    assert Spaces(LITX, LITN, 5) == 4 * 8192 + 16384;
  }

  lemma {:induction false} ShortRevs()
    ensures Rev(0, 2) == 0 && Rev(1, 2) == 2 && Rev(2, 2) == 1 && Rev(0, 1) == 0 && Rev(1, 1) == 1
    ensures Rev(14, 4) == 7 && Rev(15, 4) == 15
  {
  }

  lemma {:induction false} ThreeRevs()
    ensures Rev(4, 3) == 1 && Rev(5, 3) == 5 && Rev(6, 3) == 3 && Rev(7, 3) == 7
  {
  }

  lemma {:induction false} RevValues()
    ensures Rev(0, 2) == 0 && Rev(1, 2) == 2 && Rev(2, 2) == 1 && Rev(0, 1) == 0 && Rev(1, 1) == 1
    ensures Rev(4, 3) == 1 && Rev(5, 3) == 5 && Rev(6, 3) == 3 && Rev(7, 3) == 7 && Rev(14, 4) == 7 && Rev(15, 4) == 15
  {
    hide Rev;
    ShortRevs();
    ThreeRevs();
  }

  /** Symbol i has n bits; r is its code as it comes, first bit lowest. */
  ghost predicate Coded(lens: seq<nat>, i: nat, n: nat, r: nat)
  {
    i < |lens| && lens[i] == n && Rev(Code(lens, i), n) == r
  }

  lemma {:induction false} LitCodes()
    ensures |Lits()| == 266 && ValidLens(Lits()) && Kraft(Lits()) == 0x10000
    ensures Coded(Lits(), 97, 3, 1) && Coded(Lits(), 98, 3, 5) && Coded(Lits(), 99, 3, 3) && Coded(Lits(), 100, 3, 7)
    ensures Coded(Lits(), 256, 2, 0) && Coded(Lits(), 265, 2, 2)
  {
    LitRuns();
    RevValues();
    hide Unroll, Upto, Total, Spaces, Code, NextCode, Kraft, Rev;
    KraftUnroll(LITX, LITN, 6);
    CountUnroll(LITX, LITN, 6, 0);
    NextUnroll(LITX, LITN, 6, 1);
    NextUnroll(LITX, LITN, 6, 2);
    NextUnroll(LITX, LITN, 6, 3);
    RunSymbol(LITX, LITN, 6, 1, 0);
    RunSymbol(LITX, LITN, 6, 1, 1);
    RunSymbol(LITX, LITN, 6, 1, 2);
    RunSymbol(LITX, LITN, 6, 1, 3);
    RunSymbol(LITX, LITN, 6, 3, 0);
    RunSymbol(LITX, LITN, 6, 5, 0);
  }

  lemma {:induction false} DistRuns()
    ensures Unroll(DISTX, DISTN, 3) == DISTS && Total(DISTN, 0) == 0 && Total(DISTN, 2) == 4
    ensures Upto(DISTX, DISTN, 0, 1) == 0 && Upto(DISTX, DISTN, 2, 1) == 1 && Spaces(DISTX, DISTN, 3) == 0x10000
  {
    Pow2Values();
    MorePowers();
    assert Pow2(15) == 32768;
    hide Pow2;
    assert Unroll(DISTX, DISTN, 1) == [1];
    assert Unroll(DISTX, DISTN, 2) == [1, 0, 0, 0];
  }

  lemma {:induction false} DistCodes()
    ensures |DISTS| == 5 && ValidLens(DISTS) && Kraft(DISTS) == 0x10000 && Coded(DISTS, 0, 1, 0) && Coded(DISTS, 4, 1, 1)
  {
    DistRuns();
    RevValues();
    hide Unroll, Upto, Total, Spaces, Code, NextCode, Kraft, Rev;
    KraftUnroll(DISTX, DISTN, 3);
    NextUnroll(DISTX, DISTN, 3, 1);
    RunSymbol(DISTX, DISTN, 3, 0, 0);
    RunSymbol(DISTX, DISTN, 3, 2, 0);
  }

  lemma {:induction false} ClUnrolled()
    ensures Unroll(CLX, CLN, 7) == CL
  {
    assert Unroll(CLX, CLN, 2) == [0, 3];
    assert Unroll(CLX, CLN, 4) == [0, 3, 2, 4];
    assert Unroll(CLX, CLN, 5) == [0, 3, 2, 4] + Times(0, 12);
    assert Unroll(CLX, CLN, 6) == [0, 3, 2, 4] + Times(0, 12) + [4];
  }

  lemma {:induction false} ClRuns()
    ensures Total(CLN, 1) == 1 && Total(CLN, 2) == 2 && Total(CLN, 3) == 3 && Total(CLN, 5) == 16 && Total(CLN, 6) == 17
    ensures Upto(CLX, CLN, 7, 1) == 0 && Upto(CLX, CLN, 7, 2) == 3 && Upto(CLX, CLN, 7, 3) == 1
    ensures Upto(CLX, CLN, 1, 3) == 0 && Upto(CLX, CLN, 2, 2) == 0 && Upto(CLX, CLN, 3, 4) == 0 && Upto(CLX, CLN, 5, 4) == 1 && Upto(CLX, CLN, 6, 2) == 1
    ensures Spaces(CLX, CLN, 7) == 0x10000
  {
    Pow2Values();
    MorePowers();
    assert Pow2(12) == 4096 && Pow2(13) == 8192 && Pow2(14) == 16384;
    hide Pow2;
    assert Total(CLN, 3) == 3;
    assert Upto(CLX, CLN, 3, 1) == 0 && Upto(CLX, CLN, 3, 2) == 1 && Upto(CLX, CLN, 3, 3) == 1;
    assert Upto(CLX, CLN, 5, 1) == 0 && Upto(CLX, CLN, 5, 2) == 1 && Upto(CLX, CLN, 5, 3) == 1;
    assert Spaces(CLX, CLN, 3) == 8192 + 16384;
    assert Spaces(CLX, CLN, 5) == 8192 + 16384 + 4096;
  }

  lemma {:induction false} ClCodes()
    ensures |CL| == 19 && ValidLens(CL) && Kraft(CL) == 0x10000
    ensures Coded(CL, 1, 3, 3) && Coded(CL, 2, 2, 0) && Coded(CL, 3, 4, 7) && Coded(CL, 16, 4, 15) && Coded(CL, 17, 2, 2) && Coded(CL, 18, 2, 1)
  {
    ClUnrolled();
    ClRuns();
    RevValues();
    hide Unroll, Upto, Total, Spaces, Code, NextCode, Kraft, Rev;
    KraftUnroll(CLX, CLN, 7);
    NextUnroll(CLX, CLN, 7, 1);
    NextUnroll(CLX, CLN, 7, 2);
    NextUnroll(CLX, CLN, 7, 3);
    NextUnroll(CLX, CLN, 7, 4);
    RunSymbol(CLX, CLN, 7, 1, 0);
    RunSymbol(CLX, CLN, 7, 2, 0);
    RunSymbol(CLX, CLN, 7, 3, 0);
    RunSymbol(CLX, CLN, 7, 5, 0);
    RunSymbol(CLX, CLN, 7, 6, 0);
    RunSymbol(CLX, CLN, 7, 6, 1);
  }

  lemma {:induction false} FixedUnrolled()
    ensures Unroll(FIXX, FIXN, 4) == FixedLengths()
  {
    assert Unroll(FIXX, FIXN, 1) == Times(8, 144);
    assert Unroll(FIXX, FIXN, 2) == Times(8, 144) + Times(9, 112);
    assert Unroll(FIXX, FIXN, 3) == Times(8, 144) + Times(9, 112) + Times(7, 24);
    assert Unroll(FIXX, FIXN, 4) == Times(8, 144) + Times(9, 112) + Times(7, 24) + Times(8, 8);
  }

  lemma {:induction false} FixedRuns(k: nat)
    ensures Total(FIXN, 0) == 0 && Total(FIXN, 2) == 256
    ensures 1 <= k < 7 ==> Upto(FIXX, FIXN, 4, k) == 0
    ensures Upto(FIXX, FIXN, 4, 7) == 24 && Upto(FIXX, FIXN, 0, 8) == 0 && Upto(FIXX, FIXN, 2, 7) == 0
  {
    assert Upto(FIXX, FIXN, 2, 7) == 0;
    if 1 <= k < 7 { UptoNone(FIXX, FIXN, 4, k); }
  }

  lemma {:induction false} UptoNone(xs: seq<nat>, ns: seq<nat>, i: nat, k: nat)
    requires i <= |xs| == |ns| && forall j :: 0 <= j < i ==> xs[j] != k
    ensures Upto(xs, ns, i, k) == 0
  {
    if i > 0 { UptoNone(xs, ns, i - 1, k); }
  }

  lemma {:induction false} FixedNext(k: nat)
    requires k <= 7
    ensures NextCode(Unroll(FIXX, FIXN, 4), k) == 0
  {
    NextUnroll(FIXX, FIXN, 4, k);
    FixedRuns(if k > 1 then k - 1 else 1);
    hide Unroll, Upto, Total, NextCode;
    if k > 1 { FixedNext(k - 1); }
  }

  lemma {:induction false} FixedRevs()
    ensures Rev(170, 8) == 85 && Rev(0, 7) == 0
  {
    assert Rev(170, 2) == 1 && Rev(170, 4) == 5 && Rev(170, 6) == 21;
    assert Rev(0, 2) == 0 && Rev(0, 4) == 0 && Rev(0, 6) == 0;
  }

  lemma {:induction false} UnrolledCodes()
    ensures var lens := Unroll(FIXX, FIXN, 4); Coded(lens, 122, 8, 85) && Coded(lens, 256, 7, 0)
  {
    FixedRuns(0);
    FixedRevs();
    hide Unroll, Upto, Total, Code, NextCode, Rev;
    FixedNext(7);
    NextUnroll(FIXX, FIXN, 4, 8);
    RunSymbol(FIXX, FIXN, 4, 0, 122);
    RunSymbol(FIXX, FIXN, 4, 2, 0);
  }

  lemma {:induction false} FixedCodes()
    ensures Coded(FixedLengths(), 122, 8, 85) && Coded(FixedLengths(), 256, 7, 0)
  {
    hide *;
    FixedUnrolled();
    UnrolledCodes();
  }

  // ---------------------------------------------------------------- the first block

  lemma {:induction false} AllFields(v: nat)
    requires v == SAMPLEVAL
    ensures Shr(v, 0) == v && Shr(v, 17) == 952111869671532535516029612793304259072360596 && Shr(v, 44) == 7093786222275588926047307348201455616 && Shr(v, 71) == 52852825986412085041756237657 && Shr(v, 108) == 384554921666946648 && Shr(v, 128) == 366740152041
    ensures Shr(v, 149) == 174875 && Shr(v, 157) == 683
  {
    LowNone(v);
    hide Low, Shr;
    HeadFields(v);
    ClFields(v);
    MoreClFields(v);
    OpFields(v);
    MoreOpFields(v);
    TokFields(v);
    MoreTokFields(v);
  }

  lemma {:induction false} LitsAre()
    ensures Lits() == Times(0, 97) + Times(3, 4) + Times(0, 155) + [2] + Times(0, 8) + [2]
  {
    assert Unroll(LITX, LITN, 1) == Times(0, 97);
    assert Unroll(LITX, LITN, 2) == Times(0, 97) + Times(3, 4);
    assert Unroll(LITX, LITN, 3) == Times(0, 97) + Times(3, 4) + Times(0, 155);
    assert Unroll(LITX, LITN, 4) == Times(0, 97) + Times(3, 4) + Times(0, 155) + [2];
    assert Unroll(LITX, LITN, 5) == Times(0, 97) + Times(3, 4) + Times(0, 155) + [2] + Times(0, 8);
  }

  lemma {:induction false} NoneSpelled()
    ensures |OPS| == 11 && Spelled(OPS, 0) == []
  {
  }

  lemma {:induction false} HeadSpelled()
    ensures |OPS| == 11 && Spelled(OPS, 2) != [] && Spelled(OPS, 3) == Times(0, 97) + Times(3, 4)
  {
    NoneSpelled();
    hide Spelled;
    SpelledNext(OPS, 0);
    SpelledNext(OPS, 1);
    SpelledNext(OPS, 2);
    assert Spelled(OPS, 2) == Times(0, 97) + [3];
  }

  lemma {:induction false} MoreSpelled()
    ensures |OPS| == 11 && Spelled(OPS, 8) == Lits()
  {
    HeadSpelled();
    LitsAre();
    hide Spelled, Lits;
    SpelledNext(OPS, 3);
    SpelledNext(OPS, 4);
    assert Spelled(OPS, 5) == Times(0, 97) + Times(3, 4) + Times(0, 155);
    SpelledNext(OPS, 5);
    SpelledNext(OPS, 6);
    SpelledNext(OPS, 7);
  }

  lemma {:induction false} AllSpelled()
    ensures |OPS| == 11 && Spelled(OPS, 11) == Lits() + DISTS
  {
    MoreSpelled();
    hide Spelled, Lits;
    SpelledNext(OPS, 8);
    SpelledNext(OPS, 9);
    SpelledNext(OPS, 10);
    assert [1] + Times(0, 3) + [1] == DISTS;
    assert Spelled(OPS, 11) == Lits() + ([1] + Times(0, 3) + [1]);
  }

  lemma {:induction false} AllOk()
    ensures |CL| == 19 && EachOk(CL, OPS)
  {
    HeadSpelled();
    hide Spelled;
  }

  /** Item i is where it should be. */
  ghost predicate OpThere(cl: seq<nat>, ops: seq<Op>, at: seq<nat>, v: nat, i: nat)
    requires |cl| == 19 && i < |ops| && |at| == |ops| + 1
  {
    var op := ops[i]; var c := OpSym(op);
    c < 19 && Low(Shr(v, at[i]), cl[c]) == Rev(Code(cl, c), cl[c]) && at[i + 1] == at[i] + cl[c] + OpExtra(op)
    && (!op.Len? ==> Low(Shr(v, at[i] + cl[c]), OpExtra(op)) == op.x)
  }

  /** The items from i on are there. */
  ghost predicate OpsThere(cl: seq<nat>, ops: seq<Op>, at: seq<nat>, v: nat, i: nat)
    requires |cl| == 19 && i <= |ops| && |at| == |ops| + 1
  {
    OpsOk(cl, Spelled(ops, i), ops[i..], Spelled(ops, |ops|))
    && var bits := OpsBits(cl, Spelled(ops, i), ops[i..], Spelled(ops, |ops|));
       Begins(Shr(v, at[i]), bits) && at[|ops|] == at[i] + |bits|
  }

  lemma {:induction false} OneOp(cl: seq<nat>, ops: seq<Op>, at: seq<nat>, v: nat, i: nat)
    requires |cl| == 19 && i < |ops| && |at| == |ops| + 1 && OpThere(cl, ops, at, v, i)
    ensures OpSym(ops[i]) < 19 && Begins(Shr(v, at[i]), OpBits(cl, ops[i])) && at[i + 1] == at[i] + |OpBits(cl, ops[i])|
  {
    var c := OpSym(ops[i]);
    ShrShr(v, at[i], cl[c]);
    hide Low, Shr, Rev, Code, Begins, OpBits;
    LeadOp(Shr(v, at[i]), cl, ops[i]);
    OpBitsSize(cl, ops[i]);
  }

  lemma {:induction false} OpsNone(cl: seq<nat>, ops: seq<Op>, at: seq<nat>, v: nat)
    requires |cl| == 19 && |at| == |ops| + 1
    ensures OpsThere(cl, ops, at, v, |ops|)
  {
    assert ops[|ops|..] == [];
    hide Spelled;
    OpsEnd(cl, Spelled(ops, |ops|));
    LeadNothing(Shr(v, at[|ops|]));
  }

  lemma {:induction false} OpsOne(cl: seq<nat>, ops: seq<Op>, at: seq<nat>, v: nat, i: nat)
    requires |cl| == 19 && EachOk(cl, ops) && i < |ops| && |at| == |ops| + 1 && OpThere(cl, ops, at, v, i) && OpsThere(cl, ops, at, v, i + 1)
    ensures OpsThere(cl, ops, at, v, i)
  {
    hide OpThere, EachOk, Spelled, OpsOk, OpsBits, Begins, Shr, OpBits;
    OneOp(cl, ops, at, v, i);
    SpelledStep(cl, ops, i);
    ShrShr(v, at[i], |OpBits(cl, ops[i])|);
    BeginsAppend(Shr(v, at[i]), OpBits(cl, ops[i]), OpsBits(cl, Spelled(ops, i + 1), ops[i + 1..], Spelled(ops, |ops|)));
  }

  lemma {:induction false} FirstOps(v: nat, i: nat)
    requires v == SAMPLEVAL && i < 5
    ensures |CL| == 19 && |OPS| == 11 && |OPPOS| == 12 && OpThere(CL, OPS, OPPOS, v, i)
  {
    AllFields(v);
    hide Low, Shr, Rev, Code, SAMPLEVAL;
    OpFields(v);
    ClCodes();
  }

  lemma {:induction false} LastOps(v: nat, i: nat)
    requires v == SAMPLEVAL && 5 <= i < 11
    ensures |CL| == 19 && |OPS| == 11 && |OPPOS| == 12 && OpThere(CL, OPS, OPPOS, v, i)
  {
    AllFields(v);
    hide Low, Shr, Rev, Code, SAMPLEVAL;
    MoreOpFields(v);
    ClCodes();
  }

  lemma {:induction false} ConstSizes()
    ensures |CL| == 19 && |OPS| == 11 && |OPPOS| == 12 && OPPOS[0] == 71 && OPPOS[11] == 128
  {
  }

  lemma {:induction false} AllOps(v: nat, i: nat)
    requires v == SAMPLEVAL && i <= 11
    ensures |CL| == 19 && |OPS| == 11 && |OPPOS| == 12 && OpsThere(CL, OPS, OPPOS, v, i)
    decreases 11 - i
  {
    hide *;
    AllOk();
    ConstSizes();
    if i < 11 {
      if i < 5 { FirstOps(v, i); } else { LastOps(v, i); }
      AllOps(v, i + 1);
      OpsOne(CL, OPS, OPPOS, v, i);
    } else {
      OpsNone(CL, OPS, OPPOS, v);
    }
  }

  lemma {:induction false} FirstCl(v: nat, i: nat)
    requires v == SAMPLEVAL && i < 9
    ensures |CL| == 19 && Low(Shr(v, 17 + 3 * i), 3) == CL[Zag(i)]
  {
    AllFields(v);
    hide Low, Shr, SAMPLEVAL;
    ClFields(v);
  }

  lemma {:induction false} LastCl(v: nat, i: nat)
    requires v == SAMPLEVAL && 9 <= i < 18
    ensures |CL| == 19 && Low(Shr(v, 17 + 3 * i), 3) == CL[Zag(i)]
  {
    AllFields(v);
    hide Low, Shr, SAMPLEVAL;
    MoreClFields(v);
  }

  lemma {:induction false} ClLead(v: nat, n: nat)
    requires v == SAMPLEVAL && n <= 18
    ensures |CL| == 19 && Begins(Shr(v, 17), ClBits(CL, n))
  {
    ConstSizes();
    hide Low, Shr, SAMPLEVAL, CL, Begins, LsbBits, Zag;
    if n == 0 {
      LeadNothing(Shr(v, 17));
    } else {
      ClLead(v, n - 1);
      if n <= 9 { FirstCl(v, n - 1); } else { LastCl(v, n - 1); }
      ShrShr(v, 17, 3 * (n - 1));
      LeadLsb(Shr(v, 17 + 3 * (n - 1)), CL[Zag(n - 1)], 3);
      BeginsAppend(Shr(v, 17), ClBits(CL, n - 1), LsbBits(CL[Zag(n - 1)], 3));
    }
  }

  lemma {:induction false} ClFacts()
    ensures |CL| == 19 && (forall i :: 0 <= i < 19 ==> CL[i] < 8) && CL[Zag(18)] == 0
  {
  }

  lemma {:induction false} OpsSpelled()
    ensures |CL| == 19 && |OPS| == 11 && OpsOk(CL, [], OPS, Lits() + DISTS)
  {
    hide *;
    AllOk();
    AllSpelled();
    SpelledOk(CL, OPS, 0);
    NoneSpelled();
    assert OPS[0..] == OPS;
  }

  lemma {:induction false} HeadIsOk()
    ensures HeaderOk(Head())
  {
    hide Kraft, OpsOk, Lits, OPS, ValidLens, CL, DISTS, Zag, Code, Rev;
    ClFacts();
    ClCodes();
    LitCodes();
    DistCodes();
    OpsSpelled();
    assert ClValid(CL);
  }

  /** The three numbers before the code length code. */
  lemma {:induction false} HeadNumbers(v: nat)
    requires v == SAMPLEVAL
    ensures Low(v, 1) == 0 && Low(Shr(v, 1), 2) == 2 && Low(Shr(v, 3), 5) == 9 && Low(Shr(v, 8), 5) == 4 && Low(Shr(v, 13), 4) == 14
  {
    LowNone(v);
    hide Low, Shr;
    HeadFields(v);
  }

  lemma {:induction false} HeadBits()
    ensures HeaderOk(Head()) && |CL| == 19 && |OPS| == 11 && OpsOk(CL, Spelled(OPS, 0), OPS[0..], Spelled(OPS, 11))
    ensures HeaderBits(Head()) ==
            LsbBits(9, 5) + (LsbBits(4, 5) + (LsbBits(14, 4) + (ClBits(CL, 18) + OpsBits(CL, Spelled(OPS, 0), OPS[0..], Spelled(OPS, 11)))))
  {
    hide OpsOk, Lits, OPS, Spelled, OpsBits, ClBits, LsbBits, HeaderOk, EachOk;
    HeadIsOk();
    LitCodes();
    AllOk();
    AllSpelled();
    SpelledOk(CL, OPS, 0);
    NoneSpelled();
    assert OPS[0..] == OPS;
  }

  lemma {:induction false} HeadLead(v: nat)
    requires v == SAMPLEVAL
    ensures HeaderOk(Head()) && Begins(Shr(v, 3), HeaderBits(Head())) && |HeaderBits(Head())| == 125
  {
    hide *;
    HeadBits();
    AllOps(v, 0);
    ClLead(v, 18);
    HeadNumbers(v);
    ConstSizes();
    HeadJoin(v, OpsBits(CL, Spelled(OPS, 0), OPS[0..], Spelled(OPS, 11)), ClBits(CL, 18)) by { OpsAreThere(v); }
  }

  lemma {:induction false} OpsAreThere(v: nat)
    requires |CL| == 19 && |OPS| == 11 && |OPPOS| == 12 && OPPOS[0] == 71 && OPPOS[11] == 128 && OpsThere(CL, OPS, OPPOS, v, 0)
    ensures OpsOk(CL, Spelled(OPS, 0), OPS[0..], Spelled(OPS, 11))
    ensures var bits := OpsBits(CL, Spelled(OPS, 0), OPS[0..], Spelled(OPS, 11)); Begins(Shr(v, 71), bits) && |bits| == 57
  {
    hide CL, OPS, OPPOS, OpsOk, OpsBits, Spelled, Begins, Shr;
  }

  lemma {:induction false} HeadJoin(v: nat, ops: seq<bool>, cl: seq<bool>)
    requires Low(Shr(v, 3), 5) == 9 && Low(Shr(v, 8), 5) == 4 && Low(Shr(v, 13), 4) == 14
    requires |cl| == 54 && Begins(Shr(v, 17), cl) && |ops| == 57 && Begins(Shr(v, 71), ops)
    ensures var bits := LsbBits(9, 5) + (LsbBits(4, 5) + (LsbBits(14, 4) + (cl + ops))); Begins(Shr(v, 3), bits) && |bits| == 125
  {
    hide Low, Shr, Begins, LsbBits;
    LeadLsb(Shr(v, 3), 9, 5);
    LeadLsb(Shr(v, 8), 4, 5);
    LeadLsb(Shr(v, 13), 14, 4);
    ShrShr(v, 17, 54);
    BeginsAppend(Shr(v, 17), cl, ops);
    ShrShr(v, 13, 4);
    BeginsAppend(Shr(v, 13), LsbBits(14, 4), cl + ops);
    ShrShr(v, 8, 5);
    BeginsAppend(Shr(v, 8), LsbBits(4, 5), LsbBits(14, 4) + (cl + ops));
    ShrShr(v, 3, 5);
    BeginsAppend(Shr(v, 3), LsbBits(9, 5), LsbBits(4, 5) + (LsbBits(14, 4) + (cl + ops)));
  }

  // ---------------------------------------------------------------- the tokens

  /** The stream w begins with the tokens, and they make the output made from out. */
  ghost predicate ToksThere(lit: seq<nat>, dist: seq<nat>, w: nat, out: seq<byte>, toks: seq<Tok>, bits: nat, made: seq<byte>)
    requires |lit| > 256
  {
    ToksOk(lit, dist, |out|, toks) && Begins(w, ToksBits(lit, dist, |out|, toks)) && |ToksBits(lit, dist, |out|, toks)| == bits
    && Expand(lit, dist, out, toks) == made
  }

  lemma {:induction false} LitStep(lit: seq<nat>, dist: seq<nat>, w: nat, out: seq<byte>, t: Tok, rest: seq<Tok>, bits: nat, made: seq<byte>)
    requires |lit| > 256 && t.Lit? && TokOk(lit, dist, t) && Begins(w, TokBits(lit, dist, t))
    requires ToksThere(lit, dist, Shr(w, |TokBits(lit, dist, t)|), out + [t.b], rest, bits, made)
    ensures ToksThere(lit, dist, w, out, [t] + rest, |TokBits(lit, dist, t)| + bits, made)
  {
    hide Begins, Shr, TokBits, ToksBits, ToksOk, Expand, TokOk;
    LitCons(lit, dist, out, t, rest);
    BeginsAppend(w, TokBits(lit, dist, t), ToksBits(lit, dist, |out| + 1, rest));
  }

  lemma {:induction false} CopyStep(lit: seq<nat>, dist: seq<nat>, w: nat, out: seq<byte>, t: Tok, next: seq<byte>, rest: seq<Tok>, bits: nat, made: seq<byte>)
    requires |lit| > 256 && t.Copy? && t.li < 29 && t.di < 30 && TokOk(lit, dist, t) && Begins(w, TokBits(lit, dist, t))
    requires 1 <= Distance(t) <= |out| && next == CopyBack(out, Length(t), Distance(t))
    requires ToksThere(lit, dist, Shr(w, |TokBits(lit, dist, t)|), next, rest, bits, made)
    ensures ToksThere(lit, dist, w, out, [t] + rest, |TokBits(lit, dist, t)| + bits, made)
  {
    hide Begins, Shr, TokBits, ToksBits, ToksOk, Expand, TokOk, Distance, Length, CopyBack;
    CopyCons(lit, dist, |out|, t, Length(t), rest);
    CopyExpand(lit, dist, out, t, next, rest);
    BeginsAppend(w, TokBits(lit, dist, t), ToksBits(lit, dist, |out| + Length(t), rest));
  }

  /** The first n bytes of the output. */
  function Out(n: nat): seq<byte>
    requires n <= 30
    ensures |Out(n)| == n
  {
    OUTPUT[..n]
  }

  lemma {:induction false} OutputIs()
    ensures OUTPUT[0] == 97 && OUTPUT[1] == 98 && OUTPUT[2] == 99 && OUTPUT[3] == 100 && OUTPUT[4] == 97 && OUTPUT[5] == 98
    ensures |OUTPUT| == 30 && (forall k :: 6 <= k < 17 ==> OUTPUT[k] == OUTPUT[k - 6])
    ensures (forall k :: 17 <= k < 29 ==> OUTPUT[k] == OUTPUT[k - 1]) && OUTPUT[29] == 122
  {
  }

  /** A literal at p, the n-th byte of the output. */
  lemma {:induction false} LitLead(v: nat, b: byte, p: nat, r: nat, n: nat, rest: seq<Tok>, bits: nat)
    requires |Lits()| == 266 && Coded(Lits(), b, 3, r) && Low(Shr(v, p), 3) == r && n < 30 == |OUTPUT| && OUTPUT[n] == b
    requires ToksThere(Lits(), DISTS, Shr(v, p + 3), Out(n + 1), rest, bits, Out(29))
    ensures ToksThere(Lits(), DISTS, Shr(v, p), Out(n), [Lit(b)] + rest, bits + 3, Out(29))
  {
    hide *;
    OutMore(n);
    CodedIs(Lits(), b, 3, r);
    LitOk(b);
    LeadCode(Shr(v, p), Lits(), b);
    ShrShr(v, p, 3);
    LitStep(Lits(), DISTS, Shr(v, p), Out(n), Lit(b), rest, bits, Out(29));
  }

  lemma {:induction false} OutMore(n: nat)
    requires n < 30
    ensures |OUTPUT| == 30 && Out(n) + [OUTPUT[n]] == Out(n + 1)
  {
  }

  lemma {:induction false} LitOk(b: byte)
    requires b < |Lits()| && Lits()[b] == 3
    ensures TokOk(Lits(), DISTS, Lit(b)) && TokBits(Lits(), DISTS, Lit(b)) == CodeBits(Lits(), b) && |CodeBits(Lits(), b)| == 3
  {
    hide Lits, CodeBits;
  }

  lemma {:induction false} LitFields(v: nat)
    requires v == SAMPLEVAL
    ensures Low(Shr(v, 128), 3) == 1 && Low(Shr(v, 131), 3) == 5 && Low(Shr(v, 134), 3) == 3
    ensures Low(Shr(v, 137), 3) == 7 && Low(Shr(v, 140), 3) == 1 && Low(Shr(v, 143), 3) == 5
  {
    AllFields(v);
    hide Low, Shr, SAMPLEVAL;
    TokFields(v);
  }

  lemma {:induction false} CopyFields(v: nat)
    requires v == SAMPLEVAL
    ensures Low(Shr(v, 146), 2) == 2 && Low(Shr(v, 148), 1) == 0 && Low(Shr(v, 149), 1) == 1 && Low(Shr(v, 150), 1) == 1
    ensures Low(Shr(v, 151), 2) == 2 && Low(Shr(v, 153), 1) == 1 && Low(Shr(v, 154), 1) == 0 && Low(Shr(v, 155), 0) == 0
    ensures Low(Shr(v, 155), 2) == 0
  {
    AllFields(v);
    NoBits(Shr(v, 155), 0);
    hide Low, Shr, SAMPLEVAL;
    TokFields(v);
    MoreTokFields(v);
  }

  lemma {:induction false} CopyConsts()
    ensures LExtra(8) == 1 && LBase(8) == 11 && DExtra(4) == 1 && DBase(4) == 5 && DExtra(0) == 0 && DBase(0) == 1 && Pow2(1) == 2 && Pow2(0) == 1
  {
  }

  /** A copy with the length symbol 265. */
  lemma {:induction false} CopyThere(v: nat, p: nat, lx: nat, di: nat, n: nat, dx: nat, r: nat)
    requires di < 5 && Coded(Lits(), 265, 2, 2) && |DISTS| == 5 && DISTS[di] == 1 && Coded(DISTS, di, 1, r) && LExtra(8) == 1 && DExtra(di) == n && lx < 2 && dx < Pow2(n)
    requires Low(Shr(v, p), 2) == 2 && Low(Shr(v, p + 2), 1) == lx && Low(Shr(v, p + 3), 1) == r && Low(Shr(v, p + 4), n) == dx
    ensures var t := Copy(8, lx, di, dx);
            TokOk(Lits(), DISTS, t) && Begins(Shr(v, p), TokBits(Lits(), DISTS, t)) && |TokBits(Lits(), DISTS, t)| == 4 + n
  {
    hide *;
    var t := Copy(8, lx, di, dx);
    CopySized(t, n);
    ShrShr(v, p, 2);
    ShrShr(v, p, 3);
    ShrShr(v, p, 4);
    CodedIs(Lits(), 265, 2, 2);
    CodedIs(DISTS, di, 1, r);
    LeadCopy(Shr(v, p), Lits(), DISTS, t);
  }

  lemma {:induction false} CodedIs(lens: seq<nat>, i: nat, n: nat, r: nat)
    requires Coded(lens, i, n, r)
    ensures i < |lens| && lens[i] == n && Rev(Code(lens, i), n) == r
  {
  }

  lemma {:induction false} CopySized(t: Tok, n: nat)
    requires t.Copy? && t.li == 8 && t.di < 5 && Coded(Lits(), 265, 2, 2) && |DISTS| == 5 && DISTS[t.di] == 1
    requires LExtra(8) == 1 && DExtra(t.di) == n && t.lx < 2 && t.dx < Pow2(n)
    ensures TokOk(Lits(), DISTS, t) && |TokBits(Lits(), DISTS, t)| == 4 + n
  {
    hide *;
    CodedIs(Lits(), 265, 2, 2);
    CopyIsOk(Lits(), DISTS, t);
    CopyRange(Lits(), DISTS, t);
  }

  lemma {:induction false} CopyIsOk(lit: seq<nat>, dist: seq<nat>, t: Tok)
    requires t.Copy? && t.li < 29 && LExtra(t.li) == 1 && t.lx < 2 && 257 + t.li < |lit| && lit[257 + t.li] > 0
    requires t.di < 30 && t.di < |dist| && dist[t.di] > 0 && t.dx < Pow2(DExtra(t.di))
    ensures TokOk(lit, dist, t)
  {
    assert Pow2(1) == 2;
    hide LExtra, DExtra;
  }

  lemma {:induction false} CopyLead(v: nat, p: nat, t: Tok, r: nat, bits: nat, n: nat, m: nat, rest: seq<Tok>, more: nat)
    requires |Lits()| == 266 && t.Copy? && t.li == 8 && t.di < 5 && |DISTS| == 5 && |OUTPUT| == 30
    requires TokOk(Lits(), DISTS, t) && Begins(Shr(v, p), TokBits(Lits(), DISTS, t)) && |TokBits(Lits(), DISTS, t)| == bits
    requires n <= m == n + Length(t) <= 29 && 1 <= Distance(t) <= n && forall k :: n <= k < m ==> OUTPUT[k] == OUTPUT[k - Distance(t)]
    requires ToksThere(Lits(), DISTS, Shr(v, p + bits), Out(m), rest, more, Out(29))
    ensures ToksThere(Lits(), DISTS, Shr(v, p), Out(n), [t] + rest, bits + more, Out(29))
  {
    OutIs(n);
    OutIs(m);
    hide *;
    CopyIs(OUTPUT, n, Length(t), Distance(t));
    ShrShr(v, p, bits);
    CopyStep(Lits(), DISTS, Shr(v, p), Out(n), t, Out(m), rest, more, Out(29));
  }

  lemma {:induction false} OutIs(n: nat)
    requires n <= 30
    ensures |OUTPUT| == 30 && Out(n) == OUTPUT[..n]
  {
  }

  lemma {:induction false} ToksEnd(v: nat)
    requires |Lits()| == 266 && Coded(Lits(), 256, 2, 0) && Low(Shr(v, 155), 2) == 0
    ensures ToksThere(Lits(), DISTS, Shr(v, 155), Out(29), [], 2, Out(29))
  {
    hide Begins, Shr, Low, Lits, OUTPUT, DISTS, CodeBits, Code, Rev, Out;
    LeadCode(Shr(v, 155), Lits(), 256);
  }

  lemma {:induction false} CopyValues()
    ensures Length(Copy(8, 0, 4, 1)) == 11 && Distance(Copy(8, 0, 4, 1)) == 6
    ensures Length(Copy(8, 1, 0, 0)) == 12 && Distance(Copy(8, 1, 0, 0)) == 1
  {
  }

  lemma {:induction false} CopyToks(v: nat)
    requires v == SAMPLEVAL
    ensures |Lits()| == 266 && ToksThere(Lits(), DISTS, Shr(v, 146), Out(6), [Copy(8, 0, 4, 1)] + ([Copy(8, 1, 0, 0)] + []), 11, Out(29))
  {
    hide *;
    CopyFields(v);
    LitCodes();
    DistCodes();
    CopyConsts();
    CopyValues();
    OutputIs();
    CodedIs(DISTS, 0, 1, 0);
    CodedIs(DISTS, 4, 1, 1);
    ToksEnd(v);
    CopyThere(v, 151, 1, 0, 0, 0, 0);
    CopyLead(v, 151, Copy(8, 1, 0, 0), 0, 4, 17, 29, [], 2);
    CopyThere(v, 146, 0, 4, 1, 1, 1);
    CopyLead(v, 146, Copy(8, 0, 4, 1), 1, 5, 6, 17, [Copy(8, 1, 0, 0)] + [], 6);
  }

  /** All tokens of the first block. */
  lemma {:induction false} AllToks(v: nat)
    requires v == SAMPLEVAL
    ensures |Lits()| == 266 && ToksThere(Lits(), DISTS, Shr(v, 128), [], TOKS, 29, Out(29))
  {
    hide *;
    LitFields(v);
    LitCodes();
    OutputIs();
    CopyToks(v);
    var rest := [Copy(8, 0, 4, 1)] + ([Copy(8, 1, 0, 0)] + []);
    LitLead(v, 98, 143, 5, 5, rest, 11);
    LitLead(v, 97, 140, 1, 4, [Lit(98)] + rest, 14);
    LitLead(v, 100, 137, 7, 3, [Lit(97)] + ([Lit(98)] + rest), 17);
    LitLead(v, 99, 134, 3, 2, [Lit(100)] + ([Lit(97)] + ([Lit(98)] + rest)), 20);
    LitLead(v, 98, 131, 5, 1, [Lit(99)] + ([Lit(100)] + ([Lit(97)] + ([Lit(98)] + rest))), 23);
    LitLead(v, 97, 128, 1, 0, [Lit(98)] + ([Lit(99)] + ([Lit(100)] + ([Lit(97)] + ([Lit(98)] + rest)))), 26);
    TokList();
    OutIs(0);
  }

  lemma {:induction false} TokList()
    ensures TOKS == [Lit(97)] + ([Lit(98)] + ([Lit(99)] + ([Lit(100)] + ([Lit(97)] + ([Lit(98)] + ([Copy(8, 0, 4, 1)] + ([Copy(8, 1, 0, 0)] + [])))))))
  {
  }

  // ---------------------------------------------------------------- the whole

  /** The bytes begin with the blocks, whatever position they are said to start at. */
  ghost predicate Spells(v: nat, pos: nat)
  {
    BlocksOk([], Blocks()) && Begins(v, StreamBits(pos, [], Blocks())) && |StreamBits(pos, [], Blocks())| == 175
    && ExpandBlocks([], Blocks()) == OUTPUT
  }

  function SecondToks(): seq<Tok> { [Lit(122)] + [] }

  lemma {:induction false} SecondBody(v: nat)
    requires v == SAMPLEVAL
    ensures Low(Shr(v, 157), 1) == 1 && Low(Shr(v, 158), 2) == 1
    ensures |FixedLengths()| == 288 && ToksThere(FixedLengths(), FixedDistances(), Shr(v, 160), Out(29), SecondToks(), 15, Out(30))
  {
    hide *;
    LastNumbers(v);
    FixedCodes();
    FixedOk();
    CodedIs(FixedLengths(), 122, 8, 85);
    CodedIs(FixedLengths(), 256, 7, 0);
    LeadCode(Shr(v, 160), FixedLengths(), 122);
    LeadCode(Shr(v, 168), FixedLengths(), 256);
    FixedLit();
    FixedEnd(Shr(v, 168), Out(30));
    OutputIs();
    OutMore(29);
    ShrShr(v, 160, 8);
    LitStep(FixedLengths(), FixedDistances(), Shr(v, 160), Out(29), Lit(122), [], 7, Out(30));
    SecondIs();
  }

  lemma {:induction false} SecondIs()
    ensures SecondToks() == [Lit(122)] + []
  {
  }

  lemma {:induction false} LastNumbers(v: nat)
    requires v == SAMPLEVAL
    ensures Low(Shr(v, 157), 1) == 1 && Low(Shr(v, 158), 2) == 1 && Low(Shr(v, 160), 8) == 85 && Low(Shr(v, 168), 7) == 0
  {
    AllFields(v);
    hide Low, Shr, SAMPLEVAL;
    LastFields(v);
  }

  lemma {:induction false} FixedLit()
    ensures |FixedLengths()| == 288 && FixedLengths()[122] == 8 && TokOk(FixedLengths(), FixedDistances(), Lit(122))
    ensures TokBits(FixedLengths(), FixedDistances(), Lit(122)) == CodeBits(FixedLengths(), 122) && |CodeBits(FixedLengths(), 122)| == 8
  {
    hide CodeBits;
  }

  lemma {:induction false} FixedEnd(w: nat, out: seq<byte>)
    requires |FixedLengths()| == 288 && FixedLengths()[256] == 7 && Begins(w, CodeBits(FixedLengths(), 256))
    ensures ToksThere(FixedLengths(), FixedDistances(), w, out, [], 7, out)
  {
    hide CodeBits, FixedLengths, FixedDistances, Begins;
  }

  lemma {:induction false} ToksParts(lit: seq<nat>, dist: seq<nat>, w: nat, out: seq<byte>, toks: seq<Tok>, bits: nat, made: seq<byte>)
    requires |lit| > 256 && ToksThere(lit, dist, w, out, toks, bits, made)
    ensures ToksOk(lit, dist, |out|, toks) && Begins(w, ToksBits(lit, dist, |out|, toks)) && |ToksBits(lit, dist, |out|, toks)| == bits
    ensures Expand(lit, dist, out, toks) == made
  {
  }

  lemma {:induction false} FirstBody(v: nat, pos: nat)
    requires v == SAMPLEVAL
    ensures var b := Dynamic(Head(), TOKS);
            BlockOk(0, b) && Begins(Shr(v, 3), BodyBits(pos, 0, b)) && |BodyBits(pos, 0, b)| == 154 && ExpandBlock([], b) == Out(29)
  {
    hide *;
    HeadLead(v);
    AllToks(v);
    LitCodes();
    CodedIs(Lits(), 256, 2, 0);
    ToksParts(Lits(), DISTS, Shr(v, 128), [], TOKS, 29, Out(29));
    ShrShr(v, 3, 125);
    BeginsAppend(Shr(v, 3), HeaderBits(Head()), ToksBits(Lits(), DISTS, 0, TOKS));
    DynamicIs(pos);
  }

  lemma {:induction false} DynamicIs(pos: nat)
    requires HeaderOk(Head()) && |Lits()| == 266 && Lits()[256] > 0 && ToksOk(Lits(), DISTS, 0, TOKS)
    ensures var b := Dynamic(Head(), TOKS);
            BlockOk(0, b) && BodyBits(pos, 0, b) == HeaderBits(Head()) + ToksBits(Lits(), DISTS, 0, TOKS)
            && ExpandBlock([], b) == Expand(Lits(), DISTS, [], TOKS)
  {
    hide HeaderOk, HeaderBits, ToksBits, ToksOk, Expand, Lits, DISTS, TOKS;
  }

  lemma {:induction false} FixedIs(pos: nat, out: seq<byte>, toks: seq<Tok>)
    requires |FixedLengths()| == 288 && ToksOk(FixedLengths(), FixedDistances(), |out|, toks)
    ensures var b := Fixed(toks);
            BlockOk(|out|, b) && BodyBits(pos, |out|, b) == ToksBits(FixedLengths(), FixedDistances(), |out|, toks)
            && ExpandBlock(out, b) == Expand(FixedLengths(), FixedDistances(), out, toks)
  {
    hide ToksBits, ToksOk, Expand, FixedLengths, FixedDistances;
  }

  lemma {:induction false} KindsAre()
    ensures Kind(Dynamic(Head(), TOKS)) == 2 && Kind(Fixed(SecondToks())) == 1 && Blocks() == [Dynamic(Head(), TOKS)] + ([Fixed(SecondToks())] + [])
    ensures Out(30) == OUTPUT
  {
    assert SecondToks() == [Lit(122)];
    assert Blocks() == [Dynamic(Head(), TOKS), Fixed([Lit(122)])];
    assert [Fixed(SecondToks())] + [] == [Fixed([Lit(122)])];
  }

  lemma {:induction false} NoBlocks(pos: nat, out: seq<byte>, w: nat)
    ensures BlocksOk(out, []) && StreamBits(pos, out, []) == [] && ExpandBlocks(out, []) == out && Begins(w, [])
  {
  }

  lemma {:induction false} SpellsIs(v: nat, pos: nat)
    requires BlocksOk([], Blocks()) && Begins(v, StreamBits(pos, [], Blocks())) && |StreamBits(pos, [], Blocks())| == 175
    requires ExpandBlocks([], Blocks()) == OUTPUT
    ensures Spells(v, pos)
  {
  }

  lemma {:induction false} AllThere(v: nat, pos: nat)
    requires v == SAMPLEVAL
    ensures Spells(v, pos)
  {
    hide *;
    HeadNumbers(v);
    FirstBody(v, pos + 3);
    SecondBody(v);
    ToksParts(FixedLengths(), FixedDistances(), Shr(v, 160), Out(29), SecondToks(), 15, Out(30));
    FixedIs(pos + 157 + 3, Out(29), SecondToks());
    KindsAre();
    var b0, b1, w := Dynamic(Head(), TOKS), Fixed(SecondToks()), Shr(v, 157);
    ShrShr(v, 157, 1);
    ShrShr(v, 157, 3);
    NoBlocks(pos + 157 + 18, Out(30), Shr(w, 18));
    LeadBlock(w, pos + 157, Out(29), b1, []);
    LeadBlock(v, pos, [], b0, [b1] + []);
    SpellsIs(v, pos);
  }

  // ---------------------------------------------------------------- both decoders on it

  lemma {:induction false} SpellsParts(v: nat, pos: nat)
    requires Spells(v, pos)
    ensures BlocksOk([], Blocks()) && Begins(v, StreamBits(pos, [], Blocks())) && |StreamBits(pos, [], Blocks())| == 175
    ensures ExpandBlocks([], Blocks()) == OUTPUT
  {
  }

  lemma {:induction false} FewToks()
    ensures |Blocks()| == 2 && forall b :: b in Blocks() ==> TokCount(b) < 9
  {
    hide Head;
  }

  /** The usual header of two bytes before it: the decoder of stb_image.c puts out the output. */
  lemma {:induction false} StbDecodes(cap: Option<nat>)
    ensures Unpacked([0x78, 0x9c] + SAMPLE, true, false, 2, 9, cap) == if Full(cap, 30) then (Fail, []) else (Ok, OUTPUT)
  {
    hide *;
    SampleIs();
    AllThere(SAMPLEVAL, 16);
    SpellsParts(SAMPLEVAL, 16);
    FewToks();
    UsualHeader();
    OutputIs();
    ZlibBack(7, 2, SAMPLE, Blocks(), 2, 9, cap);
  }

  lemma {:induction false} UsualHeader()
    ensures ZlibHeader(7, 2) == [0x78, 0x9c]
  {
  }

  lemma {:induction false} AllStrict()
    ensures forall b :: b in Blocks() ==> Strict(b)
  {
    hide Kraft, Lits, CL, DISTS, OPS, TOKS, HeaderOk, Accepted, Code, Rev;
    HeadIsOk();
    ClCodes();
    LitCodes();
    DistCodes();
    AcceptedIs(CL);
    AcceptedIs(Lits());
    AcceptedIs(DISTS);
  }

  /** And so does inflate. */
  lemma {:induction false} InflateDecodes()
    ensures Entry.Decoded(SAMPLE) == OUTPUT && Entry.Verdict(SAMPLE).Ended?
  {
    hide *;
    SampleIs();
    AllThere(SAMPLEVAL, 0);
    SpellsParts(SAMPLEVAL, 0);
    AllStrict();
    SomeBlocks();
    Entry.DecodedEncoding(SAMPLE, Blocks());
  }

  lemma {:induction false} SomeBlocks()
    ensures Blocks() != []
  {
  }

  /** do_zlib on the bytes with a header, with room for them. */
  method StbSample() returns (st: Status, out: seq<byte>)
    ensures st == Ok && out == OUTPUT
  {
    hide Unpacked, OUTPUT, SAMPLE;
    StbDecodes(Some(30));
    var room := new byte[30];
    st, out := DoZlib([0x78, 0x9c] + SAMPLE, room, false, true, false, 2, 9);
  }

  /** An entry of a zip file that holds the bytes, read by one call. */
  method EntrySample() returns (out: Entry.Outcome, buf: seq<byte>)
    ensures out == Entry.Returns(30) && buf == OUTPUT
  {
    hide Entry.Reader.Ok, Entry.Decoded, Entry.Verdict, Entry.Reader.Data, Entry.Reader.Doomed, OUTPUT, SAMPLE;
    InflateDecodes();
    OutputIs();
    SampleIs();
    var r := new Entry.Reader(SAMPLE, 0, 0, 23, 30, 0, 8);
    WholeFile(r);
    r.Totals();
    out, buf := r.Read(30);
    WholeFile(r);
  }

  lemma {:induction false} WholeFile(r: Entry.Reader)
    requires r.start == 0 && r.csize == 23 && r.file == SAMPLE && |SAMPLE| == 23
    ensures r.Data() == SAMPLE
  {
    hide SAMPLE;
    assert SAMPLE[0..23] == SAMPLE;
  }
}
