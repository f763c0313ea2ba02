/** CStdStringPtrMap of DuiLib/UIBase.cpp: chains of items in buckets, for any hash function; 0 is the null pointer. */
module StringMap {

  datatype Pair = Pair(key: string, data: nat)

  // ---------------------------------------------------------------- a bucket as a sequence

  function Lookup(s: seq<Pair>, key: string): nat
  {
    if s == [] then 0 else if s[0].key == key then s[0].data else Lookup(s[1..], key)
  }

  predicate Has(s: seq<Pair>, key: string)
  {
    exists i :: 0 <= i < |s| && s[i].key == key
  }

  /** The first pair with the key gets new data. */
  function Put(s: seq<Pair>, key: string, data: nat): seq<Pair>
  {
    if s == [] then [] else if s[0].key == key then [Pair(key, data)] + s[1..] else [s[0]] + Put(s[1..], key, data)
  }

  /** The first pair with the key goes. */
  function Drop(s: seq<Pair>, key: string): seq<Pair>
  {
    if s == [] then [] else if s[0].key == key then s[1..] else [s[0]] + Drop(s[1..], key)
  }

  // ---------------------------------------------------------------- the map that buckets stand for

  /** All pairs, in the order in which they are enumerated: the last bucket first. */
  function All(abs: seq<seq<Pair>>): seq<Pair>
  {
    if abs == [] then [] else abs[|abs| - 1] + All(abs[..|abs| - 1])
  }

  ghost predicate KeysDiffer(s: seq<Pair>)
  {
    forall i, j :: 0 <= i < j < |s| ==> s[i].key != s[j].key
  }

  /** Keys are in their own buckets, once. Data may be null. */
  ghost predicate Proper(hash: string -> nat, abs: seq<seq<Pair>>)
  {
    (forall b :: 0 <= b < |abs| ==> KeysDiffer(abs[b]))
    && (forall b, i :: 0 <= b < |abs| && 0 <= i < |abs[b]| ==> hash(abs[b][i].key) % |abs| == b)
  }

  function AsMap(s: seq<Pair>): map<string, nat>
  {
    if s == [] then map[] else AsMap(s[1..])[s[0].key := s[0].data]
  }

  lemma {:induction false} MapGrows(m: map<string, nat>, k: string, d: nat)
    requires k !in m
    ensures |m[k := d]| == |m| + 1
  {
    assert m[k := d].Keys == m.Keys + {k};
    assert |m[k := d]| == |m[k := d].Keys| && |m| == |m.Keys|;
  }

  function PairAt(m: map<string, nat>, k: string): Pair { Pair(k, if k in m then m[k] else 0) }

  /** The map has exactly the pairs of the list. */
  lemma {:induction false} AsMapIs(s: seq<Pair>)
    requires KeysDiffer(s)
    ensures forall p :: p in s <==> p.key in AsMap(s) && AsMap(s)[p.key] == p.data
    ensures |AsMap(s)| == |s|
  {
    if s != [] {
      AsMapIs(s[1..]);
      assert s == [s[0]] + s[1..];
      var m := AsMap(s[1..]);
      forall q | q in s[1..] ensures q.key != s[0].key { KeysIn(s, q); }
      assert PairAt(m, s[0].key) !in s[1..];
      MapGrows(m, s[0].key, s[0].data);
    }
  }

  lemma {:induction false} AllHas(abs: seq<seq<Pair>>, p: Pair, b: nat)
    requires b < |abs| && p in abs[b]
    ensures p in All(abs)
  {
    var n := |abs| - 1;
    if b < n { AllHas(abs[..n], p, b); }
  }

  lemma {:induction false} AllFrom(abs: seq<seq<Pair>>, p: Pair) returns (b: nat)
    requires p in All(abs)
    ensures b < |abs| && p in abs[b]
  {
    b := |abs| - 1;
    if p !in abs[b] { b := AllFrom(abs[..b], p); }
  }

  lemma {:induction false} AllHolds(abs: seq<seq<Pair>>, p: Pair)
    ensures p in All(abs) <==> exists b :: 0 <= b < |abs| && p in abs[b]
  {
    hide All;
    if p in All(abs) {
      var b := AllFrom(abs, p);
    } else if exists b :: 0 <= b < |abs| && p in abs[b] {
      var b: nat :| b < |abs| && p in abs[b];
      AllHas(abs, p, b);
      assert false;
    }
  }

  lemma {:induction false} KeysAppend(a: seq<Pair>, b: seq<Pair>)
    requires KeysDiffer(a) && KeysDiffer(b) && forall p, q :: p in a && q in b ==> p.key != q.key
    ensures KeysDiffer(a + b)
  {
    forall i, j | 0 <= i < j < |a + b| ensures (a + b)[i].key != (a + b)[j].key {
      if i < |a| <= j { assert (a + b)[i] in a && (a + b)[j] in b; }
    }
  }

  /** No key occurs twice in the whole enumeration. */
  lemma {:induction false} AllDistinct(hash: string -> nat, n: nat, abs: seq<seq<Pair>>)
    requires |abs| <= n && forall b :: 0 <= b < |abs| ==> KeysDiffer(abs[b])
    requires forall b, i :: 0 <= b < |abs| && 0 <= i < |abs[b]| ==> hash(abs[b][i].key) % n == b
    ensures KeysDiffer(All(abs))
  {
    if abs != [] {
      var m := |abs| - 1;
      AllDistinct(hash, n, abs[..m]);
      forall p, q | p in abs[m] && q in All(abs[..m]) ensures p.key != q.key {
        AllHolds(abs[..m], q);
        var b :| 0 <= b < m && q in abs[..m][b];
        var i :| 0 <= i < |abs[b]| && abs[b][i] == q;
        var j :| 0 <= j < |abs[m]| && abs[m][j] == p;
      }
      KeysAppend(abs[m], All(abs[..m]));
    }
  }

  lemma {:induction false} LookupIs(s: seq<Pair>, key: string)
    ensures Has(s, key) ==> Pair(key, Lookup(s, key)) in s
    ensures !Has(s, key) ==> Lookup(s, key) == 0
  {
    if s != [] {
      LookupIs(s[1..], key);
      if Has(s[1..], key) {
        var i :| 0 <= i < |s[1..]| && s[1..][i].key == key;
        assert s[i + 1].key == key;
      }
      if Has(s, key) && s[0].key != key {
        var i :| 0 <= i < |s| && s[i].key == key;
        assert s[1..][i - 1].key == key;
      }
    }
  }

  /** Find on proper buckets is lookup in the map. */
  lemma {:induction false} FindIsLookup(hash: string -> nat, abs: seq<seq<Pair>>, key: string)
    requires Proper(hash, abs) && |abs| > 0
    ensures var m := AsMap(All(abs)); Lookup(abs[hash(key) % |abs|], key) == if key in m then m[key] else 0
  {
    var s := abs[hash(key) % |abs|];
    var all := All(abs);
    AllDistinct(hash, |abs|, abs);
    AsMapIs(all);
    LookupIs(s, key);
    if Has(s, key) {
      var p := Pair(key, Lookup(s, key));
      AllHolds(abs, p);
    } else if key in AsMap(all) {
      NotElsewhere(hash, abs, Pair(key, AsMap(all)[key]));
    }
  }

  /** A pair of the map is in the bucket of its key. */
  lemma {:induction false} NotElsewhere(hash: string -> nat, abs: seq<seq<Pair>>, p: Pair)
    requires Proper(hash, abs) && |abs| > 0 && p in All(abs)
    ensures p in abs[hash(p.key) % |abs|] && Has(abs[hash(p.key) % |abs|], p.key)
  {
    AllHolds(abs, p);
    var b :| 0 <= b < |abs| && p in abs[b];
    var j :| 0 <= j < |abs[b]| && abs[b][j] == p;
  }

  /** Two lists with the same pairs, each key once, are the same map. */
  lemma {:induction false} SameMap(s: seq<Pair>, t: seq<Pair>, extra: map<string, nat>, gone: string)
    requires KeysDiffer(s) && KeysDiffer(t)
    requires forall p :: p in t <==> (p in s && p.key != gone) || (gone in extra && p == Pair(gone, extra[gone]))
    requires forall k :: k in extra ==> k == gone
    ensures AsMap(t) == (AsMap(s) - {gone}) + extra
  {
    AsMapIs(s);
    AsMapIs(t);
    var ms, mt := AsMap(s), AsMap(t);
    hide AsMap, KeysDiffer;
    var m := (ms - {gone}) + extra;
    forall k ensures k in mt <==> k in m
             ensures k in mt ==> mt[k] == m[k]
    {
      if k in mt { assert Pair(k, mt[k]) in t; }
      if k in ms { assert Pair(k, ms[k]) in s; }
      if k in extra { assert Pair(k, extra[k]) in t; }
    }
    assert mt == m;
  }

  /** What changing one bucket does to the whole, if it changes one key. */
  lemma {:induction false} OneBucket(hash: string -> nat, abs: seq<seq<Pair>>, b: nat, s: seq<Pair>, key: string, extra: map<string, nat>)
    requires Proper(hash, abs) && b < |abs| && b == hash(key) % |abs| && Proper(hash, abs[b := s]) && forall k :: k in extra ==> k == key
    requires forall p :: p in s <==> (p in abs[b] && p.key != key) || (key in extra && p == Pair(key, extra[key]))
    ensures AsMap(All(abs[b := s])) == (AsMap(All(abs)) - {key}) + extra
  {
    var abs2 := abs[b := s];
    AllDistinct(hash, |abs|, abs);
    AllDistinct(hash, |abs|, abs2);
    forall p ensures p in All(abs2) <==> (p in All(abs) && p.key != key) || (key in extra && p == Pair(key, extra[key])) {
      AllHolds(abs, p);
      AllHolds(abs2, p);
      if p in All(abs2) {
        var c :| 0 <= c < |abs2| && p in abs2[c];
        if c != b {
          assert p in abs[c];
          var i :| 0 <= i < |abs[c]| && abs[c][i] == p;
        }
      }
      if p in All(abs) && p.key != key {
        var c :| 0 <= c < |abs| && p in abs[c];
        assert p in abs2[c];
      }
      if key in extra && p == Pair(key, extra[key]) { assert p in abs2[b]; }
    }
    SameMap(All(abs), All(abs2), extra, key);
  }

  lemma {:induction false} KeysIn(s: seq<Pair>, q: Pair)
    requires q in s && s != []
    ensures KeysDiffer(s) && q in s[1..] ==> q.key != s[0].key
  {
    if q in s[1..] {
      var i :| 0 <= i < |s[1..]| && s[1..][i] == q;
      assert s[i + 1] == q;
    }
  }

  lemma {:induction false} PutIs(s: seq<Pair>, key: string, data: nat)
    requires KeysDiffer(s) && Has(s, key)
    ensures KeysDiffer(Put(s, key, data))
    ensures forall p :: p in Put(s, key, data) <==> (p in s && p.key != key) || p == Pair(key, data)
  {
    var t := s[1..];
    assert s == [s[0]] + t;
    forall q | q in t ensures q.key != s[0].key { KeysIn(s, q); }
    if s[0].key == key {
      KeysAppend([Pair(key, data)], t);
    } else {
      var i :| 0 <= i < |s| && s[i].key == key;
      assert t[i - 1].key == key;
      PutIs(t, key, data);
      KeysAppend([s[0]], Put(t, key, data));
    }
  }

  lemma {:induction false} DropIs(s: seq<Pair>, key: string)
    requires KeysDiffer(s)
    ensures KeysDiffer(Drop(s, key)) && forall p :: p in Drop(s, key) <==> p in s && p.key != key
  {
    if s != [] {
      assert s == [s[0]] + s[1..];
      forall q | q in s[1..] ensures q.key != s[0].key { KeysIn(s, q); }
      if s[0].key != key {
        DropIs(s[1..], key);
        KeysAppend([s[0]], Drop(s[1..], key));
      }
    }
  }

  lemma {:induction false} DropAbsent(s: seq<Pair>, key: string)
    requires !Has(s, key)
    ensures Drop(s, key) == s && Lookup(s, key) == 0
  {
    if s != [] {
      assert s[0].key != key;
      forall i | 0 <= i < |s[1..]| ensures s[1..][i].key != key { assert s[1..][i] == s[i + 1]; }
      DropAbsent(s[1..], key);
    }
  }

  // ---------------------------------------------------------------- the operations on buckets, as operations on the map

  /** Another list in a bucket. */
  lemma {:induction false} ProperWith(hash: string -> nat, abs: seq<seq<Pair>>, b: nat, s: seq<Pair>)
    requires Proper(hash, abs) && b < |abs| && KeysDiffer(s) && forall p :: p in s ==> hash(p.key) % |abs| == b
    ensures Proper(hash, abs[b := s])
  {
    forall i | 0 <= i < |s| ensures hash(s[i].key) % |abs| == b { assert s[i] in s; }
  }

  lemma {:induction false} ProperIn(hash: string -> nat, abs: seq<seq<Pair>>, b: nat, p: Pair)
    requires Proper(hash, abs) && b < |abs| && p in abs[b]
    ensures hash(p.key) % |abs| == b
  {
    var i :| 0 <= i < |abs[b]| && abs[b][i] == p;
  }

  lemma {:induction false} ProperBucket(hash: string -> nat, abs: seq<seq<Pair>>, key: string)
    requires Proper(hash, abs) && |abs| > 0
    ensures var b := hash(key) % |abs|; var m := AsMap(All(abs));
            KeysDiffer(abs[b]) && (Has(abs[b], key) <==> key in m) && Lookup(abs[b], key) == (if key in m then m[key] else 0)
  {
    FindIsLookup(hash, abs, key);
    var s := abs[hash(key) % |abs|];
    LookupIs(s, key);
    AllDistinct(hash, |abs|, abs);
    AsMapIs(All(abs));
    if Has(s, key) { AllHolds(abs, Pair(key, Lookup(s, key))); }
    if key in AsMap(All(abs)) { NotElsewhere(hash, abs, Pair(key, AsMap(All(abs))[key])); }
  }

  lemma {:induction false} NewInFront(s: seq<Pair>, key: string, data: nat)
    requires KeysDiffer(s) && !Has(s, key)
    ensures var t := [Pair(key, data)] + s; KeysDiffer(t) && forall p :: p in t <==> (p in s && p.key != key) || p == Pair(key, data)
  {
    forall p | p in s ensures p.key != key { var i :| 0 <= i < |s| && s[i] == p; }
    KeysAppend([Pair(key, data)], s);
  }

  /** A key that comes a second time. */
  lemma {:induction false} Twice(s: seq<Pair>, key: string, data: nat)
    requires Has(s, key)
    ensures !KeysDiffer([Pair(key, data)] + s)
  {
    var i :| 0 <= i < |s| && s[i].key == key;
    var t := [Pair(key, data)] + s;
    assert t[0].key == t[i + 1].key;
  }

  /** Insert: a pair is added in front of its bucket. The buckets still stand for a map exactly if the key is new. */
  lemma {:induction false} InsertIs(hash: string -> nat, abs: seq<seq<Pair>>, key: string, data: nat)
    requires Proper(hash, abs) && |abs| > 0
    ensures var b := hash(key) % |abs|; var m := AsMap(All(abs)); var abs2 := abs[b := [Pair(key, data)] + abs[b]];
            Lookup(abs[b], key) == (if key in m then m[key] else 0)
            && (Proper(hash, abs2) <==> key !in m) && (key !in m ==> AsMap(All(abs2)) == m[key := data])
  {
    hide Has, KeysDiffer, Lookup, AsMap, All;
    var b := hash(key) % |abs|;
    var m := AsMap(All(abs));
    ProperBucket(hash, abs, key);
    var s := [Pair(key, data)] + abs[b];
    if key in m {
      Twice(abs[b], key, data);
      assert abs[b := s][b] == s;
    } else {
      NewInFront(abs[b], key, data);
      forall p | p in abs[b] ensures hash(p.key) % |abs| == b { ProperIn(hash, abs, b, p); }
      ProperWith(hash, abs, b, s);
      OneBucket(hash, abs, b, s, key, map[key := data]);
      assert m[key := data] == (m - {key}) + map[key := data];
    }
  }

  /** Set on a key that is there. */
  lemma {:induction false} SetIs(hash: string -> nat, abs: seq<seq<Pair>>, key: string, data: nat)
    requires Proper(hash, abs) && |abs| > 0
    ensures var b := hash(key) % |abs|; var m := AsMap(All(abs));
            (Has(abs[b], key) <==> key in m)
            && (key in m ==>
                  var abs2 := abs[b := Put(abs[b], key, data)]; Proper(hash, abs2) && AsMap(All(abs2)) == m[key := data])
  {
    hide Proper, Has, KeysDiffer, Put, AsMap, All;
    var b := hash(key) % |abs|;
    var m := AsMap(All(abs));
    ProperBucket(hash, abs, key);
    if key in m {
      var s := Put(abs[b], key, data);
      PutIs(abs[b], key, data);
      forall p | p in abs[b] ensures hash(p.key) % |abs| == b { ProperIn(hash, abs, b, p); }
      ProperWith(hash, abs, b, s);
      OneBucket(hash, abs, b, s, key, map[key := data]);
      assert m[key := data] == (m - {key}) + map[key := data];
    }
  }

  /** Remove. */
  lemma {:induction false} RemoveIs(hash: string -> nat, abs: seq<seq<Pair>>, key: string)
    requires Proper(hash, abs) && |abs| > 0
    ensures var b := hash(key) % |abs|; var m := AsMap(All(abs));
            (Has(abs[b], key) <==> key in m)
            && var abs2 := abs[b := Drop(abs[b], key)]; Proper(hash, abs2) && AsMap(All(abs2)) == m - {key}
  {
    hide Proper, Has, KeysDiffer, Drop, AsMap, All;
    var b := hash(key) % |abs|;
    var m := AsMap(All(abs));
    ProperBucket(hash, abs, key);
    var s := Drop(abs[b], key);
    DropIs(abs[b], key);
    forall p | p in abs[b] ensures hash(p.key) % |abs| == b { ProperIn(hash, abs, b, p); }
    ProperWith(hash, abs, b, s);
    OneBucket(hash, abs, b, s, key, map[]);
    assert m - {key} == (m - {key}) + map[];
  }

  /** The enumeration has every key of the map once. */
  lemma {:induction false} Enumerates(hash: string -> nat, abs: seq<seq<Pair>>)
    requires Proper(hash, abs)
    ensures var all := All(abs); KeysDiffer(all) && |all| == |AsMap(all)| && forall p :: p in all <==> p.key in AsMap(all) && AsMap(all)[p.key] == p.data
  {
    AllDistinct(hash, |abs|, abs);
    AsMapIs(All(abs));
  }

  /** The keys of a list. */
  function Keys(s: seq<Pair>): (r: seq<string>)
    ensures |r| == |s|
  {
    seq(|s|, i requires 0 <= i < |s| => s[i].key)
  }

  /** The enumeration of proper buckets names every key of the map once. */
  lemma {:induction false} KeysOnce(hash: string -> nat, abs: seq<seq<Pair>>)
    requires Proper(hash, abs)
    ensures var ks, m := Keys(All(abs)), AsMap(All(abs));
            |ks| == |m| && (forall k :: k in ks <==> k in m) && forall i, j :: 0 <= i < j < |ks| ==> ks[i] != ks[j]
  {
    Enumerates(hash, abs);
    var all, m := All(abs), AsMap(All(abs));
    hide AsMap, All, Proper;
    forall k ensures k in Keys(all) <==> k in m {
      if k in m {
        var i :| 0 <= i < |all| && all[i] == Pair(k, m[k]);
        assert Keys(all)[i] == k;
      }
      if k in Keys(all) {
        var i :| 0 <= i < |all| && Keys(all)[i] == k;
        assert all[i] in all;
      }
    }
  }

  // ---------------------------------------------------------------- the linked chains

  /** TITEM */
  class Item {
    const Key: string
    var Data: nat
    var pNext: Item?

    constructor (key: string, data: nat, next: Item?)
      ensures Key == key && Data == data && pNext == next
    {
      Key, Data, pNext := key, data, next;
    }
  }

  /** Item i is linked to the next one. */
  ghost predicate LinkAt(items: seq<Item>, i: nat)
    requires i < |items|
    reads items
  {
    items[i].pNext == if i + 1 < |items| then items[i + 1] else null
  }

  ghost predicate ShowsAt(items: seq<Item>, s: seq<Pair>, i: nat)
    requires i < |items| && i < |s|
    reads items
  {
    items[i].Key == s[i].key && items[i].Data == s[i].data
  }

  /** The items from head on, linked through pNext to the end, with the pairs s. */
  ghost predicate Chain(head: Item?, items: seq<Item>, s: seq<Pair>)
    reads items
  {
    |items| == |s|
    && (if items == [] then head == null else head == items[0])
    && (forall i :: 0 <= i < |items| ==> LinkAt(items, i))
    && (forall i :: 0 <= i < |items| ==> ShowsAt(items, s, i))
    && forall i, j :: 0 <= i < j < |items| ==> items[i] != items[j]
  }

  lemma {:induction false} ChainAt(head: Item?, items: seq<Item>, s: seq<Pair>, i: nat)
    requires Chain(head, items, s) && i < |items|
    ensures |items| == |s| && items[i].pNext == (if i + 1 < |items| then items[i + 1] else null)
    ensures items[i].Key == s[i].key && items[i].Data == s[i].data
  {
    assert LinkAt(items, i) && ShowsAt(items, s, i);
  }

  lemma {:induction false} ChainHead(head: Item?, items: seq<Item>, s: seq<Pair>)
    requires Chain(head, items, s)
    ensures |items| == |s| && head == if items == [] then null else items[0]
  {
  }

  /** A new item in front. */
  lemma {:induction false} ChainCons(head: Item?, items: seq<Item>, s: seq<Pair>, item: Item)
    requires Chain(head, items, s) && item !in items && item.pNext == head
    ensures Chain(item, [item] + items, [Pair(item.Key, item.Data)] + s)
  {
    var t, s2 := [item] + items, [Pair(item.Key, item.Data)] + s;
    forall i | 0 <= i < |t| ensures LinkAt(t, i) && ShowsAt(t, s2, i) {
      if i > 0 { assert LinkAt(items, i - 1) && ShowsAt(items, s, i - 1); }
    }
  }

  // ---------------------------------------------------------------- what users expect of the map

  datatype Op =
    | DoFind(key: string)
    | DoInsert(key: string, data: nat)
    | DoSet(key: string, data: nat)
    | DoRemove(key: string)
    | DoSize
    | DoGetAt(index: int)
    | DoResize(size: int)

  datatype Answer = Data(data: nat) | Flag(ok: bool) | Count(n: nat) | Key(key: string) | NoKey | Resized

  /** A finite map; and whether there are no buckets, so that nothing can be put into it. */
  datatype State = State(m: map<string, nat>, bare: bool)

  /** What an operation makes of it. */
  function Ideal(s: State, op: Op): State
  {
    match op
    case DoInsert(k, d) => if s.bare || k in s.m then s else s.(m := s.m[k := d])
    case DoSet(k, d) => if s.bare then s else s.(m := s.m[k := d])
    case DoRemove(k) => s.(m := s.m - {k})
    case DoResize(n) => State(map[], n <= 0)
    case _ => s
  }

  /** What it may answer. In which order the keys are enumerated is left open. */
  predicate Answers(s: State, op: Op, a: Answer)
  {
    match op
    case DoFind(k) => a == Data(if k in s.m then s.m[k] else 0)
    case DoInsert(k, d) => a == Flag(!s.bare && k !in s.m)
    case DoSet(k, d) => a == Data(if s.bare then d else if k in s.m then s.m[k] else 0)
    case DoRemove(k) => a == Flag(k in s.m)
    case DoSize => a == Count(|s.m|)
    case DoGetAt(i) => if 0 <= i < |s.m| then a.Key? && a.key in s.m else a == NoKey
    case DoResize(_) => a == Resized
  }

  /** Insert for a key whose data are null. */
  predicate Lost(s: State, op: Op)
  {
    op.DoInsert? && op.key in s.m && s.m[op.key] == 0
  }

  function After(s: State, ops: seq<Op>): State
    decreases |ops|
  {
    if ops == [] then s else After(Ideal(s, ops[0]), ops[1..])
  }

  /** The answers to a series of operations. */
  predicate AllAnswer(s: State, ops: seq<Op>, answers: seq<Answer>)
    decreases |ops|
  {
    |answers| == |ops|
    && (ops == [] || (Answers(s, ops[0], answers[0]) && AllAnswer(Ideal(s, ops[0]), ops[1..], answers[1..])))
  }

  predicate NoLost(s: State, ops: seq<Op>)
    decreases |ops|
  {
    ops == [] || (!Lost(s, ops[0]) && NoLost(Ideal(s, ops[0]), ops[1..]))
  }

  predicate NotNull(op: Op)
  {
    match op
    case DoInsert(k, d) => d != 0
    case DoSet(k, d) => d != 0
    case _ => true
  }

  /** Who never passes null data never meets that case. */
  lemma {:induction false} NotNullNoLost(s: State, ops: seq<Op>)
    requires (forall k :: k in s.m ==> s.m[k] != 0) && (forall op :: op in ops ==> NotNull(op))
    ensures NoLost(s, ops)
    decreases |ops|
  {
    if ops != [] {
      assert NotNull(ops[0]);
      NotNullNoLost(Ideal(s, ops[0]), ops[1..]);
    }
  }

  /** One operation more. */
  lemma {:induction false} OpsMore(s: State, ops: seq<Op>, op: Op)
    ensures After(s, ops + [op]) == Ideal(After(s, ops), op)
    ensures NoLost(s, ops + [op]) <==> NoLost(s, ops) && !Lost(After(s, ops), op)
    decreases |ops|
  {
    if ops == [] {
      assert [op][1..] == [];
    } else {
      assert (ops + [op])[1..] == ops[1..] + [op];
      OpsMore(Ideal(s, ops[0]), ops[1..], op);
    }
  }

  lemma {:induction false} AnswersMore(s: State, ops: seq<Op>, answers: seq<Answer>, op: Op, a: Answer)
    requires AllAnswer(s, ops, answers) && Answers(After(s, ops), op, a)
    ensures AllAnswer(s, ops + [op], answers + [a])
    decreases |ops|
  {
    if ops == [] {
      assert [op][1..] == [] && [a][1..] == [];
      assert answers + [a] == [a];
    } else {
      assert (ops + [op])[1..] == ops[1..] + [op] && (answers + [a])[1..] == answers[1..] + [a];
      AnswersMore(Ideal(s, ops[0]), ops[1..], answers[1..], op, a);
    }
  }

  /** If a series never inserts over null data, none of its beginnings does. */
  lemma {:induction false} NoLostPart(s: State, ops: seq<Op>, i: nat)
    requires i <= |ops| && NoLost(s, ops)
    ensures NoLost(s, ops[..i])
    decreases |ops| - i
  {
    if i < |ops| {
      NoLostPart(s, ops, i + 1);
      assert ops[..i + 1] == ops[..i] + [ops[i]];
      OpsMore(s, ops[..i], ops[i]);
    } else {
      assert ops[..i] == ops;
    }
  }

  class CStdStringPtrMap {
    const hash: string -> nat
    var m_aT: array<Item?>       // m_nBuckets is its length

    /** The items of each chain, their pairs, and all of them. */
    ghost var chains: seq<seq<Item>>
    ghost var abs: seq<seq<Pair>>
    ghost var items: set<Item>

    ghost predicate Valid()
      reads this, m_aT, items
    {
      |chains| == |abs| == m_aT.Length
      && (forall b, i :: 0 <= b < |chains| && 0 <= i < |chains[b]| ==> chains[b][i] in items)
      && (forall b :: 0 <= b < |chains| ==> Chain(m_aT[b], chains[b], abs[b]))
      && forall b, c, i, j :: 0 <= b < c < |chains| && 0 <= i < |chains[b]| && 0 <= j < |chains[c]| ==> chains[b][i] != chains[c][j]
    }

    /** The buckets stand for a map. */
    ghost predicate MapValid()
      reads this, m_aT, items
    {
      Valid() && Proper(hash, abs)
    }

    /** The map. */
    ghost function Map(): map<string, nat>
      reads this
    {
      AsMap(All(abs))
    }

    function Slot(key: string): (b: nat)
      requires m_aT.Length > 0
      reads this
      ensures b < m_aT.Length
    {
      hash(key) % m_aT.Length
    }

    constructor (h: string -> nat, nSize: int)
      ensures MapValid() && fresh(m_aT) && hash == h && m_aT.Length >= 16 && (nSize >= 16 ==> m_aT.Length == nSize) && Map() == map[] && items == {}
    {
      var n: nat := if nSize < 16 then 16 else nSize;
      hash := h;
      m_aT := new Item?[n](_ => null);
      chains, abs, items := seq(n, _ => []), seq(n, _ => []), {};
      new;
      NoPairs(abs);
    }

    static lemma {:induction false} NoPairs(abs: seq<seq<Pair>>)
      requires forall b :: 0 <= b < |abs| ==> abs[b] == []
      ensures All(abs) == []
    {
      if abs != [] { NoPairs(abs[..|abs| - 1]); }
    }

    static lemma {:induction false} Bare(abs: seq<seq<Pair>>)
      requires abs == []
      ensures AsMap(All(abs)) == map[]
    {
    }

    /** Resize throws everything away. */
    method Resize(nSize: int)
      requires Valid()
      modifies this
      ensures MapValid() && fresh(m_aT) && m_aT.Length == (if nSize < 0 then 0 else nSize) && Map() == map[] && items == {}
    {
      var n: nat := if nSize < 0 then 0 else nSize;
      m_aT := new Item?[n](_ => null);
      chains, abs, items := seq(n, _ => []), seq(n, _ => []), {};
      NoPairs(abs);
    }

    lemma {:induction false} LookupAt(s: seq<Pair>, i: nat, key: string)
      requires i <= |s|
      ensures i < |s| ==> Lookup(s[i..], key) == if s[i].key == key then s[i].data else Lookup(s[i + 1..], key)
      ensures i == |s| ==> Lookup(s[i..], key) == 0
    {
      if i < |s| { assert s[i..][1..] == s[i + 1..]; }
    }

    method Find(key: string) returns (data: nat)
      requires Valid()
      ensures data == if m_aT.Length == 0 then 0 else Lookup(abs[Slot(key)], key)
      ensures MapValid() ==> data == if key in Map() then Map()[key] else 0
    {
      hide Chain, Proper, AsMap, All;
      if m_aT.Length == 0 {
        Bare(abs);
        return 0;
      }
      if Proper(hash, abs) { FindIsLookup(hash, abs, key); }
      var slot := Slot(key);
      ghost var s, c := abs[slot], chains[slot];
      ChainHead(m_aT[slot], c, s);
      assert s[0..] == s;
      var pItem := m_aT[slot];
      ghost var i := 0;
      while pItem != null
        invariant 0 <= i <= |c| && pItem == (if i < |c| then c[i] else null) && Lookup(s[i..], key) == Lookup(s, key)
        decreases |c| - i
      {
        LookupAt(s, i, key);
        ChainAt(m_aT[slot], c, s, i);
        if pItem.Key == key { return pItem.Data; }
        pItem := pItem.pNext;
        i := i + 1;
      }
      LookupAt(s, i, key);
      data := 0;
    }

    method Insert(key: string, pData: nat) returns (ok: bool)
      requires Valid()
      modifies this`chains, this`abs, this`items, m_aT
      ensures Valid() && fresh(items - old(items))
      ensures old(MapValid()) ==>
                (ok <==> m_aT.Length > 0 && !(key in old(Map()) && old(Map())[key] != 0))
                && (MapValid() <==> !ok || key !in old(Map()))
                && (MapValid() ==> Map() == if ok then old(Map())[key := pData] else old(Map()))
      ensures if m_aT.Length == 0 || old(Lookup(abs[Slot(key)], key)) != 0 then !ok && abs == old(abs)
              else ok && abs == old(abs)[Slot(key) := [Pair(key, pData)] + old(abs)[Slot(key)]]
    {
      hide Chain, Lookup, Proper, AsMap, All;
      if m_aT.Length == 0 { return false; }
      var found := Find(key);
      if found != 0 { return false; }
      if Proper(hash, abs) { InsertIs(hash, abs, key, pData); }
      var slot := Slot(key);  // add first in bucket
      ghost var c, s := chains[slot], abs[slot];
      var pItem := new Item(key, pData, m_aT[slot]);
      ChainCons(m_aT[slot], c, s, pItem);
      m_aT[slot] := pItem;
      chains := chains[slot := [pItem] + chains[slot]];
      abs := abs[slot := [Pair(key, pData)] + abs[slot]];
      items := items + {pItem};
      ok := true;
    }

    lemma {:induction false} PutAt(s: seq<Pair>, i: nat, key: string, data: nat)
      requires i < |s| && s[i].key == key && forall k :: 0 <= k < i ==> s[k].key != key
      ensures Put(s, key, data) == s[i := Pair(key, data)] && Lookup(s, key) == s[i].data && Has(s, key)
    {
      if i > 0 { PutAt(s[1..], i - 1, key, data); }
    }

    /** New data in item i of a chain. */
    method Store(ghost slot: nat, ghost i: nat, item: Item, pData: nat)
      requires Valid() && slot < m_aT.Length && i < |chains[slot]| && item == chains[slot][i]
      modifies this`abs, items
      ensures Valid() && |old(abs[slot])| > i && abs == old(abs)[slot := old(abs[slot])[i := Pair(item.Key, pData)]]
    {
      ghost var c, s := chains[slot], abs[slot];
      ghost var was := abs;
      assert Chain(m_aT[slot], c, s);
      item.Data := pData;
      abs := abs[slot := s[i := Pair(item.Key, pData)]];
      forall b | 0 <= b < |chains| && b != slot ensures Chain(m_aT[b], chains[b], abs[b]) {
        assert old(Chain(m_aT[b], chains[b], was[b]));
      }
      forall k | 0 <= k < |c| ensures LinkAt(c, k) && ShowsAt(c, abs[slot], k) {
        assert old(LinkAt(c, k)) && old(ShowsAt(c, s, k));
      }
    }

    method Set(key: string, pData: nat) returns (oldData: nat)
      requires Valid()
      modifies this`chains, this`abs, this`items, m_aT, items
      ensures Valid() && fresh(items - old(items))
      ensures old(MapValid()) ==>
                MapValid()
                && (if m_aT.Length == 0 then oldData == pData && Map() == old(Map())
                    else oldData == (if key in old(Map()) then old(Map())[key] else 0) && Map() == old(Map())[key := pData])
      ensures if m_aT.Length == 0 then oldData == pData && abs == old(abs)
              else if old(Has(abs[Slot(key)], key)) then
                oldData == old(Lookup(abs[Slot(key)], key)) && abs == old(abs)[Slot(key) := Put(old(abs)[Slot(key)], key, pData)]
              else oldData == 0 && abs == old(abs)[Slot(key) := [Pair(key, pData)] + old(abs)[Slot(key)]]
    {
      hide Chain, Lookup, Put, Proper, AsMap, All;
      if m_aT.Length == 0 { return pData; }
      var slot := Slot(key);
      ghost var s, c := abs[slot], chains[slot];
      ChainHead(m_aT[slot], c, s);
      if Proper(hash, abs) {
        FindIsLookup(hash, abs, key);
        SetIs(hash, abs, key, pData);
      }
      var pItem := m_aT[slot];
      ghost var i := 0;
      while pItem != null
        invariant 0 <= i <= |c| && pItem == (if i < |c| then c[i] else null) && forall k :: 0 <= k < i ==> s[k].key != key
        invariant pItem == null ==> i == |c|
        decreases |c| - i
        modifies {}
      {
        ChainAt(m_aT[slot], c, s, i);
        if pItem.Key == key { break; }
        pItem := pItem.pNext;
        i := i + 1;
      }
      if pItem != null {
        oldData := pItem.Data;
        ChainAt(m_aT[slot], c, s, i);
        PutAt(s, i, key, pData);
        Store(slot, i, pItem, pData);
        return;
      }
      DropAbsent(s, key);
      var ok := Insert(key, pData);
      oldData := 0;
    }

    lemma {:induction false} DropAt(s: seq<Pair>, i: nat, key: string)
      requires i < |s| && s[i].key == key && forall k :: 0 <= k < i ==> s[k].key != key
      ensures Drop(s, key) == s[..i] + s[i + 1..] && Has(s, key)
    {
      if i > 0 {
        DropAt(s[1..], i - 1, key);
        assert s[..i] + s[i + 1..] == [s[0]] + (s[1..][..i - 1] + s[1..][i..]);
      }
    }

    /** The item after prev, or the first one, is bypassed. */
    method Bypass(slot: nat, ghost i: nat, prev: Item?, item: Item)
      requires Valid() && slot < m_aT.Length && i < |chains[slot]| && item == chains[slot][i]
      requires if i == 0 then prev == null else prev == chains[slot][i - 1]
      modifies m_aT, items
      ensures |chains[slot]| == |abs[slot]|
      ensures Chain(m_aT[slot], chains[slot][..i] + chains[slot][i + 1..], abs[slot][..i] + abs[slot][i + 1..])
      ensures forall b :: 0 <= b < |chains| && b != slot ==> Chain(m_aT[b], chains[b], abs[b])
    {
      ghost var c, s := chains[slot], abs[slot];
      assert Chain(m_aT[slot], c, s);
      if prev == null { m_aT[slot] := item.pNext; } else { prev.pNext := item.pNext; }
      forall k | 0 <= k < |c|
        ensures ShowsAt(c, s, k) && (k != i && k + 1 != i ==> LinkAt(c, k)) && (k + 1 == i ==> c[k].pNext == if i + 1 < |c| then c[i + 1] else null)
      {
        assert old(LinkAt(c, k)) && old(ShowsAt(c, s, k));
        assert old(LinkAt(c, i));
      }
      Unlinked(m_aT[slot], c, s, i);
      hide Chain;
      forall b | 0 <= b < |chains| && b != slot ensures Chain(m_aT[b], chains[b], abs[b]) {
        assert old(Chain(m_aT[b], chains[b], abs[b]));
      }
    }

    /** An item is taken out of its chain. */
    method Unlink(slot: nat, ghost i: nat, prev: Item?, item: Item)
      requires Valid() && slot < m_aT.Length && i < |chains[slot]| && item == chains[slot][i]
      requires if i == 0 then prev == null else prev == chains[slot][i - 1]
      modifies this`abs, this`chains, m_aT, items
      ensures Valid() && |old(abs[slot])| > i && abs == old(abs)[slot := old(abs[slot])[..i] + old(abs[slot])[i + 1..]]
    {
      ghost var c, s := chains[slot], abs[slot];
      Bypass(slot, i, prev, item);
      hide Chain;
      ghost var d := c[..i] + c[i + 1..];
      forall j | 0 <= j < |d| ensures d[j] in c { assert d[j] == c[if j < i then j else j + 1]; }
      chains := chains[slot := d];
      abs := abs[slot := s[..i] + s[i + 1..]];
    }

    /** What is left of a chain after an item has been bypassed. */
    lemma {:induction false} Unlinked(head: Item?, c: seq<Item>, s: seq<Pair>, i: nat)
      requires |c| == |s| && i < |c| && head == if i == 0 then (if 1 < |c| then c[1] else null) else c[0]
      requires forall k :: 0 <= k < |c| ==> ShowsAt(c, s, k) && (k != i && k + 1 != i ==> LinkAt(c, k))
      requires i > 0 ==> c[i - 1].pNext == if i + 1 < |c| then c[i + 1] else null
      requires forall j, k :: 0 <= j < k < |c| ==> c[j] != c[k]
      ensures Chain(head, c[..i] + c[i + 1..], s[..i] + s[i + 1..])
    {
      var d, t := c[..i] + c[i + 1..], s[..i] + s[i + 1..];
      forall k | 0 <= k < |d| ensures LinkAt(d, k) && ShowsAt(d, t, k) {
        var j := if k < i then k else k + 1;
        assert ShowsAt(c, s, j) && d[k] == c[j] && t[k] == s[j];
        if j + 1 != i { assert LinkAt(c, j); }
      }
    }

    method Remove(key: string) returns (ok: bool)
      requires Valid()
      modifies this`chains, this`abs, m_aT, items
      ensures Valid() && items == old(items)
      ensures old(MapValid()) ==> MapValid() && (ok <==> key in old(Map())) && Map() == old(Map()) - {key}
      ensures if m_aT.Length == 0 then !ok && abs == old(abs)
              else ok == old(Has(abs[Slot(key)], key)) && abs == old(abs)[Slot(key) := Drop(old(abs)[Slot(key)], key)]
    {
      hide Chain, Drop, Proper, AsMap, All;
      if m_aT.Length == 0 {
        Bare(abs);
        return false;
      }
      var slot := Slot(key);
      ghost var s, c := abs[slot], chains[slot];
      ChainHead(m_aT[slot], c, s);
      if Proper(hash, abs) { RemoveIs(hash, abs, key); }
      var prev: Item?, pItem := null, m_aT[slot];  // prev holds the link to pItem, the bucket if it is null
      ghost var i := 0;
      while pItem != null
        invariant 0 <= i <= |c| && pItem == (if i < |c| then c[i] else null) && prev == (if i == 0 then null else c[i - 1])
        invariant forall k :: 0 <= k < i ==> s[k].key != key
        invariant pItem == null ==> i == |c|
        decreases |c| - i
        modifies {}
      {
        ChainAt(m_aT[slot], c, s, i);
        if pItem.Key == key { break; }
        prev := pItem;
        pItem := pItem.pNext;
        i := i + 1;
      }
      if pItem != null {
        ChainAt(m_aT[slot], c, s, i);
        DropAt(s, i, key);
        Unlink(slot, i, prev, pItem);
        return true;
      }
      DropAbsent(s, key);
      ok := false;
    }

    lemma {:induction false} AllNext(k: nat)
      requires k < |abs|
      ensures All(abs[..k + 1]) == abs[k] + All(abs[..k])
    {
      assert abs[..k + 1][..k] == abs[..k];
    }

    method GetSize() returns (nCount: nat)
      requires Valid()
      ensures nCount == |All(abs)|
      ensures MapValid() ==> nCount == |Map()|
    {
      hide All, Chain, Proper, AsMap;
      if Proper(hash, abs) { Enumerates(hash, abs); }
      nCount := 0;
      var len := m_aT.Length;
      assert abs[..len] == abs;
      while len > 0
        invariant 0 <= len <= m_aT.Length && nCount + |All(abs[..len])| == |All(abs)|
      {
        len := len - 1;
        AllNext(len);
        ChainHead(m_aT[len], chains[len], abs[len]);
        var pItem := m_aT[len];
        ghost var i := 0;
        while pItem != null
          invariant 0 <= i <= |chains[len]| && pItem == (if i < |chains[len]| then chains[len][i] else null)
          invariant nCount + (|abs[len]| - i) + |All(abs[..len])| == |All(abs)|
          decreases |chains[len]| - i
        {
          ChainAt(m_aT[len], chains[len], abs[len], i);
          nCount := nCount + 1;
          pItem := pItem.pNext;
          i := i + 1;
        }
      }
      AllNone();
    }

    lemma {:induction false} AllNone()
      ensures All(abs[..0]) == []
    {
    }

    /** GetAt: the key at iIndex in the enumeration, if there is one. */
    method GetAt(iIndex: int) returns (found: bool, key: string)
      requires Valid()
      ensures found <==> 0 <= iIndex < |All(abs)|
      ensures found ==> key == Keys(All(abs))[iIndex]
      ensures MapValid() ==> (found <==> 0 <= iIndex < |Map()|)
    {
      hide All, Chain, Proper, AsMap;
      if Proper(hash, abs) { Enumerates(hash, abs); }
      var pos := 0;
      var len := m_aT.Length;
      assert abs[..len] == abs;
      ghost var all := All(abs);
      while len > 0
        invariant 0 <= len <= m_aT.Length && 0 <= pos <= |all| && all[pos..] == All(abs[..len]) && (iIndex < 0 || pos <= iIndex)
      {
        len := len - 1;
        AllNext(len);
        ChainHead(m_aT[len], chains[len], abs[len]);
        var pItem := m_aT[len];
        ghost var i := 0;
        while pItem != null
          invariant 0 <= i <= |chains[len]| && pItem == (if i < |chains[len]| then chains[len][i] else null)
          invariant 0 <= pos <= |all| && all[pos..] == abs[len][i..] + All(abs[..len]) && (iIndex < 0 || pos <= iIndex)
          decreases |chains[len]| - i
        {
          ChainAt(m_aT[len], chains[len], abs[len], i);
          RestNext(all, pos, abs[len], i, All(abs[..len]));
          if pos == iIndex { return true, pItem.Key; }
          pos := pos + 1;
          pItem := pItem.pNext;
          i := i + 1;
        }
        assert abs[len][i..] == [];
      }
      AllNone();
      found, key := false, "";
    }

    lemma {:induction false} RestNext(all: seq<Pair>, pos: nat, s: seq<Pair>, i: nat, rest: seq<Pair>)
      requires pos <= |all| && i < |s| && all[pos..] == s[i..] + rest
      ensures pos < |all| && all[pos] == s[i] && all[pos + 1..] == s[i + 1..] + rest
    {
      assert all[pos] == all[pos..][0];
      assert all[pos + 1..] == all[pos..][1..];
    }

    /** The map, and whether it has buckets. */
    ghost function Now(): State
      reads this
    {
      State(Map(), m_aT.Length == 0)
    }

    /** One operation, with any number of buckets. It behaves like the map unless it inserts a key whose data are null: then it says
        that it has inserted, and the key is there twice. */
    method Perform(op: Op) returns (a: Answer)
      requires MapValid()
      modifies this, m_aT, items
      ensures Valid() && fresh(items - old(items)) && (m_aT == old(m_aT) || fresh(m_aT))
      ensures MapValid() <==> !Lost(old(Now()), op)
      ensures Answers(old(Now()), op, a) <==> !Lost(old(Now()), op)
      ensures MapValid() ==> Now() == Ideal(old(Now()), op)
    {
      hide Proper, AsMap, All, Chain, Valid, Put, Drop, Lookup, Keys;
      if m_aT.Length == 0 { NoBuckets(); }
      match op {
        case DoFind(key) =>
          var data := Find(key);
          a := Data(data);
        case DoInsert(key, data) =>
          var ok := Insert(key, data);
          a := Flag(ok);
        case DoSet(key, data) =>
          var was := Set(key, data);
          a := Data(was);
        case DoRemove(key) =>
          var ok := Remove(key);
          a := Flag(ok);
        case DoSize =>
          var n := GetSize();
          a := Count(n);
        case DoGetAt(index) =>
          var found, key := GetAt(index);
          a := if found then Key(key) else NoKey;
          KeysAre();
        case DoResize(size) =>
          Resize(size);
          a := Resized;
      }
    }

    lemma {:induction false} NoBuckets()
      requires Valid() && m_aT.Length == 0
      ensures Map() == map[]
    {
      Bare(abs);
    }

    lemma {:induction false} KeysAre()
      requires MapValid()
      ensures |Keys(All(abs))| == |All(abs)| && forall i :: 0 <= i < |All(abs)| ==> Keys(All(abs))[i] in Map()
    {
      KeysOnce(hash, abs);
      hide All, AsMap, Keys, Proper, Valid;
      forall i | 0 <= i < |All(abs)| ensures Keys(All(abs))[i] in Map() { assert Keys(All(abs))[i] in Keys(All(abs)); }
    }

    /** Any series of operations in which that does not happen is one on a finite map. */
    method Run(ops: seq<Op>) returns (answers: seq<Answer>)
      requires MapValid() && NoLost(Now(), ops)
      modifies this, m_aT, items
      ensures MapValid() && fresh(items - old(items))
      ensures Now() == After(old(Now()), ops) && AllAnswer(old(Now()), ops, answers)
    {
      answers := [];
      hide MapValid, Map, After, AllAnswer, NoLost, Lost, Ideal, Answers;
      ghost var s := Now();
      var i := 0;
      NoneYet(s);
      assert ops[..0] == [];
      while i < |ops|
        invariant 0 <= i <= |ops| && MapValid() && (m_aT == old(m_aT) || fresh(m_aT)) && fresh(items - old(items))
        invariant Now() == After(s, ops[..i]) && AllAnswer(s, ops[..i], answers)
      {
        NoLostPart(s, ops, i + 1);
        assert ops[..i + 1] == ops[..i] + [ops[i]];
        OpsMore(s, ops[..i], ops[i]);
        var a := Perform(ops[i]);
        AnswersMore(s, ops[..i], answers, ops[i], a);
        answers := answers + [a];
        i := i + 1;
      }
      assert ops[..i] == ops;
    }

    static lemma {:induction false} NoneYet(s: State)
      ensures After(s, []) == s && AllAnswer(s, [], [])
    {
    }
  }
}
