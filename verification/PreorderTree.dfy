/** Trees as values: preorder, and where it grows when a node gets one more child. */
module PreorderTree {

  datatype Tree<!T(==)> = Node(obj: T, kids: seq<Tree<T>>)

  function Pre<T>(t: Tree<T>): (s: seq<T>)
    ensures |s| > 0 && s[0] == t.obj
    decreases t
  {
    [t.obj] + PreAll(t.kids)
  }

  function PreAll<T>(ts: seq<Tree<T>>): seq<T>
    decreases ts
  {
    if ts == [] then [] else Pre(ts[0]) + PreAll(ts[1..])
  }

  /** get_last_child: down the last children. */
  function LastOf<T>(t: Tree<T>): T
    decreases t
  {
    if t.kids == [] then t.obj else LastOf(t.kids[|t.kids| - 1])
  }

  /** The last node in preorder is found by going down the last children. */
  lemma {:induction false} LastIsLast<T>(t: Tree<T>)
    ensures Pre(t)[|Pre(t)| - 1] == LastOf(t)
    decreases t
  {
    if t.kids != [] {
      LastIsLast(t.kids[|t.kids| - 1]);
      PreAllLast(t.kids);
    }
  }

  lemma {:induction false} PreAllLast<T>(ts: seq<Tree<T>>)
    requires ts != []
    ensures |PreAll(ts)| > 0 && PreAll(ts)[|PreAll(ts)| - 1] == Pre(ts[|ts| - 1])[|Pre(ts[|ts| - 1])| - 1]
    decreases ts
  {
    if |ts| > 1 {
      PreAllLast(ts[1..]);
    } else {
      assert PreAll(ts[1..]) == [];
    }
  }

  lemma {:induction false} PreAllAppend<T>(ts: seq<Tree<T>>, t: Tree<T>)
    ensures PreAll(ts + [t]) == PreAll(ts) + Pre(t)
    decreases ts
  {
    if ts == [] {
      assert ts + [t] == [t] && [t][1..] == [];
    } else {
      assert (ts + [t])[1..] == ts[1..] + [t];
      PreAllAppend(ts[1..], t);
    }
  }

  /** Node p, where it comes first in preorder, gets n as its last child. */
  function Graft<T>(t: Tree<T>, p: T, n: T): Tree<T>
    decreases t
  {
    if t.obj == p then Node(p, t.kids + [Node(n, [])]) else Node(t.obj, GraftAll(t.kids, p, n))
  }

  function GraftAll<T>(ts: seq<Tree<T>>, p: T, n: T): (r: seq<Tree<T>>)
    ensures |r| == |ts|
    decreases ts
  {
    if ts == [] then []
    else if p in Pre(ts[0]) then [Graft(ts[0], p, n)] + ts[1..]
    else [ts[0]] + GraftAll(ts[1..], p, n)
  }

  /** The subtree of node p. */
  function Sub<T>(t: Tree<T>, p: T): (r: Tree<T>)
    requires p in Pre(t)
    ensures r.obj == p
    decreases t
  {
    if t.obj == p then t else SubAll(t.kids, p)
  }

  function SubAll<T>(ts: seq<Tree<T>>, p: T): (r: Tree<T>)
    requires p in PreAll(ts)
    ensures r.obj == p
    decreases ts
  {
    if p in Pre(ts[0]) then Sub(ts[0], p) else SubAll(ts[1..], p)
  }

  /** The place in preorder right after the subtree of p. */
  function EndOf<T>(t: Tree<T>, p: T): (k: nat)
    requires p in Pre(t)
    ensures k > 0
    decreases t
  {
    if t.obj == p then |Pre(t)| else 1 + EndAll(t.kids, p)
  }

  function EndAll<T>(ts: seq<Tree<T>>, p: T): (k: nat)
    requires p in PreAll(ts)
    ensures k > 0
    decreases ts
  {
    if p in Pre(ts[0]) then EndOf(ts[0], p) else |Pre(ts[0])| + EndAll(ts[1..], p)
  }

  /** Preorder grows by the new node, right after the subtree of its parent; before that place is the last node of the subtree. */
  lemma {:induction false} GraftPre<T>(t: Tree<T>, p: T, n: T)
    requires p in Pre(t)
    ensures EndOf(t, p) <= |Pre(t)| && Pre(Graft(t, p, n)) == Insert(Pre(t), EndOf(t, p), n)
    ensures Pre(t)[EndOf(t, p) - 1] == LastOf(Sub(t, p))
    decreases t
  {
    if t.obj == p {
      LastIsLast(t);
      PreAllAppend(t.kids, Node(n, []));
      assert Pre(Node(n, [])) == [n];
    } else {
      GraftPreAll(t.kids, p, n);
      InsertRight([t.obj], PreAll(t.kids), EndAll(t.kids, p), n);
    }
  }

  function Insert<T>(s: seq<T>, k: nat, n: T): (r: seq<T>)
    requires k <= |s|
    ensures |r| == |s| + 1 && r[k] == n
  {
    s[..k] + [n] + s[k..]
  }

  lemma {:induction false} InsertLeft<T>(a: seq<T>, b: seq<T>, k: nat, n: T)
    requires k <= |a|
    ensures Insert(a, k, n) + b == Insert(a + b, k, n)
  {
    assert (a + b)[..k] == a[..k];
    assert (a + b)[k..] == a[k..] + b;
  }

  lemma {:induction false} InsertRight<T>(a: seq<T>, b: seq<T>, k: nat, n: T)
    requires k <= |b|
    ensures a + Insert(b, k, n) == Insert(a + b, |a| + k, n)
  {
    assert (a + b)[..|a| + k] == a + b[..k];
    assert (a + b)[|a| + k..] == b[k..];
  }

  lemma {:induction false} GraftPreAll<T>(ts: seq<Tree<T>>, p: T, n: T)
    requires p in PreAll(ts)
    ensures EndAll(ts, p) <= |PreAll(ts)| && PreAll(GraftAll(ts, p, n)) == Insert(PreAll(ts), EndAll(ts, p), n)
    ensures PreAll(ts)[EndAll(ts, p) - 1] == LastOf(SubAll(ts, p))
    decreases ts
  {
    hide Insert, LastOf, Graft, Sub, EndOf, Pre;
    var g := GraftAll(ts, p, n);
    assert PreAll(ts) == Pre(ts[0]) + PreAll(ts[1..]) && PreAll(g) == Pre(g[0]) + PreAll(g[1..]);
    if p in Pre(ts[0]) {
      GraftPre(ts[0], p, n);
      assert g[0] == Graft(ts[0], p, n) && g[1..] == ts[1..];
      InsertLeft(Pre(ts[0]), PreAll(ts[1..]), EndOf(ts[0], p), n);
    } else {
      GraftPreAll(ts[1..], p, n);
      assert g[0] == ts[0] && g[1..] == GraftAll(ts[1..], p, n);
      InsertRight(Pre(ts[0]), PreAll(ts[1..]), EndAll(ts[1..], p), n);
    }
  }
}
