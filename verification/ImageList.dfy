/** The tree of CImageListUI kept as a flat list: CStdPtrArray, CListUI::AddSubItemAt and CImageListUI::AddNode. */
module ImageList {
  import opened Lists
  import opened PreorderTree

  // ---------------------------------------------------------------- the array of the list

  /** A row of the list: IListItemUI, with the index that it is told. */
  class Element {
    var index: int

    constructor ()
      ensures index == -1
    {
      index := -1;
    }
  }

  /** CStdPtrArray, holding rows. */
  class PtrArray {
    var items: array<Element?>
    var count: nat

    ghost predicate Valid()
      reads this
    {
      count <= items.Length
    }

    ghost function Contents(): seq<Element?>
      requires Valid()
      reads this, items
    {
      items[..count]
    }

    constructor (prealloc: nat)
      ensures Valid() && fresh(items) && Contents() == []
    {
      items := new Element?[prealloc](_ => null);
      count := 0;
    }

    /** The allocation after one more than n has been asked for: it doubles when the new count reaches it, and is never 0. */
    ghost predicate Grown(room: nat, n: nat)
      reads this`items
    {
      items.Length == if n + 1 < room then room else if room > 0 then 2 * room else 11
    }

    /** Room for one more: when the new count reaches the allocation, that is doubled. */
    method Reserve()
      requires Valid()
      modifies this`items
      ensures Valid() && Contents() == old(Contents()) && items.Length > count && Grown(old(items.Length), old(count))
      ensures items == old(items) || fresh(items)
    {
      if count + 1 >= items.Length {
        var room := items.Length * 2;
        if room == 0 {
          room := 11;
        }
        var was := items;
        items := new Element?[room](i => null);
        forall i | 0 <= i < count {
          items[i] := was[i];
        }
      }
    }

    method Add(data: Element)
      requires Valid()
      modifies this, items
      ensures Valid() && Contents() == old(Contents()) + [data] && Grown(old(items.Length), old(count))
      ensures items == old(items) || fresh(items)
    {
      Reserve();
      items[count] := data;
      count := count + 1;
    }

    /** memmove: the rows from index on go one place up. */
    method MoveUp(index: nat)
      requires Valid() && index < count < items.Length
      modifies items
      ensures items[..index] == old(items[..index]) && items[index + 1..count + 1] == old(items[index..count])
    {
      forall i | index < i <= count {
        items[i] := items[i - 1];
      }
    }

    method PutIn(index: nat, data: Element)
      requires Valid() && index < count < items.Length
      modifies this`count, items
      ensures Valid() && count == old(count) + 1 && Contents() == Insert(old(Contents()), index, data)
    {
      ghost var rows := Contents();
      assert items[..index] == rows[..index] && items[index..count] == rows[index..];
      MoveUp(index);
      items[index] := data;
      count := count + 1;
      assert items[..count] == items[..index] + [data] + items[index + 1..count];
    }

    /** False, and nothing changes, when there is no such place. */
    method InsertAt(index: int, data: Element) returns (ok: bool)
      requires Valid()
      modifies this, items
      ensures Valid() && ok == (0 <= index <= old(count))
      ensures Contents() == if ok then Insert(old(Contents()), index, data) else old(Contents())
      ensures if ok then Grown(old(items.Length), old(count)) else items == old(items)
      ensures items == old(items) || fresh(items)
    {
      if index == count {
        Add(data);
        return true;
      }
      if index < 0 || index > count {
        return false;
      }
      Reserve();
      PutIn(index, data);
      return true;
    }
  }

  // ---------------------------------------------------------------- the list

  /** Every row stands at the index that it was told. */
  ghost predicate Placed(rows: seq<Element?>)
    reads rows
  {
    forall i :: 0 <= i < |rows| ==> rows[i] != null && rows[i].index == i
  }

  /** Rows at their places are different rows, also with one more. */
  lemma {:induction false} Numbered(rows: seq<Element?>, row: Element, k: nat)
    requires Placed(rows) && row !in rows && k <= |rows|
    ensures var r := Insert(rows, k, row);
            Distinct(r) && forall j :: 0 <= j < |r| ==> r[j] != null && (j < k ==> r[j].index == j)
  {
    DistinctInsert(rows, k, row);
    var r: seq<Element?> := Insert(rows, k, row);
    forall j | 0 <= j < |r| ensures r[j] != null && (j < k ==> r[j].index == j) {
      assert r[j] == if j < k then rows[j] else if j == k then row else rows[j - 1];
    }
  }

  /** What the selection index becomes when a row comes in at k. */
  function Shifted(cur: int, k: int): int
  {
    if cur >= k then cur + 1 else cur
  }

  /** The shifted index designates the row that the index designated. */
  lemma {:induction false} SameRow<T>(rows: seq<T>, k: nat, n: T, cur: nat)
    requires k <= |rows| && cur < |rows|
    ensures 0 <= Shifted(cur, k) < |Insert(rows, k, n)| && Insert(rows, k, n)[Shifted(cur, k)] == rows[cur]
  {
  }

  // ---------------------------------------------------------------- the tree

  class ImageNode {
    var children: seq<ImageNode>
    var element: Element?

    constructor (element: Element?)
      ensures children == [] && this.element == element
    {
      children := [];
      this.element := element;
    }
  }

  function Objs<T>(ts: seq<Tree<T>>): (r: seq<T>)
    ensures |r| == |ts| && forall i :: 0 <= i < |ts| ==> r[i] == ts[i].obj
  {
    if ts == [] then [] else [ts[0].obj] + Objs(ts[1..])
  }

  /** m gives for every node of t its children in order. */
  ghost predicate Mirrors<T>(t: Tree<T>, m: map<T, seq<T>>)
    decreases t
  {
    t.obj in m && m[t.obj] == Objs(t.kids) && MirrorsAll(t.kids, m)
  }

  ghost predicate MirrorsAll<T>(ts: seq<Tree<T>>, m: map<T, seq<T>>)
    decreases ts
  {
    ts == [] || (Mirrors(ts[0], m) && MirrorsAll(ts[1..], m))
  }

  /** The children of the nodes in the heap are those that m gives. */
  ghost predicate Linked(nodes: seq<ImageNode>, m: map<ImageNode, seq<ImageNode>>)
    reads nodes
  {
    forall q :: q in nodes ==> q in m && q.children == m[q]
  }

  /** The rows are those of the nodes after the first. */
  ghost predicate RowsOf(nodes: seq<ImageNode>, rows: seq<Element?>)
    reads nodes
  {
    |nodes| == |rows| + 1 && forall i :: 0 <= i < |rows| ==> nodes[i + 1].element == rows[i]
  }

  /** Insertion at k after the root is insertion at k - 1 in the list of rows. */
  lemma {:induction false} RowsInsert(nodes: seq<ImageNode>, rows: seq<Element?>, k: nat, n: ImageNode)
    requires RowsOf(nodes, rows) && 0 < k <= |nodes|
    ensures |nodes| == |rows| + 1 && RowsOf(Insert(nodes, k, n), Insert(rows, k - 1, n.element))
  {
    var a, b := Insert(nodes, k, n), Insert(rows, k - 1, n.element);
    forall i | 0 <= i < |b| ensures a[i + 1].element == b[i] {
      if i < k - 1 {
        assert a[i + 1] == nodes[i + 1] && b[i] == rows[i];
      } else if i > k - 1 {
        assert a[i + 1] == nodes[i] && b[i] == rows[i - 1];
      }
    }
  }

  lemma {:induction false} DistinctInsert<T>(s: seq<T>, k: nat, n: T)
    requires Distinct(s) && k <= |s| && n !in s
    ensures Distinct(Insert(s, k, n)) && forall q :: q in Insert(s, k, n) <==> q in s || q == n
  {
    var r := Insert(s, k, n);
    assert r == s[..k] + [n] + s[k..] && s == s[..k] + s[k..];
    forall i, j | 0 <= i < j < |r| ensures r[i] != r[j] {
      assert r[i] == if i < k then s[i] else if i == k then n else s[i - 1];
      assert r[j] == if j < k then s[j] else if j == k then n else s[j - 1];
    }
  }

  lemma {:induction false} ObjsAppend<T>(ts: seq<Tree<T>>, t: Tree<T>)
    ensures Objs(ts + [t]) == Objs(ts) + [t.obj]
  {
  }

  /** m after p got child n. */
  ghost function Given<T>(m: map<T, seq<T>>, p: T, n: T): map<T, seq<T>>
    requires p in m
  {
    m[p := m[p] + [n]][n := []]
  }

  /** Outside of the two nodes, the trees that m mirrors stay mirrored. */
  lemma {:induction false} MirrorsElsewhere<T>(t: Tree<T>, m: map<T, seq<T>>, p: T, n: T)
    requires Mirrors(t, m) && p in m && p !in Pre(t) && n !in Pre(t)
    ensures Mirrors(t, Given(m, p, n))
    decreases t
  {
    MirrorsAllElsewhere(t.kids, m, p, n);
  }

  lemma {:induction false} MirrorsAllElsewhere<T>(ts: seq<Tree<T>>, m: map<T, seq<T>>, p: T, n: T)
    requires MirrorsAll(ts, m) && p in m && p !in PreAll(ts) && n !in PreAll(ts)
    ensures MirrorsAll(ts, Given(m, p, n))
    decreases ts
  {
    if ts != [] {
      MirrorsElsewhere(ts[0], m, p, n);
      MirrorsAllElsewhere(ts[1..], m, p, n);
    }
  }

  lemma {:induction false} MirrorsAllMore<T>(ts: seq<Tree<T>>, t: Tree<T>, m: map<T, seq<T>>)
    requires MirrorsAll(ts, m) && Mirrors(t, m)
    ensures MirrorsAll(ts + [t], m)
    decreases ts
  {
    if ts == [] {
      assert ts + [t] == [t] && [t][1..] == [];
    } else {
      MirrorsAllMore(ts[1..], t, m);
      assert (ts + [t])[1..] == ts[1..] + [t];
    }
  }

  lemma {:induction false} DistinctParts<T>(a: seq<T>, b: seq<T>)
    requires Distinct(a + b)
    ensures Distinct(a) && Distinct(b) && forall x :: x in a ==> x !in b
  {
    forall i, j | 0 <= i < j < |a| ensures a[i] != a[j] {
      assert (a + b)[i] == a[i] && (a + b)[j] == a[j];
    }
    forall i, j | 0 <= i < j < |b| ensures b[i] != b[j] {
      assert (a + b)[|a| + i] == b[i] && (a + b)[|a| + j] == b[j];
    }
    forall i, j | 0 <= i < |a| && 0 <= j < |b| ensures a[i] != b[j] {
      assert (a + b)[i] == a[i] && (a + b)[|a| + j] == b[j];
    }
  }

  /** add_child does to the nodes what the graft does to the tree. */
  lemma {:induction false} MirrorsGraft<T>(t: Tree<T>, m: map<T, seq<T>>, p: T, n: T)
    requires Mirrors(t, m) && Distinct(Pre(t)) && p in Pre(t) && p in m && n !in Pre(t)
    ensures Mirrors(Graft(t, p, n), Given(m, p, n))
    decreases t
  {
    DistinctParts([t.obj], PreAll(t.kids));
    assert t.obj in [t.obj];
    if t.obj == p {
      var leaf := Node(n, []);
      MirrorsAllElsewhere(t.kids, m, p, n);
      MirrorsAllMore(t.kids, leaf, Given(m, p, n));
      ObjsAppend(t.kids, leaf);
    } else {
      MirrorsGraftAll(t.kids, m, p, n);
    }
  }

  lemma {:induction false} MirrorsGraftAll<T>(ts: seq<Tree<T>>, m: map<T, seq<T>>, p: T, n: T)
    requires MirrorsAll(ts, m) && Distinct(PreAll(ts)) && p in PreAll(ts) && p in m && n !in PreAll(ts)
    ensures MirrorsAll(GraftAll(ts, p, n), Given(m, p, n)) && Objs(GraftAll(ts, p, n)) == Objs(ts)
    decreases ts
  {
    DistinctParts(Pre(ts[0]), PreAll(ts[1..]));
    var g := GraftAll(ts, p, n);
    if p in Pre(ts[0]) {
      MirrorsGraft(ts[0], m, p, n);
      MirrorsAllElsewhere(ts[1..], m, p, n);
      assert g == [Graft(ts[0], p, n)] + ts[1..] && g[1..] == ts[1..];
    } else {
      MirrorsElsewhere(ts[0], m, p, n);
      MirrorsGraftAll(ts[1..], m, p, n);
      assert g == [ts[0]] + GraftAll(ts[1..], p, n) && g[1..] == GraftAll(ts[1..], p, n);
    }
  }

  /** The subtree of a node is part of the tree. */
  lemma {:induction false} SubPart<T>(t: Tree<T>, p: T, m: map<T, seq<T>>)
    requires p in Pre(t) && Mirrors(t, m)
    ensures Mirrors(Sub(t, p), m) && forall q :: q in Pre(Sub(t, p)) ==> q in Pre(t)
    decreases t
  {
    if t.obj != p {
      SubPartAll(t.kids, p, m);
    }
  }

  lemma {:induction false} SubPartAll<T>(ts: seq<Tree<T>>, p: T, m: map<T, seq<T>>)
    requires p in PreAll(ts) && MirrorsAll(ts, m)
    ensures Mirrors(SubAll(ts, p), m) && forall q :: q in Pre(SubAll(ts, p)) ==> q in PreAll(ts)
    decreases ts
  {
    if p in Pre(ts[0]) {
      SubPart(ts[0], p, m);
    } else {
      SubPartAll(ts[1..], p, m);
    }
  }

  lemma {:induction false} LastKid<T>(ts: seq<Tree<T>>, m: map<T, seq<T>>)
    requires ts != [] && MirrorsAll(ts, m)
    ensures Mirrors(ts[|ts| - 1], m) && forall q :: q in Pre(ts[|ts| - 1]) ==> q in PreAll(ts)
    decreases ts
  {
    if |ts| > 1 {
      LastKid(ts[1..], m);
    }
  }

  /** ImageNode::get_last_child. */
  method GetLastChild(node: ImageNode, ghost t: Tree<ImageNode>, ghost m: map<ImageNode, seq<ImageNode>>) returns (r: ImageNode)
    requires t.obj == node && Mirrors(t, m) && Linked(Pre(t), m)
    ensures r == LastOf(t)
    decreases t
  {
    if |node.children| > 0 {
      LastKid(t.kids, m);
      assert forall q :: q in Pre(t.kids[|t.kids| - 1]) ==> q in Pre(t);
      r := GetLastChild(node.children[|node.children| - 1], t.kids[|t.kids| - 1], m);
    } else {
      r := node;
    }
  }

  /** The whole effect of a graft on the nodes and their rows. */
  lemma {:induction false} GraftKeeps(t: Tree<ImageNode>, m: map<ImageNode, seq<ImageNode>>, p: ImageNode, n: ImageNode, rows: seq<Element?>)
    requires Mirrors(t, m) && Distinct(Pre(t)) && p in Pre(t) && p in m && n !in Pre(t) && RowsOf(Pre(t), rows)
    ensures Mirrors(Graft(t, p, n), Given(m, p, n)) && Distinct(Pre(Graft(t, p, n))) && Graft(t, p, n).obj == t.obj
    ensures forall q :: q in Pre(Graft(t, p, n)) <==> q in Pre(t) || q == n
    ensures EndOf(t, p) <= |rows| + 1 && RowsOf(Pre(Graft(t, p, n)), Insert(rows, EndOf(t, p) - 1, n.element))
  {
    hide EndOf, Insert, Mirrors, Distinct, Pre, RowsOf;
    GraftPre(t, p, n);
    MirrorsGraft(t, m, p, n);
    DistinctInsert(Pre(t), EndOf(t, p), n);
    RowsInsert(Pre(t), rows, EndOf(t, p), n);
  }

  /** A subtree with more than the root ends beyond the first place. */
  lemma {:induction false} EndBeyond<T>(t: Tree<T>, p: T)
    requires p in Pre(t) && (t.obj != p || Sub(t, p).kids != [])
    ensures EndOf(t, p) > 1
  {
    if t.obj == p {
      PreAllLast(t.kids);
    }
  }

  /** The row of the node at place k of the preorder has index k - 1. */
  lemma {:induction false} RowIndex(nodes: seq<ImageNode>, rows: seq<Element?>, k: nat)
    requires RowsOf(nodes, rows) && Placed(rows) && 0 < k < |nodes|
    ensures nodes[k].element != null && nodes[k].element.index == k - 1
  {
    assert nodes[k - 1 + 1].element == rows[k - 1];
  }

  /** CImageListUI, with the part of CListUI that keeps its rows and its selection. */
  class ImageListUI {
    const list: PtrArray
    var curSel: int
    const root: ImageNode
    ghost var tree: Tree<ImageNode>
    ghost var order: seq<ImageNode>
    ghost var kids: map<ImageNode, seq<ImageNode>>

    ghost predicate ListValid()
      reads this, list, list.items, if list.Valid() then list.Contents() else []
    {
      list.Valid() && Placed(list.Contents()) && curSel < list.count
    }

    ghost predicate TreeValid()
      reads this, order
    {
      tree.obj == root && order == Pre(tree) && Distinct(order) && Mirrors(tree, kids) && Linked(order, kids)
    }

    /** The list is the preorder of the tree without its root. */
    ghost predicate Valid()
      reads this, list, list.items, if list.Valid() then list.Contents() else [], order
    {
      ListValid() && TreeValid() && RowsOf(order, list.Contents())
    }

    constructor ()
      ensures Valid() && tree == Node(root, []) && curSel == -1 && fresh(root) && fresh(list) && fresh(list.items)
    {
      var r := new ImageNode(null);
      list := new PtrArray(0);
      root := r;
      curSel := -1;
      tree, order := Node(r, []), [r];
      kids := map[r := []];
    }

    /** The loop of CListUI::AddSubItemAt. */
    method Renumber(index: nat)
      requires list.Valid() && Distinct(list.Contents()) && index < list.count
      requires forall j :: 0 <= j < list.count ==> list.items[j] != null && (j <= index ==> list.items[j].index == j)
      modifies list.Contents()
      ensures list.Valid() && Placed(list.Contents())
    {
      var i := index + 1;
      while i < list.count
        invariant index + 1 <= i <= list.count
        invariant forall j :: 0 <= j < i ==> list.items[j].index == j
      {
        assert forall j :: 0 <= j < i ==> list.Contents()[j] != list.Contents()[i];
        list.items[i].index := i;
        i := i + 1;
      }
    }

    /** CListUI::AddSubItemAt for a row. */
    method AddSubItemAt(row: Element, index: int) returns (ok: bool)
      requires ListValid() && row !in list.Contents()
      modifies this`curSel, list, list.items, row, list.Contents()
      ensures ListValid() && ok == (0 <= index <= |old(list.Contents())|)
      ensures list.Contents() == if ok then Insert(old(list.Contents()), index, row) else old(list.Contents())
      ensures curSel == if ok then Shifted(old(curSel), index) else old(curSel)
      ensures 0 <= old(curSel) ==> 0 <= curSel && list.Contents()[curSel] == old(list.Contents()[curSel])
      ensures list.items == old(list.items) || fresh(list.items)
    {
      ghost var was := list.Contents();
      ok := list.InsertAt(index, row);
      if !ok {
        return;
      }
      Numbered(was, row, index);
      row.index := index;
      Renumber(index);
      if curSel >= 0 {
        SameRow<Element?>(was, index, row, curSel);
      }
      if curSel >= index {
        curSel := curSel + 1;
      }
    }

    /** The place of the row in the list: the one after the subtree of p. */
    method IndexFor(p: ImageNode) returns (index: int)
      requires Valid() && p in order
      ensures 0 <= index <= list.count && index == EndOf(tree, p) - 1
    {
      index := 0;
      SubPart(tree, p, kids);
      GraftPre(tree, p, p);
      ghost var k := EndOf(tree, p) - 1;
      assert Linked(Pre(Sub(tree, p)), kids);
      assert |p.children| == |Sub(tree, p).kids|;
      if |p.children| > 0 {
        EndBeyond(tree, p);
        RowIndex(order, list.Contents(), k);
        ghost var last := order[k];
        var prev := GetLastChild(p, Sub(tree, p), kids);
        assert prev == last;
        index := prev.element.index + 1;
      } else if p == root {
        index := 0;
      } else {
        EndBeyond(tree, p);
        LastIsLast(Sub(tree, p));
        RowIndex(order, list.Contents(), k);
        index := p.element.index + 1;
      }
    }

    /** add_child, with the tree and the rows that go with it. */
    method AddChild(p: ImageNode, node: ImageNode, ghost rows: seq<Element?>)
      requires TreeValid() && p in order && node !in order && node.children == [] && RowsOf(order, rows)
      modifies this`tree, this`order, this`kids, p`children
      ensures TreeValid() && tree == Graft(old(tree), p, node)
      ensures 0 < EndOf(old(tree), p) <= |rows| + 1 && RowsOf(order, Insert(rows, EndOf(old(tree), p) - 1, node.element))
    {
      hide Graft, EndOf, Insert, Mirrors, Distinct, Pre;
      GraftKeeps(tree, kids, p, node, rows);
      p.children := p.children + [node];
      tree, order, kids := Graft(tree, p, node), Pre(Graft(tree, p, node)), Given(kids, p, node);
    }

    /** The end of AddNode: the row into the list, the node into the tree. */
    method Hang(p: ImageNode, node: ImageNode, row: Element, index: int)
      requires Valid() && p in order && node !in order && node.children == [] && node.element == row && row !in list.Contents()
      requires 0 <= index <= list.count && index == EndOf(tree, p) - 1
      modifies this`curSel, this`tree, this`order, this`kids, p`children, list, list.items, row, list.Contents()
      ensures Valid() && tree == Graft(old(tree), p, node) && list.Contents() == Insert(old(list.Contents()), index, row)
      ensures 0 <= old(curSel) ==> 0 <= curSel && list.Contents()[curSel] == old(list.Contents()[curSel])
      ensures old(curSel) < 0 ==> curSel == old(curSel)
      ensures list.items == old(list.items) || fresh(list.items)
    {
      hide Graft, EndOf, Insert, Mirrors, Distinct, Placed, RowsOf, Linked;
      ghost var rows := list.Contents();
      var ok := AddSubItemAt(row, index);
      AddChild(p, node, rows);
    }

    /** CImageListUI::AddNode: the new node becomes the last child, its row the one after the subtree of its parent. */
    method AddNode(parent: ImageNode?) returns (node: ImageNode)
      requires Valid() && (parent == null || parent in order)
      modifies this, list, list.items, order, list.Contents()
      ensures Valid() && fresh(node) && node.element != null && fresh(node.element)
      ensures var p := if parent == null then root else parent;
              tree == Graft(old(tree), p, node) && EndOf(old(tree), p) <= |old(list.Contents())| + 1
              && list.Contents() == Insert(old(list.Contents()), EndOf(old(tree), p) - 1, node.element)
      ensures 0 <= old(curSel) ==> 0 <= curSel && list.Contents()[curSel] == old(list.Contents()[curSel])
      ensures old(curSel) < 0 ==> curSel == old(curSel)
      ensures list.items == old(list.items) || fresh(list.items)
    {
      hide Graft, EndOf, Insert, Mirrors, Distinct, Placed, RowsOf, Linked;
      var p := if parent == null then root else parent;
      var row := new Element();
      node := new ImageNode(row);
      var index := IndexFor(p);
      Hang(p, node, row, index);
    }
  }
}
