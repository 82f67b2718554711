/** The registration tree: seats with mirrored parent and child links, and removal of whole subtrees. */
module Seats {
  import opened Basics
  import opened Chains

  type Id = nat

  datatype Node = Node(parent: Option<Id>, children: set<Id>)

  type Nodes = map<Id, Node>

  datatype TreeError = Duplicate | UnknownParent | NotFound

  /** The upward links. */
  function Edges(t: Nodes): map<Id, Id> {
    map x | x in t && t[x].parent.Some? :: t[x].parent.value
  }

  /** Links are mirrored, parents are there, and nobody is above itself. */
  ghost predicate Forest(t: Nodes) {
    Mirrored(t) && Rooted(t) && Acyclic(Edges(t))
  }

  predicate IsParent(t: Nodes, p: Id, c: Id) {
    c in t && t[c].parent == Some(p)
  }

  ghost predicate Mirrored(t: Nodes) {
    forall p, c | p in t :: c in t[p].children <==> IsParent(t, p, c)
  }

  predicate Rooted(t: Nodes) {
    forall c | c in t && t[c].parent.Some? :: t[c].parent.value in t
  }

  function Mount(t: Nodes, id: Id, parent: Option<Id>): (Nodes, Option<TreeError>) {
    if id in t then (t, Some(Duplicate))
    else if parent.None? then (t[id := Node(None, {})], None)
    else if parent.value !in t then (t, Some(UnknownParent))
    else
      var p := t[parent.value];
      (t[parent.value := p.(children := p.children + {id})][id := Node(parent, {})], None)
  }

  /** The seats at or below one of these. */
  ghost function Under(t: Nodes, roots: set<Id>): (gone: set<Id>)
    ensures gone <= t.Keys
  {
    set x | x in t && BelowOne(t, roots, x)
  }

  ghost predicate BelowOne(t: Nodes, roots: set<Id>, x: Id) {
    exists r | r in roots :: Above(Edges(t), x, r)
  }

  ghost function Pruned(t: Nodes, roots: set<Id>): Nodes {
    var gone := Under(t, roots);
    map x | x in t && x !in gone :: Node(t[x].parent, t[x].children - gone)
  }

  // ---------------------------------------------------------------- laws

  lemma MountMirrored(t: Nodes, id: Id, parent: Option<Id>)
    requires Mirrored(t) && Rooted(t)
    ensures Mirrored(Mount(t, id, parent).0)
  {
    var t' := Mount(t, id, parent).0;
    forall p, c | p in t' ensures c in t'[p].children <==> IsParent(t', p, c) {
      if p in t {
        assert c in t[p].children <==> IsParent(t, p, c);
      }
    }
  }

  lemma MountKeeps(t: Nodes, id: Id, parent: Option<Id>)
    requires Forest(t)
    ensures Forest(Mount(t, id, parent).0)
  {
    var t' := Mount(t, id, parent).0;
    if id !in t && parent.Some? && parent.value in t {
      assert Edges(t') == Edges(t)[id := parent.value];
      if Above(Edges(t), parent.value, id) {
        AboveIsThere(t, parent.value, id);
      }
      LinkAcyclic(Edges(t), id, parent.value);
    } else if id !in t && parent.None? {
      assert Edges(t') == Edges(t);
    }
    MountMirrored(t, id, parent);
    hide Acyclic, Mirrored, Edges;
  }

  lemma {:induction false} UpIsThere(t: Nodes, x: Id, n: nat)
    requires Forest(t) && x in t
    ensures Up(Edges(t), x, n).Some? ==> Up(Edges(t), x, n).value in t
    decreases n
  {
    if n > 0 && x in Edges(t) {
      UpIsThere(t, Edges(t)[x], n - 1);
    }
  }

  /** Everything above a seat is a seat. */
  lemma AboveIsThere(t: Nodes, x: Id, y: Id)
    requires Forest(t) && x in t && Above(Edges(t), x, y)
    ensures y in t
  {
    var n: nat :| Up(Edges(t), x, n) == Some(y);
    UpIsThere(t, x, n);
  }

  /** A seat goes when it is named or its parent goes. */
  lemma UnderStep(t: Nodes, roots: set<Id>, x: Id)
    requires Rooted(t) && x in t
    ensures x in Under(t, roots) <==> x in roots || (x in Edges(t) && Edges(t)[x] in Under(t, roots))
  {
    var up: map<Id, Id> := Edges(t);
    if x in Under(t, roots) {
      var r :| r in roots && Above(up, x, r);
      AboveStep(up, x, r);
    }
    if x in roots {
      AboveStep(up, x, x);
    }
    if x in up && up[x] in Under(t, roots) {
      var r :| r in roots && Above(up, up[x], r);
      AboveStep(up, x, r);
    }
  }

  lemma PrunedEdges(t: Nodes, roots: set<Id>)
    ensures Edges(Pruned(t, roots)) == map x | x in Edges(t) && x !in Under(t, roots) :: Edges(t)[x]
  {
  }

  lemma PrunedKeeps(t: Nodes, roots: set<Id>)
    requires Forest(t)
    ensures Forest(Pruned(t, roots))
  {
    var t' := Pruned(t, roots);
    PrunedEdges(t, roots);
    FewerAcyclic(Edges(t), Edges(t'));
    forall c | c in t' && t'[c].parent.Some? ensures t'[c].parent.value in t' {
      UnderStep(t, roots, c);
    }
    hide Under, Acyclic;
  }

  /** A forest is given by its upward links. */
  lemma LinksDecide(s: Nodes, t: Nodes)
    requires Mirrored(s) && Mirrored(t) && s.Keys == t.Keys && forall x | x in s :: s[x].parent == t[x].parent
    ensures s == t
  {
    forall x | x in s ensures s[x] == t[x] {
      forall c ensures c in s[x].children <==> c in t[x].children {
        assert c in s[x].children <==> IsParent(s, x, c);
        assert c in t[x].children <==> IsParent(t, x, c);
      }
      assert s[x].children == t[x].children;
    }
  }

  /** Two removals one after the other remove what both would remove at once. */
  lemma PrunedTwice(t: Nodes, first: set<Id>, second: set<Id>)
    requires Forest(t)
    ensures Pruned(Pruned(t, first), second) == Pruned(t, first + second)
  {
    var t1 := Pruned(t, first);
    PrunedEdges(t, first);
    forall x | x in t ensures x in t1 && x !in Under(t1, second) <==> x !in Under(t, first + second) {
      UnderTwice(t, first, second, x);
    }
    PrunedKeeps(t, first);
    PrunedKeeps(t1, second);
    PrunedKeeps(t, first + second);
    hide Under, Forest;
    LinksDecide(Pruned(t1, second), Pruned(t, first + second));
  }

  lemma UnderTwice(t: Nodes, first: set<Id>, second: set<Id>, x: Id)
    requires Forest(t) && x in t
    ensures x in Under(t, first + second) <==> x in Under(t, first) || x in Under(Pruned(t, first), second)
  {
    var t1 := Pruned(t, first);
    if x in Under(t1, second) {
      var r :| r in second && Above(Edges(t1), x, r);
      AboveInMore(Edges(t1), Edges(t), x, r);
      assert r in first + second;
    }
    if x in Under(t, first) {
      var r :| r in first && Above(Edges(t), x, r);
      assert r in first + second;
    } else if x in Under(t, first + second) {
      var r :| r in first + second && Above(Edges(t), x, r);
      var n: nat :| Up(Edges(t), x, n) == Some(r);
      StaysAbove(t, first, x, n);
      assert r in second && Above(Edges(t1), x, r);
    }
  }

  lemma AboveInMore(up: map<Id, Id>, up': map<Id, Id>, x: Id, y: Id)
    requires Above(up, x, y) && forall c | c in up :: c in up' && up'[c] == up[c]
    ensures Above(up', x, y)
  {
    var n: nat :| Up(up, x, n) == Some(y);
    UpInMore(up, up', x, n);
  }

  lemma {:induction false} UpInMore(up: map<Id, Id>, up': map<Id, Id>, x: Id, n: nat)
    requires Up(up, x, n).Some? && forall c | c in up :: c in up' && up'[c] == up[c]
    ensures Up(up', x, n) == Up(up, x, n)
    decreases n
  {
    if n > 0 {
      UpInMore(up, up', up[x], n - 1);
    }
  }

  /** A seat that stays keeps its whole chain. */
  lemma {:induction false} StaysAbove(t: Nodes, first: set<Id>, x: Id, n: nat)
    requires Forest(t) && x in t && x !in Under(t, first) && Up(Edges(t), x, n).Some?
    ensures Up(Edges(Pruned(t, first)), x, n) == Up(Edges(t), x, n)
    decreases n
  {
    if n > 0 {
      PrunedEdges(t, first);
      UnderStep(t, first, x);
      StaysAbove(t, first, Edges(t)[x], n - 1);
    }
  }

  /** Removing a seat and removing everything at or below it are the same. */
  lemma PrunedSubtree(t: Nodes, id: Id)
    requires Forest(t) && id in t
    ensures Pruned(t, Under(t, {id})) == Pruned(t, {id})
  {
    var all := Under(t, {id});
    forall x | x in t ensures x in Under(t, all) <==> x in all {
      if x in Under(t, all) {
        var r :| r in all && Above(Edges(t), x, r);
        AboveTrans(Edges(t), x, r, id);
      }
      if x in all {
        assert Above(Edges(t), x, x) by { AboveStep(Edges(t), x, x); }
      }
    }
    assert Under(t, all) == all;
  }

  /** A set that holds the root and the children of its members holds the whole subtree. */
  lemma ClosedHoldsSubtree(t: Nodes, root: Id, s: set<Id>)
    requires Forest(t) && root in s && forall x | x in t && t[x].parent.Some? && t[x].parent.value in s :: x in s
    ensures Under(t, {root}) <= s
  {
    forall x | x in Under(t, {root}) ensures x in s {
      var n: nat :| Up(Edges(t), x, n) == Some(root);
      ClosedHolds(t, root, s, x, n);
    }
  }

  lemma {:induction false} ClosedHolds(t: Nodes, root: Id, s: set<Id>, x: Id, n: nat)
    requires Forest(t) && root in s && forall x | x in t && t[x].parent.Some? && t[x].parent.value in s :: x in s
    requires Up(Edges(t), x, n) == Some(root)
    ensures x in s
    decreases n
  {
    if n > 0 {
      ClosedHolds(t, root, s, Edges(t)[x], n - 1);
    }
  }

  // ---------------------------------------------------------------- runs

  datatype Op = DoMount(id: Id, parent: Option<Id>) | DoUnmount(id: Id)

  ghost function Apply(t: Nodes, op: Op): Nodes {
    match op
    case DoMount(id, parent) => Mount(t, id, parent).0
    case DoUnmount(id) => Pruned(t, {id})
  }

  ghost function Run(t: Nodes, ops: seq<Op>): Nodes
    decreases |ops|
  {
    if ops == [] then t else Run(Apply(t, ops[0]), ops[1..])
  }

  /** Every run of mounts and unmounts keeps the forest. */
  lemma {:induction false} RunKeeps(t: Nodes, ops: seq<Op>)
    requires Forest(t)
    ensures Forest(Run(t, ops))
    decreases |ops|
  {
    hide Forest;
    if ops != [] {
      match ops[0]
      case DoMount(id, parent) => MountKeeps(t, id, parent); RunKeeps(Apply(t, ops[0]), ops[1..]);
      case DoUnmount(id) => PrunedKeeps(t, {id}); RunKeeps(Apply(t, ops[0]), ops[1..]);
    }
  }

  lemma EmptyForest()
    ensures Forest(map[])
  {
    var none: map<Id, Id> := map[];
    var t: Nodes := map[];
    assert Edges(t) == none;
    assert Ranked(none, map[]);
  }

  /** Unmounting a seat that was just mounted undoes the mount, and so does losing its parent. */
  lemma UnmountUndoesMount(t: Nodes, id: Id, parent: Option<Id>)
    requires Forest(t) && Mount(t, id, parent).1.None?
    ensures Pruned(Mount(t, id, parent).0, {id}) == t
    ensures parent.Some? ==> id !in Pruned(Mount(t, id, parent).0, {parent.value})
  {
    var t' := Mount(t, id, parent).0;
    MountKeeps(t, id, parent);
    LeafAlone(t', id);
    PrunedKeeps(t', {id});
    if parent.Some? {
      UnderStep(t', {parent.value}, parent.value);
      UnderStep(t', {parent.value}, id);
    }
    hide Under, Acyclic, Mirrored, Edges;
    LinksDecide(Pruned(t', {id}), t);
  }

  lemma LeafAlone(t: Nodes, leaf: Id)
    requires Forest(t) && leaf in t && t[leaf].children == {}
    ensures Under(t, {leaf}) == {leaf}
  {
    UnderStep(t, {leaf}, leaf);
    forall x | x in t ensures t[x].parent != Some(leaf) {
      assert x in t[leaf].children <==> IsParent(t, leaf, x);
    }
    ClosedHoldsSubtree(t, leaf, {leaf});
  }
}
