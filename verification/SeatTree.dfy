/** The registration tree as the object that mounts, lists, and removes seats in place. */
module SeatTrees {
  import opened Basics
  import opened Chains
  import opened Seats

  /** The root first, each seat once and after its parent, level by level, siblings by their ids, and nothing but the subtree. */
  ghost predicate Lists(t: Nodes, root: Id, out: seq<Id>) {
    && |out| > 0 && out[0] == root
    && (forall k | 0 <= k < |out| :: out[k] in Under(t, {root}))
    && (forall x | x in Under(t, {root}) :: x in out)
    && (forall i, j | 0 <= i < j < |out| :: out[i] != out[j])
    && (forall k | 0 < k < |out| :: AfterParent(t, out, k))
    && ByLevel(t, out)
  }

  /** Seats stand in the order of their parents, and those of one parent in the order of their ids. */
  ghost predicate ByLevel(t: Nodes, out: seq<Id>) {
    forall a, b, p, q | 0 < a < b < |out| && 0 <= p < |out| && 0 <= q < |out| && IsParent(t, out[p], out[a]) && IsParent(t, out[q], out[b]) ::
      p < q || (p == q && out[a] < out[b])
  }

  ghost predicate AfterParent(t: Nodes, out: seq<Id>, k: int)
    requires 0 <= k < |out|
  {
    out[k] in t && t[out[k]].parent.Some? && t[out[k]].parent.value in out[..k]
  }

  class Tree {
    var nodes: Nodes

    constructor ()
      ensures nodes == map[] && Forest(nodes)
    {
      nodes := map[];
      new;
      EmptyForest();
    }

    method Mount(id: Id, parent: Option<Id>) returns (error: Option<TreeError>)
      requires Forest(nodes)
      modifies this
      ensures (nodes, error) == Seats.Mount(old(nodes), id, parent)
      ensures Forest(nodes)
    {
      MountKeeps(nodes, id, parent);
      if id in nodes {
        return Some(Duplicate);
      }
      if parent.Some? {
        if parent.value !in nodes {
          return Some(UnknownParent);
        }
        var p := nodes[parent.value];
        nodes := nodes[parent.value := p.(children := p.children + {id})];
      }
      nodes := nodes[id := Node(parent, {})];
      return None;
    }

    /** No visited set: in a forest the list can neither repeat a seat nor outgrow the tree. */
    method Descendants(id: Id) returns (r: Result<seq<Id>, TreeError>)
      requires Forest(nodes)
      ensures r.Ok? <==> id in nodes
      ensures r.Ok? ==> Lists(nodes, id, r.value)
    {
      hide Listing, ByLevel, Under, Forest, Lists;
      if id !in nodes {
        return Err(NotFound);
      }
      var out := [id];
      var i := 0;
      ListingStart(nodes, id);
      while i < |out|
        invariant 0 <= i <= |out|
        invariant Listing(nodes, id, out, i, {})
        invariant ByLevel(nodes, out)
        decreases |nodes| - i
      {
        FitsIn(nodes, id, out, i);
        out := WithChildren(id, out, i);
        Advance(nodes, id, out, i);
        i := i + 1;
      }
      AllListed(nodes, id, out);
      return Ok(out);
    }

    /** Appends the children of the `i`th seat in the order of their ids. */
    method WithChildren(ghost root: Id, out: seq<Id>, i: nat) returns (more: seq<Id>)
      requires Forest(nodes) && Listing(nodes, root, out, i, {}) && ByLevel(nodes, out)
      requires i < |out| && out[i] in nodes
      ensures |more| > i && more[i] == out[i]
      ensures Listing(nodes, root, more, i, nodes[out[i]].children) && ByLevel(nodes, more)
    {
      hide Listing, ByLevel, Under, Forest;
      var children := nodes[out[i]].children;
      var rest := children;
      more := out;
      assert children - rest == {};
      while rest != {}
        invariant |more| > i && more[i] == out[i] && rest <= children
        invariant Listing(nodes, root, more, i, children - rest) && ByLevel(nodes, more)
        invariant forall x, y | x in children - rest && y in rest :: x < y
        decreases |rest|
      {
        ghost var some :| some in rest;
        LeastExists(rest, some);
        var c :| c in rest && forall x | x in rest :: c <= x;
        ExtendLevel(nodes, root, more, i, children - rest, c);
        assert children - rest + {c} == children - (rest - {c});
        rest := rest - {c};
        more := more + [c];
      }
      assert children - {} == children;
    }

    /** `Seat::remove`: the seat, its place among its siblings, and a stack of what hangs below. */
    method Remove(id: Id) returns (removed: bool)
      requires Forest(nodes)
      modifies this
      ensures nodes == Pruned(old(nodes), {id}) && Forest(nodes)
      ensures removed <==> id in old(nodes)
    {
      hide Removing, Pruned, Forest;
      ghost var t := nodes;
      PrunedKeeps(t, {id});
      if id !in nodes {
        NothingUnder(nodes, id);
        return false;
      }
      var node := nodes[id];
      nodes := nodes - {id};
      if node.parent.Some? && node.parent.value in nodes {
        var p := nodes[node.parent.value];
        nodes := nodes[node.parent.value := p.(children := p.children - {id})];
      }
      var stack := SomeOrder(node.children);
      RemovingStart(t, nodes, id, stack);
      PopAll(t, id, stack);
      return true;
    }

    /** The stack of what hangs below, until it is empty. */
    method PopAll(ghost t: Nodes, ghost root: Id, children: seq<Id>)
      requires Forest(t) && Removing(t, nodes, root, children)
      modifies this
      ensures nodes == Pruned(t, {root})
    {
      hide Removing, Pruned, Forest;
      var stack := children;
      while stack != []
        invariant Removing(t, nodes, root, stack)
        decreases |nodes|, |stack|
      {
        var cid := stack[|stack| - 1];
        ghost var was := stack;
        stack := stack[..|stack| - 1];
        if cid in nodes {
          var child := nodes[cid];
          var more := SomeOrder(child.children);
          RemovingStep(t, nodes, root, was, cid, more);
          nodes := nodes - {cid};
          stack := stack + more;
        } else {
          RemovingSkip(t, nodes, root, was);
        }
      }
      Removed(t, nodes, root);
    }
  }

  /** A set as a list, in an order that does not matter here. */
  method SomeOrder(s: set<Id>) returns (out: seq<Id>)
    ensures forall x :: x in out <==> x in s
  {
    out := [];
    var rest := s;
    while rest != {}
      invariant rest <= s && forall x :: x in out <==> x in s - rest
      decreases |rest|
    {
      var x :| x in rest;
      out := out + [x];
      rest := rest - {x};
    }
  }

  // ---------------------------------------------------------------- listing

  /** The children of the first `i` seats, and these children of the next, are listed. */
  ghost predicate Listing(t: Nodes, root: Id, out: seq<Id>, i: nat, taken: set<Id>) {
    && |out| > 0 && out[0] == root && i <= |out|
    && (forall k | 0 <= k < |out| :: out[k] in t && out[k] in Under(t, {root}))
    && (forall a, b | 0 <= a < b < |out| :: out[a] != out[b])
    && (forall k | 0 < k < |out| :: AfterParent(t, out, k))
    && (forall k | 0 <= k < i :: Explored(t, out, k))
    && (forall k | 0 < k < |out| && out[k] !in taken :: t[out[k]].parent.value in out[..i])
    && (forall c | c in taken :: c in out && i < |out| && IsParent(t, out[i], c))
  }

  ghost predicate Explored(t: Nodes, out: seq<Id>, k: int)
    requires 0 <= k < |out| && out[k] in t
  {
    forall c | c in t[out[k]].children :: c in out
  }

  lemma ListingStart(t: Nodes, root: Id)
    requires Forest(t) && root in t
    ensures Listing(t, root, [root], 0, {}) && ByLevel(t, [root])
  {
    UnderStep(t, {root}, root);
  }

  lemma FitsIn(t: Nodes, root: Id, out: seq<Id>, i: nat)
    requires Listing(t, root, out, i, {})
    ensures |out| <= |t| && forall k | 0 <= k < |out| :: out[k] in t
  {
    DistinctFits(out, t.Keys);
  }

  lemma {:induction false} DistinctFits(out: seq<Id>, s: set<Id>)
    requires forall k | 0 <= k < |out| :: out[k] in s
    requires forall a, b | 0 <= a < b < |out| :: out[a] != out[b]
    ensures |out| <= |s|
    decreases |out|
  {
    if out != [] {
      DistinctFits(out[1..], s - {out[0]});
    }
  }

  /** The child of the seat at hand is new: its own parent is elsewhere only if it is the root. */
  lemma Extend(t: Nodes, root: Id, out: seq<Id>, i: nat, taken: set<Id>, c: Id)
    requires Forest(t) && Listing(t, root, out, i, taken) && i < |out|
    requires c in t[out[i]].children && c !in taken
    ensures Listing(t, root, out + [c], i, taken + {c})
  {
    var p := out[i];
    assert IsParent(t, p, c);
    UnderStep(t, {root}, c);
    NotAboveRoot(t, root, p);
    assert p !in out[..i];
    assert c !in out;
    var out' := out + [c];
    forall k | 0 < k < |out'| ensures AfterParent(t, out', k) {
      if k < |out| {
        assert AfterParent(t, out, k) && out'[..k] == out[..k];
      } else {
        assert out'[..k] == out;
      }
    }
    assert out'[..i] == out[..i];
    forall k | 0 <= k < i ensures Explored(t, out', k) {
      assert Explored(t, out, k);
    }
    hide Under, Acyclic, Explored;
  }

  /** The child stands after those of earlier seats, and after its smaller siblings. */
  lemma ExtendLevel(t: Nodes, root: Id, out: seq<Id>, i: nat, taken: set<Id>, c: Id)
    requires Forest(t) && Listing(t, root, out, i, taken) && i < |out| && ByLevel(t, out)
    requires c in t[out[i]].children && c !in taken && forall x | x in taken :: x < c
    ensures Listing(t, root, out + [c], i, taken + {c}) && ByLevel(t, out + [c])
  {
    hide Listing, Forest, ByLevel, IsParent;
    Extend(t, root, out, i, taken, c);
    ChildIsNew(t, root, out, i, taken, c);
    ListedPlaces(t, root, out, i, taken);
    AppendLevel(t, out, i, c);
  }

  lemma AppendLevel(t: Nodes, out: seq<Id>, i: nat, c: Id)
    requires ByLevel(t, out) && i < |out| && c !in out
    requires forall q | 0 <= q < |out| && IsParent(t, out[q], c) :: q == i
    requires forall a, p | 0 < a < |out| && 0 <= p < |out| && IsParent(t, out[p], out[a]) :: p < i || (p == i && out[a] < c)
    requires !IsParent(t, c, c) && forall a | 0 < a < |out| :: !IsParent(t, c, out[a])
    ensures ByLevel(t, out + [c])
  {
    hide IsParent;
  }

  lemma ChildIsNew(t: Nodes, root: Id, out: seq<Id>, i: nat, taken: set<Id>, c: Id)
    requires Forest(t) && Listing(t, root, out, i, taken) && i < |out|
    requires c in t[out[i]].children && c !in taken
    ensures c !in out && !IsParent(t, c, c)
    ensures forall q | 0 <= q < |out| && IsParent(t, out[q], c) :: q == i
  {
    assert IsParent(t, out[i], c);
    NotAboveRoot(t, root, out[i]);
    assert out[i] !in out[..i];
  }

  /** Where the parent of a listed seat stands, as far as the list has been walked. */
  lemma ListedPlace(t: Nodes, root: Id, out: seq<Id>, i: nat, taken: set<Id>, a: nat, p: nat)
    requires Listing(t, root, out, i, taken) && i < |out| && 0 < a < |out| && p < |out| && IsParent(t, out[p], out[a])
    ensures p < i || (p == i && out[a] in taken)
  {
    hide Under, Explored, AfterParent;
    if out[a] in taken {
      assert IsParent(t, out[i], out[a]);
    } else {
      var k :| 0 <= k < i && out[..i][k] == out[p];
      assert out[k] == out[p];
    }
  }

  lemma ListedPlaces(t: Nodes, root: Id, out: seq<Id>, i: nat, taken: set<Id>)
    requires Listing(t, root, out, i, taken) && i < |out|
    ensures forall a, p | 0 < a < |out| && 0 <= p < |out| && IsParent(t, out[p], out[a]) :: p < i || (p == i && out[a] in taken)
    ensures forall a, x | 0 < a < |out| && IsParent(t, x, out[a]) :: x in out
  {
    forall a, x | 0 < a < |out| && IsParent(t, x, out[a]) ensures x in out {
      assert AfterParent(t, out, a);
    }
    hide Listing, IsParent;
    forall a, p | 0 < a < |out| && 0 <= p < |out| && IsParent(t, out[p], out[a]) ensures p < i || (p == i && out[a] in taken) {
      ListedPlace(t, root, out, i, taken, a, p);
    }
  }

  lemma NotAboveRoot(t: Nodes, root: Id, p: Id)
    requires Forest(t) && p in Under(t, {root})
    ensures !IsParent(t, p, root)
  {
    if IsParent(t, p, root) {
      var n: nat :| Up(Edges(t), p, n) == Some(root);
      assert Up(Edges(t), root, n + 1) == Some(root);
      NobodyAboveItself(Edges(t), root, n + 1);
    }
  }

  lemma Advance(t: Nodes, root: Id, out: seq<Id>, i: nat)
    requires i < |out| && out[i] in t && Listing(t, root, out, i, t[out[i]].children) && Forest(t)
    ensures Listing(t, root, out, i + 1, {})
  {
    hide Under, Mirrored;
    assert Explored(t, out, i);
    forall k | 0 < k < |out| ensures t[out[k]].parent.Some? && t[out[k]].parent.value in out[..i + 1] {
      assert AfterParent(t, out, k);
      assert out[..i + 1] == out[..i] + [out[i]];
      if out[k] in t[out[i]].children {
        assert IsParent(t, out[i], out[k]);
      }
    }
    hide AfterParent, Explored;
  }

  lemma AllListed(t: Nodes, root: Id, out: seq<Id>)
    requires Forest(t) && Listing(t, root, out, |out|, {}) && ByLevel(t, out)
    ensures Lists(t, root, out)
  {
    var s := set x | x in out;
    forall x | x in t && t[x].parent.Some? && t[x].parent.value in s ensures x in s {
      var p := t[x].parent.value;
      assert IsParent(t, p, x) && p in out;
      var k :| 0 <= k < |out| && out[k] == p;
      assert Explored(t, out, k);
    }
    ClosedHoldsSubtree(t, root, s);
  }

  // ---------------------------------------------------------------- removing

  /** Only the subtree is gone or on the stack, and what hangs below a gone seat is gone or on the stack. */
  ghost predicate Removing(t: Nodes, now: Nodes, root: Id, stack: seq<Id>) {
    && root in t && root !in now && now.Keys <= t.Keys
    && (forall x | x in t && x !in now :: x in Under(t, {root}))
    && (forall x | x in stack :: x in Under(t, {root}))
    && (forall x | x in now :: now[x].parent == t[x].parent && now[x].children == t[x].children - {root})
    && (forall x | x in now && t[x].parent.Some? && t[x].parent.value !in now :: x in stack)
  }

  lemma ChildrenUnder(t: Nodes, root: Id)
    requires Forest(t) && root in t
    ensures root in Under(t, {root})
    ensures forall x | x in t && t[x].parent == Some(root) :: x in t[root].children
    ensures forall x | x in t[root].children :: x in Under(t, {root})
  {
    UnderStep(t, {root}, root);
    forall x | x in t[root].children ensures x in Under(t, {root}) {
      assert IsParent(t, root, x);
      UnderStep(t, {root}, x);
    }
    forall x | x in t && t[x].parent == Some(root) ensures x in t[root].children {
      assert IsParent(t, root, x);
    }
  }

  lemma RemovingStart(t: Nodes, now: Nodes, root: Id, stack: seq<Id>)
    requires Forest(t) && root in t && now.Keys == t.Keys - {root}
    requires forall x | x in now :: now[x].parent == t[x].parent
    requires forall x | x in now :: now[x].children == if t[root].parent == Some(x) then t[x].children - {root} else t[x].children
    requires forall x :: x in stack <==> x in t[root].children
    ensures Removing(t, now, root, stack)
  {
    ChildrenUnder(t, root);
    forall x | x in now ensures now[x].children == t[x].children - {root} {
      assert root in t[x].children <==> IsParent(t, x, root);
    }
    hide Under, Forest;
  }

  lemma RemovingSkip(t: Nodes, now: Nodes, root: Id, stack: seq<Id>)
    requires Removing(t, now, root, stack) && |stack| > 0 && stack[|stack| - 1] !in now
    ensures Removing(t, now, root, stack[..|stack| - 1])
  {
    assert stack == stack[..|stack| - 1] + [stack[|stack| - 1]];
  }

  /** What hangs directly below a seat that is still there, without the root. */
  lemma StillBelow(t: Nodes, root: Id, cid: Id, children: set<Id>)
    requires Forest(t) && cid in t && cid in Under(t, {root}) && children == t[cid].children - {root}
    ensures forall x | x in children :: x in Under(t, {root})
    ensures forall x | x in t && x != root && t[x].parent == Some(cid) :: x in children
  {
    hide Acyclic;
    forall x | x in children ensures x in Under(t, {root}) {
      assert IsParent(t, cid, x);
      UnderStep(t, {root}, x);
    }
    forall x | x in t && x != root && t[x].parent == Some(cid) ensures x in children {
      assert IsParent(t, cid, x);
    }
  }

  lemma RemovingStep(t: Nodes, now: Nodes, root: Id, stack: seq<Id>, cid: Id, more: seq<Id>)
    requires Forest(t) && Removing(t, now, root, stack) && |stack| > 0 && stack[|stack| - 1] == cid && cid in now
    requires forall x :: x in more <==> x in now[cid].children
    ensures Removing(t, now - {cid}, root, stack[..|stack| - 1] + more)
  {
    hide Under, Forest;
    var rest := stack[..|stack| - 1];
    assert stack == rest + [cid];
    StillBelow(t, root, cid, now[cid].children);
  }

  lemma Removed(t: Nodes, now: Nodes, root: Id)
    requires Forest(t) && Removing(t, now, root, [])
    ensures now == Pruned(t, {root})
  {
    ClosedHoldsSubtree(t, root, t.Keys - now.Keys);
    assert Under(t, {root}) == t.Keys - now.Keys;
    var gone := Under(t, {root});
    forall x | x in now ensures now[x].children == t[x].children - gone {
      forall c | c in t[x].children && c in gone ensures c == root {
        assert IsParent(t, x, c);
        UnderStep(t, {root}, c);
      }
      assert root in gone;
    }
    hide Under;
  }

  lemma NothingUnder(t: Nodes, id: Id)
    requires Forest(t) && id !in t
    ensures Pruned(t, {id}) == t
  {
    forall x | x in t ensures !Above(Edges(t), x, id) {
      if Above(Edges(t), x, id) {
        AboveIsThere(t, x, id);
      }
    }
    assert Under(t, {id}) == {};
    forall x | x in t ensures t[x].children - {} == t[x].children {
    }
  }
}
