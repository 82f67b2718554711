/** Removing scopes: one leaf, a planned cascade, and whole runs. */
module ScopeRemoval {
  import opened Basics
  import opened Scopes
  import opened ScopeLaws

  // ---------------------------------------------------------------- one leaf

  /** What a removal leaves of one node. */
  lemma RemovedAt(t: Tree, gone: set<ScopeId>, id: ScopeId)
    ensures Active(Removed(t, gone), id) <==> Active(t, id) && id !in gone
    ensures Active(Removed(t, gone), id) ==>
              var (node, node') := (NodeOf(t, id), NodeOf(Removed(t, gone), id));
              node'.info == node.info && node'.parent == node.parent && node'.disposables == node.disposables
              && node'.children == WithoutIds(node.children, gone)
  {
  }

  lemma LeafShape(t: Tree, id: ScopeId)
    requires Shape(t.nodes) && Active(t, id) && NodeOf(t, id).children == []
    ensures Shape(Removed(t, {id}).nodes)
  {
    var nodes := Removed(t, {id}).nodes;
    forall p | 0 <= p < |nodes| && nodes[p].Some?
      ensures var kids := nodes[p].value.children;
              && (forall k | 0 <= k < |kids| :: p < kids[k] < |nodes| && nodes[kids[k]].Some? && nodes[kids[k]].value.parent == Some(p))
              && (forall j, k | 0 <= j < k < |kids| :: kids[j] < kids[k])
    {
      RemovedAt(t, {id}, p);
      IdsOrdered(t.nodes[p].value.children, {id});
      var kids := nodes[p].value.children;
      forall k | 0 <= k < |kids| ensures p < kids[k] < |nodes| && nodes[kids[k]].Some? && nodes[kids[k]].value.parent == Some(p) {
        assert kids[k] in t.nodes[p].value.children && kids[k] != id;
        RemovedAt(t, {id}, kids[k]);
      }
    }
    forall c | 0 <= c < |nodes| && nodes[c].Some? && nodes[c].value.parent.Some?
      ensures var p := nodes[c].value.parent.value; p < c && nodes[p].Some? && c in nodes[p].value.children
    {
      RemovedAt(t, {id}, c);
      var p := nodes[c].value.parent.value;
      RemovedAt(t, {id}, p);
      IdsOrdered(t.nodes[p].value.children, {id});
    }
  }

  lemma LeafInstances(t: Tree, id: ScopeId)
    requires Instances(t)
    ensures Instances(Removed(t, {id}))
  {
    LeafEntries(t, id);
    hide EntriesFit, EntriesOrdered;
    forall x | Active(Removed(t, {id}), x) ensures Has(Stack(Removed(t, {id}).instances, NodeOf(Removed(t, {id}), x).info.name), x) {
      RemovedAt(t, {id}, x);
      WithoutHas(Stack(t.instances, NodeOf(t, x).info.name), {id}, x);
    }
  }

  lemma LeafEntries(t: Tree, id: ScopeId)
    requires EntriesFit(t) && EntriesOrdered(t.instances)
    ensures EntriesFit(Removed(t, {id})) && EntriesOrdered(Removed(t, {id}).instances)
  {
    var t' := Removed(t, {id});
    forall name | name in t'.instances
      ensures forall i | 0 <= i < |t'.instances[name]| ::
                var e := t'.instances[name][i];
                Active(t', e.scope) && NodeOf(t', e.scope).info.name == name && e.tool == Base(e.scope)
      ensures forall i, j | 0 <= i < j < |t'.instances[name]| :: t'.instances[name][i].scope < t'.instances[name][j].scope
    {
      LeafStack(t, id, name);
    }
  }

  lemma LeafStack(t: Tree, id: ScopeId, name: string)
    requires EntriesFit(t) && EntriesOrdered(t.instances) && name in t.instances
    ensures var t' := Removed(t, {id});
            var stack := t'.instances[name];
            && (forall i | 0 <= i < |stack| ::
                  Active(t', stack[i].scope) && NodeOf(t', stack[i].scope).info.name == name && stack[i].tool == Base(stack[i].scope))
            && (forall i, j | 0 <= i < j < |stack| :: stack[i].scope < stack[j].scope)
  {
    var t' := Removed(t, {id});
    var stack := t'.instances[name];
    WithoutOrdered(t.instances[name], {id});
    forall i | 0 <= i < |stack|
      ensures Active(t', stack[i].scope) && NodeOf(t', stack[i].scope).info.name == name && stack[i].tool == Base(stack[i].scope)
    {
      assert stack[i] in stack;
      RemovedAt(t, {id}, stack[i].scope);
    }
  }

  lemma LeafChains(t: Tree, id: ScopeId)
    requires Instances(t) && Chains(t) && Unpinned(id, t.instances, t.wrappers)
    ensures Chains(Removed(t, {id}))
  {
    var t' := Removed(t, {id});
    forall name | name in t'.wrappers ensures Nested(t', name, t'.wrappers[name]) {
      assert Nested(t, name, t.wrappers[name]);
      assert !PinnedBy(id, t.instances, t.wrappers, name);
      LeafChain(t, id, name, t.wrappers[name]);
    }
  }

  lemma LeafChain(t: Tree, id: ScopeId, name: string, chain: seq<Effect>)
    requires Nested(t, name, chain) && (chain == [] || (!Has(Stack(t.instances, name), id) && !Buried(chain, id)))
    ensures Nested(Removed(t, {id}), name, Without(chain, {id}))
  {
    var t' := Removed(t, {id});
    var chain' := Without(chain, {id});
    if chain != [] {
      WithoutTop(chain, id);
      forall i | 0 <= i < |chain'| ensures Active(t', chain'[i].scope) {
        assert chain'[i] == chain[i];
        RemovedAt(t, {id}, chain[i].scope);
      }
      if chain' != [] {
        var b :| Has(Stack(t.instances, name), b) && chain[0].tool == Wrapped(chain[0].scope, Base(b));
        WithoutHas(Stack(t.instances, name), {id}, b);
        assert Has(Stack(t'.instances, name), b);
      }
    }
  }

  lemma LeafRegistered(t: Tree, id: ScopeId)
    requires Registered(t)
    ensures Registered(Removed(t, {id}))
  {
    var t' := Removed(t, {id});
    forall x | Active(t', x)
      ensures forall k | 0 <= k < |NodeOf(t', x).disposables| :: OwnedBy(NodeOf(t', x).disposables[k], x)
      ensures forall name | Has(Stack(t'.instances, name), x) :: DropInstance(name, x) in NodeOf(t', x).disposables
      ensures forall name | Has(Stack(t'.wrappers, name), x) :: DropWrap(name, x) in NodeOf(t', x).disposables
    {
      RemovedAt(t, {id}, x);
      forall name ensures Has(Stack(t'.instances, name), x) ==> Has(Stack(t.instances, name), x) {
        WithoutHas(Stack(t.instances, name), {id}, x);
      }
      forall name ensures Has(Stack(t'.wrappers, name), x) ==> Has(Stack(t.wrappers, name), x) {
        WithoutHas(Stack(t.wrappers, name), {id}, x);
      }
    }
  }

  /** An unpinned leaf can go: chains stay nested over mounted instances. */
  lemma LeafKeeps(t: Tree, id: ScopeId)
    requires Valid(t) && Active(t, id) && NodeOf(t, id).children == [] && Unpinned(id, t.instances, t.wrappers)
    ensures Valid(Removed(t, {id}))
  {
    LeafShape(t, id);
    LeafInstances(t, id);
    LeafChains(t, id);
    LeafRegistered(t, id);
  }

  // ---------------------------------------------------------------- the cascade order

  /** `x` is `root` or hangs below it. */
  ghost predicate Under(nodes: seq<Option<Node>>, x: ScopeId, root: ScopeId)
    requires Shape(nodes)
    decreases x
  {
    && x < |nodes| && nodes[x].Some?
    && (x == root || (nodes[x].value.parent.Some? && nodes[x].value.parent.value < x && Under(nodes, nodes[x].value.parent.value, root)))
  }

  lemma {:induction false} UnderChild(nodes: seq<Option<Node>>, x: ScopeId, child: ScopeId, root: ScopeId)
    requires Shape(nodes) && child < |nodes| && nodes[child].Some? && nodes[child].value.parent == Some(root) && nodes[root].Some?
    requires Under(nodes, x, child)
    ensures Under(nodes, x, root) && root < x
    decreases x
  {
    if x != child {
      UnderChild(nodes, nodes[x].value.parent.value, child, root);
    } else {
      assert Under(nodes, root, root);
    }
  }

  /** Whatever hangs strictly below a scope hangs below one of its children. */
  lemma {:induction false} UnderSplits(nodes: seq<Option<Node>>, x: ScopeId, root: ScopeId) returns (child: ScopeId)
    requires Shape(nodes) && Under(nodes, x, root) && x != root
    ensures root < |nodes| && nodes[root].Some? && child in nodes[root].value.children && Under(nodes, x, child)
    decreases x
  {
    var p := nodes[x].value.parent.value;
    if p == root {
      child := x;
    } else {
      child := UnderSplits(nodes, p, root);
    }
  }

  /** Two different siblings have nothing below both of them. */
  lemma {:induction false} UnderApart(nodes: seq<Option<Node>>, x: ScopeId, a: ScopeId, b: ScopeId)
    requires Shape(nodes) && Under(nodes, x, a) && Under(nodes, x, b)
    requires a < |nodes| && b < |nodes| && nodes[a].Some? && nodes[b].Some? && nodes[a].value.parent == nodes[b].value.parent
    ensures a == b
    decreases x
  {
    if x == a {
      UnderLater(nodes, a, b);
    } else if x == b {
      UnderLater(nodes, b, a);
    } else {
      UnderApart(nodes, nodes[x].value.parent.value, a, b);
    }
  }

  lemma UnderLater(nodes: seq<Option<Node>>, a: ScopeId, b: ScopeId)
    requires Shape(nodes) && Under(nodes, a, b)
    requires b < |nodes| && nodes[b].Some? && nodes[a].value.parent == nodes[b].value.parent
    ensures a == b
  {
    if a != b && nodes[a].value.parent.Some? {
      UnderAtLeast(nodes, nodes[a].value.parent.value, b);
    }
  }

  lemma {:induction false} UnderAtLeast(nodes: seq<Option<Node>>, x: ScopeId, root: ScopeId)
    requires Shape(nodes) && Under(nodes, x, root)
    ensures root <= x
    decreases x
  {
    if x != root {
      UnderAtLeast(nodes, nodes[x].value.parent.value, root);
    }
  }

  ghost predicate Distinct(ids: seq<ScopeId>) {
    forall i, j | 0 <= i < j < |ids| :: ids[i] != ids[j]
  }

  /** Nothing comes after a scope it hangs below. */
  ghost predicate ChildrenFirst(nodes: seq<Option<Node>>, ids: seq<ScopeId>)
    requires Shape(nodes)
  {
    forall i, j | 0 <= i < j < |ids| :: !Under(nodes, ids[j], ids[i])
  }

  /** A cascade visits exactly the subtree, each scope once, children before their parent. */
  lemma {:induction false} OrderLaws(nodes: seq<Option<Node>>, id: ScopeId)
    requires Shape(nodes) && id < |nodes| && nodes[id].Some?
    ensures var order := Order(nodes, id);
            && (forall x :: x in order <==> Under(nodes, x, id))
            && Distinct(order) && ChildrenFirst(nodes, order)
    decreases |nodes| - id, 1, 0
  {
    var children := nodes[id].value.children;
    OrderOfLaws(nodes, id, children);
    hide Under, UnderSome, Distinct, ChildrenFirst, Shape;
    ParentLast(nodes, id, OrderOf(nodes, id, children));
  }

  /** All that hangs strictly below a scope, then the scope. */
  lemma ParentLast(nodes: seq<Option<Node>>, id: ScopeId, below: seq<ScopeId>)
    requires Shape(nodes) && id < |nodes| && nodes[id].Some?
    requires forall x :: x in below <==> UnderSome(nodes, x, nodes[id].value.children)
    requires Distinct(below) && ChildrenFirst(nodes, below)
    ensures forall x :: x in below + [id] <==> Under(nodes, x, id)
    ensures Distinct(below + [id]) && ChildrenFirst(nodes, below + [id])
  {
    forall x ensures x in below + [id] <==> Under(nodes, x, id) {
      StrictlyUnder(nodes, id, x);
    }
    forall x | x in below ensures x != id && !Under(nodes, id, x) {
      StrictlyUnder(nodes, id, x);
    }
    assert ChildrenFirst(nodes, [id]);
    hide Under, UnderSome, ChildrenFirst;
    ConcatLaws(nodes, below, [id]);
  }

  lemma StrictlyUnder(nodes: seq<Option<Node>>, id: ScopeId, x: ScopeId)
    requires Shape(nodes) && id < |nodes| && nodes[id].Some?
    ensures UnderSome(nodes, x, nodes[id].value.children) <==> Under(nodes, x, id) && x != id
    ensures UnderSome(nodes, x, nodes[id].value.children) ==> !Under(nodes, id, x)
    ensures Under(nodes, id, id)
  {
    var children := nodes[id].value.children;
    if Under(nodes, x, id) && x != id {
      var child := UnderSplits(nodes, x, id);
    }
    if UnderSome(nodes, x, children) {
      var c :| c in children && Under(nodes, x, c);
      UnderChild(nodes, x, c, id);
      if Under(nodes, id, x) {
        UnderAtLeast(nodes, id, x);
      }
    }
  }

  /** `x` hangs below one of these. */
  ghost predicate UnderSome(nodes: seq<Option<Node>>, x: ScopeId, roots: seq<ScopeId>)
    requires Shape(nodes)
  {
    exists c :: c in roots && Under(nodes, x, c)
  }

  lemma {:induction false} OrderOfLaws(nodes: seq<Option<Node>>, id: ScopeId, children: seq<ScopeId>)
    requires Shape(nodes) && id < |nodes| && nodes[id].Some? && children <= nodes[id].value.children
    ensures var order := OrderOf(nodes, id, children);
            && (forall x :: x in order <==> UnderSome(nodes, x, children))
            && Distinct(order) && ChildrenFirst(nodes, order)
    decreases |nodes| - id, 0, |children|
  {
    if children != [] {
      var n := |children| - 1;
      assert children[n] == nodes[id].value.children[n];
      OrderLaws(nodes, children[n]);
      OrderOfLaws(nodes, id, children[..n]);
      hide Under, UnderSome, Distinct, ChildrenFirst, Shape;
      SiblingOrders(nodes, id, children, Order(nodes, children[n]), OrderOf(nodes, id, children[..n]));
    }
  }

  /** The order of the last child, then that of the others. */
  lemma SiblingOrders(nodes: seq<Option<Node>>, id: ScopeId, children: seq<ScopeId>, a: seq<ScopeId>, b: seq<ScopeId>)
    requires Shape(nodes) && id < |nodes| && nodes[id].Some? && children <= nodes[id].value.children && children != []
    requires forall x :: x in a <==> Under(nodes, x, children[|children| - 1])
    requires forall x :: x in b <==> UnderSome(nodes, x, children[..|children| - 1])
    requires Distinct(a) && ChildrenFirst(nodes, a) && Distinct(b) && ChildrenFirst(nodes, b)
    ensures forall x :: x in a + b <==> UnderSome(nodes, x, children)
    ensures Distinct(a + b) && ChildrenFirst(nodes, a + b)
  {
    var n := |children| - 1;
    hide Under, Shape, Distinct, ChildrenFirst;
    forall x ensures UnderSome(nodes, x, children) <==> UnderSome(nodes, x, children[..n]) || Under(nodes, x, children[n]) {
      if c :| c in children && Under(nodes, x, c) {
        assert c in children[..n] || c == children[n];
      }
    }
    forall x, y | x in a && y in b ensures x != y && !Under(nodes, y, x) {
      var c :| c in children[..n] && Under(nodes, y, c);
      SiblingsApart(nodes, id, children, c, x, y);
    }
    ConcatLaws(nodes, a, b);
  }

  lemma ConcatLaws(nodes: seq<Option<Node>>, a: seq<ScopeId>, b: seq<ScopeId>)
    requires Shape(nodes) && Distinct(a) && Distinct(b) && ChildrenFirst(nodes, a) && ChildrenFirst(nodes, b)
    requires forall x, y | x in a && y in b :: x != y && !Under(nodes, y, x)
    ensures Distinct(a + b) && ChildrenFirst(nodes, a + b)
  {
    forall i, j | 0 <= i < j < |a + b| ensures (a + b)[i] != (a + b)[j] && !Under(nodes, (a + b)[j], (a + b)[i]) {
      if i < |a| <= j {
        assert a[i] in a && b[j - |a|] in b;
      }
    }
  }

  /** Nothing below one sibling is, or is below, something below another. */
  lemma SiblingsApart(nodes: seq<Option<Node>>, id: ScopeId, children: seq<ScopeId>, c: ScopeId, x: ScopeId, y: ScopeId)
    requires Shape(nodes) && id < |nodes| && nodes[id].Some? && children <= nodes[id].value.children && children != []
    requires c in children[..|children| - 1] && Under(nodes, x, children[|children| - 1]) && Under(nodes, y, c)
    ensures x != y && !Under(nodes, y, x)
  {
    var n := |children| - 1;
    var last := children[n];
    assert last == nodes[id].value.children[n];
    var k :| 0 <= k < n && children[k] == c;
    assert c == nodes[id].value.children[k] && c < last;
    if Under(nodes, y, x) {
      UnderTrans(nodes, y, x, last);
      UnderApart(nodes, y, c, last);
    }
  }

  lemma {:induction false} UnderTrans(nodes: seq<Option<Node>>, x: ScopeId, y: ScopeId, z: ScopeId)
    requires Shape(nodes) && Under(nodes, x, y) && Under(nodes, y, z)
    ensures Under(nodes, x, z)
    decreases x
  {
    if x != y {
      UnderTrans(nodes, nodes[x].value.parent.value, y, z);
    }
  }

  // ---------------------------------------------------------------- the cascade

  lemma AsSetSnoc(order: seq<ScopeId>, k: nat)
    requires k < |order|
    ensures AsSet(order[..k + 1]) == AsSet(order[..k]) + {order[k]}
  {
    assert order[..k + 1] == order[..k] + [order[k]];
  }

  lemma NoneGone(order: seq<ScopeId>)
    ensures AsSet(order[..0]) == {}
  {
  }

  /** A stretch of the order, ready to go on: the next scope is an active leaf by then. */
  lemma NextIsLeaf(t: Tree, root: ScopeId, k: nat)
    requires Shape(t.nodes) && Active(t, root) && k < |Order(t.nodes, root)|
    ensures var order := Order(t.nodes, root);
            var t' := Removed(t, AsSet(order[..k]));
            Active(t, order[k]) && Active(t', order[k]) && NodeOf(t', order[k]).children == []
  {
    var order := Order(t.nodes, root);
    var id := order[k];
    var gone := AsSet(order[..k]);
    OrderLaws(t.nodes, root);
    assert id in order;
    RemovedAt(t, gone, id);
    forall c | c in t.nodes[id].value.children ensures c in gone {
      GoneBefore(t, root, k, c);
    }
    IdsAllGone(t.nodes[id].value.children, gone);
  }

  lemma GoneBefore(t: Tree, root: ScopeId, k: nat, c: ScopeId)
    requires Shape(t.nodes) && Active(t, root) && k < |Order(t.nodes, root)|
    requires Active(t, Order(t.nodes, root)[k]) && c in NodeOf(t, Order(t.nodes, root)[k]).children
    ensures c in AsSet(Order(t.nodes, root)[..k])
  {
    var order := Order(t.nodes, root);
    var id := order[k];
    OrderLaws(t.nodes, root);
    assert id in order;
    var i :| 0 <= i < |t.nodes[id].value.children| && t.nodes[id].value.children[i] == c;
    assert Under(t.nodes, c, id) by {
      assert Under(t.nodes, id, id);
    }
    UnderTrans(t.nodes, c, id, root);
    var j :| 0 <= j < |order| && order[j] == c;
    assert order[..k][j] == c;
  }

  lemma {:induction false} IdsAllGone(ids: seq<ScopeId>, gone: set<ScopeId>)
    requires forall x | x in ids :: x in gone
    ensures WithoutIds(ids, gone) == []
  {
    if ids != [] {
      assert ids[|ids| - 1] in ids;
      IdsAllGone(ids[..|ids| - 1], gone);
    }
  }

  lemma UnpinnedAfter(t: Tree, order: seq<ScopeId>, k: nat)
    requires k < |order| && Distinct(order)
    ensures var gone := AsSet(order[..k]);
            Unpinned(order[k], t.instances, StacksWithout(t.wrappers, gone)) <==>
            Unpinned(order[k], Removed(t, gone).instances, Removed(t, gone).wrappers)
  {
    var gone := AsSet(order[..k]);
    var wrappers := StacksWithout(t.wrappers, gone);
    assert order[k] !in gone;
    forall name | name in wrappers
      ensures PinnedBy(order[k], t.instances, wrappers, name) <==> PinnedBy(order[k], Removed(t, gone).instances, wrappers, name)
    {
      WithoutHas(Stack(t.instances, name), gone, order[k]);
    }
  }

  /** Each step of a planned cascade finds the invariant intact. */
  lemma {:induction false} CascadeKeeps(t: Tree, root: ScopeId, k: nat)
    requires Valid(t) && CanUnmount(t, root) && k <= |Order(t.nodes, root)|
    ensures Valid(Removed(t, AsSet(Order(t.nodes, root)[..k])))
  {
    hide Order, Removed, Unpinned, StacksWithout, AsSet, Instances, Chains, Registered;
    var order := Order(t.nodes, root);
    OrderLaws(t.nodes, root);
    if k == 0 {
      NoneGone(order);
      RemovedNothing(t);
    } else {
      CascadeKeeps(t, root, k - 1);
      NextIsLeaf(t, root, k - 1);
      UnpinnedAfter(t, order, k - 1);
      LeafKeeps(Removed(t, AsSet(order[..k - 1])), order[k - 1]);
      RemovedTwice(t, AsSet(order[..k - 1]), {order[k - 1]});
      AsSetSnoc(order, k - 1);
    }
  }

  /** The plan accepts exactly when no step of the removal itself would meet a pin. */
  lemma PlanIsExact(t: Tree, order: seq<ScopeId>)
    requires Distinct(order)
    ensures Plan(t, order) <==>
            forall k | 0 <= k < |order| ::
              var t' := Removed(t, AsSet(order[..k])); Unpinned(order[k], t'.instances, t'.wrappers)
  {
    forall k | 0 <= k < |order|
      ensures Unpinned(order[k], t.instances, StacksWithout(t.wrappers, AsSet(order[..k]))) <==>
              var t' := Removed(t, AsSet(order[..k])); Unpinned(order[k], t'.instances, t'.wrappers)
    {
      UnpinnedAfter(t, order, k);
    }
  }

  /**
   An unmount that goes through removes exactly the subtree: what is left is the old tree
   filtered to the scopes outside it, and it is valid. One that does not go through changes
   nothing.
   */
  lemma UnmountLaws(t: Tree, root: ScopeId)
    requires Valid(t)
    ensures Valid(Unmount(t, root))
    ensures CanUnmount(t, root) ==>
              && (forall id :: Active(Unmount(t, root), id) <==> Active(t, id) && !Under(t.nodes, id, root))
              && (forall id :: id in AsSet(Order(t.nodes, root)) <==> Under(t.nodes, id, root))
    ensures !CanUnmount(t, root) ==> Unmount(t, root) == t
  {
    if CanUnmount(t, root) {
      var order := Order(t.nodes, root);
      CascadeKeeps(t, root, |order|);
      assert order[..|order|] == order;
      OrderLaws(t.nodes, root);
      forall id ensures Active(Unmount(t, root), id) <==> Active(t, id) && !Under(t.nodes, id, root) {
        RemovedAt(t, AsSet(order), id);
      }
    }
  }

  // ---------------------------------------------------------------- when a cascade goes through

  /** `x` leaves strictly before `y`. */
  ghost predicate Before(order: seq<ScopeId>, x: ScopeId, y: ScopeId) {
    exists a, b | 0 <= a < b < |order| :: order[a] == x && order[b] == y
  }

  /** Every layer over a name leaves before any scope that mounted the name. */
  ghost predicate LayersFirst(order: seq<ScopeId>, mounted: seq<Effect>, chain: seq<Effect>) {
    forall m, j | 0 <= m < |mounted| && mounted[m].scope in order && 0 <= j < |chain| ::
      Before(order, chain[j].scope, mounted[m].scope)
  }

  /** A layer that leaves does so after every layer over it. */
  ghost predicate TopFirst(order: seq<ScopeId>, chain: seq<Effect>) {
    forall i, j | 0 <= i < j < |chain| && chain[i].scope in order :: Before(order, chain[j].scope, chain[i].scope)
  }

  ghost predicate Peels(t: Tree, order: seq<ScopeId>) {
    forall name | name in t.wrappers ::
      LayersFirst(order, Stack(t.instances, name), t.wrappers[name]) && TopFirst(order, t.wrappers[name])
  }

  lemma BeforeMeans(order: seq<ScopeId>, k: nat, x: ScopeId)
    requires Distinct(order) && k < |order|
    ensures Before(order, x, order[k]) <==> x in AsSet(order[..k])
  {
    if x in order[..k] {
      var a :| 0 <= a < k && order[..k][a] == x;
      assert order[a] == x;
    }
    if Before(order, x, order[k]) {
      var a, b :| 0 <= a < b < |order| && order[a] == x && order[b] == order[k];
      assert b == k && order[..k][a] == x;
    }
  }

  lemma {:induction false} WithoutNone(chain: seq<Effect>, gone: set<ScopeId>)
    ensures Without(chain, gone) == [] <==> forall j | 0 <= j < |chain| :: chain[j].scope in gone
  {
    if chain != [] {
      var n := |chain| - 1;
      WithoutNone(chain[..n], gone);
      assert forall j | 0 <= j < n :: chain[..n][j] == chain[j];
    }
  }

  /** Some layer of `x` has a layer over it that stays. */
  ghost predicate Covered(chain: seq<Effect>, gone: set<ScopeId>, x: ScopeId) {
    exists i, j | 0 <= i < j < |chain| :: chain[i].scope == x && chain[j].scope !in gone
  }

  lemma CoveredSnoc(chain: seq<Effect>, e: Effect, gone: set<ScopeId>, x: ScopeId)
    ensures Covered(chain + [e], gone, x) <==> Covered(chain, gone, x) || (Has(chain, x) && e.scope !in gone)
  {
    var longer := chain + [e];
    if Covered(chain, gone, x) {
      var i, j :| 0 <= i < j < |chain| && chain[i].scope == x && chain[j].scope !in gone;
      assert longer[i] == chain[i] && longer[j] == chain[j];
    }
    if Has(chain, x) && e.scope !in gone {
      var i :| 0 <= i < |chain| && chain[i].scope == x;
      assert longer[i] == chain[i] && longer[|chain|] == e;
    }
    if Covered(longer, gone, x) {
      var i, j :| 0 <= i < j < |longer| && longer[i].scope == x && longer[j].scope !in gone;
      assert longer[i] == chain[i] && (j < |chain| ==> longer[j] == chain[j]);
    }
  }

  /** Filtering leaves a layer buried exactly when some layer over it stays. */
  lemma {:induction false} WithoutBuried(chain: seq<Effect>, gone: set<ScopeId>, x: ScopeId)
    requires x !in gone
    ensures Buried(Without(chain, gone), x) <==> Covered(chain, gone, x)
  {
    if chain != [] {
      hide Covered, Buried, Has;
      var n := |chain| - 1;
      var kept := Without(chain[..n], gone);
      WithoutBuried(chain[..n], gone, x);
      WithoutHas(chain[..n], gone, x);
      assert chain == chain[..n] + [chain[n]];
      CoveredSnoc(chain[..n], chain[n], gone, x);
      BuriedSnoc(kept, chain[n], x);
      assert Without(chain, gone) == if chain[n].scope in gone then kept else kept + [chain[n]];
    }
  }

  lemma BuriedSnoc(chain: seq<Effect>, e: Effect, x: ScopeId)
    ensures Buried(chain + [e], x) <==> Has(chain, x)
  {
    var longer := chain + [e];
    if Has(chain, x) {
      var i :| 0 <= i < |chain| && chain[i].scope == x;
      assert longer[i].scope == x;
    }
    if Buried(longer, x) {
      var i :| 0 <= i < |longer| - 1 && longer[i].scope == x;
      assert chain[i].scope == x;
    }
  }

  /** The pins of one name on the `k`th scope to leave, read off the chain as it is before the removal. */
  lemma PinMeans(t: Tree, order: seq<ScopeId>, name: string, k: nat)
    requires Distinct(order) && k < |order| && name in t.wrappers
    ensures var chain := t.wrappers[name];
            PinnedBy(order[k], t.instances, StacksWithout(t.wrappers, AsSet(order[..k])), name) <==>
            || (Has(Stack(t.instances, name), order[k]) && exists j | 0 <= j < |chain| :: !Before(order, chain[j].scope, order[k]))
            || (exists i, j | 0 <= i < j < |chain| :: chain[i].scope == order[k] && !Before(order, chain[j].scope, order[k]))
  {
    var chain, gone := t.wrappers[name], AsSet(order[..k]);
    forall x ensures Before(order, x, order[k]) <==> x in gone {
      BeforeMeans(order, k, x);
    }
    assert order[k] !in gone;
    WithoutNone(chain, gone);
    WithoutBuried(chain, gone, order[k]);
    hide Without, Before, AsSet;
    assert StacksWithout(t.wrappers, gone)[name] == Without(chain, gone);
    assert Buried(Without(chain, gone), order[k]) ==> Without(chain, gone) != [];
  }

  lemma PeelsMeans(t: Tree, order: seq<ScopeId>, name: string)
    requires Distinct(order) && name in t.wrappers
    ensures var chain := t.wrappers[name];
            (LayersFirst(order, Stack(t.instances, name), chain) && TopFirst(order, chain)) <==>
            forall k | 0 <= k < |order| :: !PinnedBy(order[k], t.instances, StacksWithout(t.wrappers, AsSet(order[..k])), name)
  {
    var chain, mounted := t.wrappers[name], Stack(t.instances, name);
    forall k | 0 <= k < |order|
      ensures LayersFirst(order, mounted, chain) && TopFirst(order, chain) ==>
                !PinnedBy(order[k], t.instances, StacksWithout(t.wrappers, AsSet(order[..k])), name)
    {
      PinMeans(t, order, name, k);
    }
    forall m, j | 0 <= m < |mounted| && mounted[m].scope in order && 0 <= j < |chain| && !Before(order, chain[j].scope, mounted[m].scope)
      ensures exists k | 0 <= k < |order| :: PinnedBy(order[k], t.instances, StacksWithout(t.wrappers, AsSet(order[..k])), name)
    {
      var k :| 0 <= k < |order| && order[k] == mounted[m].scope;
      PinMeans(t, order, name, k);
    }
    forall i, j | 0 <= i < j < |chain| && chain[i].scope in order && !Before(order, chain[j].scope, chain[i].scope)
      ensures exists k | 0 <= k < |order| :: PinnedBy(order[k], t.instances, StacksWithout(t.wrappers, AsSet(order[..k])), name)
    {
      var k :| 0 <= k < |order| && order[k] == chain[i].scope;
      PinMeans(t, order, name, k);
    }
  }

  /**
   An unmount goes through if and only if the wrapper chains, as they are before it, peel off
   in its order: over a name that the subtree mounts, the whole chain belongs to the subtree and
   leaves before the scope that mounted it; and in every chain a layer of the subtree has only
   layers of the subtree over it, which leave before it.
   */
  lemma UnmountsIffPeels(t: Tree, root: ScopeId)
    requires Shape(t.nodes) && Active(t, root)
    ensures CanUnmount(t, root) <==> Peels(t, Order(t.nodes, root))
  {
    var order := Order(t.nodes, root);
    OrderLaws(t.nodes, root);
    hide Order, Under, LayersFirst, TopFirst, PinnedBy, StacksWithout, AsSet;
    forall name | name in t.wrappers
      ensures (LayersFirst(order, Stack(t.instances, name), t.wrappers[name]) && TopFirst(order, t.wrappers[name])) <==>
              forall k | 0 <= k < |order| :: !PinnedBy(order[k], t.instances, StacksWithout(t.wrappers, AsSet(order[..k])), name)
    {
      PeelsMeans(t, order, name);
    }
    PlanByName(t, order);
  }

  lemma PlanByName(t: Tree, order: seq<ScopeId>)
    ensures Plan(t, order) <==>
            forall name | name in t.wrappers ::
              forall k | 0 <= k < |order| :: !PinnedBy(order[k], t.instances, StacksWithout(t.wrappers, AsSet(order[..k])), name)
  {
    hide PinnedBy;
    assert forall k | 0 <= k < |order| :: StacksWithout(t.wrappers, AsSet(order[..k])).Keys == t.wrappers.Keys;
  }

  /** A scope with two layers in one chain pins itself, and whatever it hangs below. */
  lemma TwoLayersPin(t: Tree, root: ScopeId, name: string, i: nat, j: nat)
    requires Shape(t.nodes) && Active(t, root) && name in t.wrappers && i < j < |t.wrappers[name]|
    requires t.wrappers[name][i].scope == t.wrappers[name][j].scope && Under(t.nodes, t.wrappers[name][i].scope, root)
    ensures !CanUnmount(t, root)
  {
    var order := Order(t.nodes, root);
    var x := t.wrappers[name][i].scope;
    OrderLaws(t.nodes, root);
    UnmountsIffPeels(t, root);
    assert x in order;
    assert !Before(order, x, x);
  }

  // ---------------------------------------------------------------- update

  ghost function Update(t: Tree, id: ScopeId, info: MountInfo): Tree
    requires Shape(t.nodes)
  {
    if !CanUnmount(t, id) then t
    else
      var node := NodeOf(t, id);
      Mount(Unmount(t, id), node.parent, info.(name := node.info.name)).0
  }

  lemma UnmountLength(t: Tree, id: ScopeId)
    requires Shape(t.nodes)
    ensures |Unmount(t, id).nodes| == |t.nodes|
  {
  }

  /** An update that gets past its unmount never fails: the parent is outside the removed subtree. */
  lemma UpdateMounts(t: Tree, id: ScopeId, info: MountInfo)
    requires Valid(t) && CanUnmount(t, id)
    ensures var node := NodeOf(t, id);
            var mounted := Mount(Unmount(t, id), node.parent, info.(name := node.info.name));
            && mounted.1 == Ok(|t.nodes|)
            && Resolve(mounted.0, node.info.name) ==
               match Top(Stack(Unmount(t, id).wrappers, node.info.name))
               case Some(e) => Some(e.tool)
               case None => Some(Base(|t.nodes|))
  {
    var node := NodeOf(t, id);
    UnmountLaws(t, id);
    UnmountLength(t, id);
    if node.parent.Some? {
      var p := node.parent.value;
      if Under(t.nodes, p, id) {
        UnderAtLeast(t.nodes, p, id);
      }
      assert Active(Unmount(t, id), p);
    }
    hide Unmount, CanUnmount, Instances, Chains, Registered, Under;
    MountAt(Unmount(t, id), node.parent, info.(name := node.info.name));
  }

  // ---------------------------------------------------------------- runs

  datatype Op =
    | DoMount(parent: Option<ScopeId>, info: MountInfo)
    | DoWrap(scope: ScopeId, target: string)
    | DoCollect(scope: ScopeId, what: string)
    | DoUnmount(scope: ScopeId)
    | DoUpdate(scope: ScopeId, info: MountInfo)

  ghost function Step(t: Tree, op: Op): Tree
    requires Shape(t.nodes)
  {
    match op
    case DoMount(parent, info) => Mount(t, parent, info).0
    case DoWrap(scope, target) => Wrap(t, scope, target).0
    case DoCollect(scope, what) => if Active(t, scope) then Collect(t, scope, Inert(what)) else t
    case DoUnmount(scope) => Unmount(t, scope)
    case DoUpdate(scope, info) => Update(t, scope, info)
  }

  lemma UpdateKeeps(t: Tree, id: ScopeId, info: MountInfo)
    requires Valid(t)
    ensures Valid(Update(t, id, info))
  {
    hide Mount, Unmount, CanUnmount, Instances, Chains, Registered, Shape;
    UnmountLaws(t, id);
    if CanUnmount(t, id) {
      CanBeActive(t, id);
      MountKeeps(Unmount(t, id), NodeOf(t, id).parent, info.(name := NodeOf(t, id).info.name));
    }
  }

  lemma CanBeActive(t: Tree, id: ScopeId)
    requires Shape(t.nodes) && CanUnmount(t, id)
    ensures Active(t, id)
  {
  }

  lemma StepKeeps(t: Tree, op: Op)
    requires Valid(t)
    ensures Valid(Step(t, op))
  {
    hide Mount, Unmount, Wrap, Collect, Update, Instances, Chains, Registered, Shape;
    match op {
      case DoMount(parent, info) => MountKeeps(t, parent, info);
      case DoWrap(scope, target) => WrapKeeps(t, scope, target);
      case DoCollect(scope, what) =>
        if Active(t, scope) {
          CollectKeeps(t, scope, what);
        }
      case DoUnmount(scope) => UnmountLaws(t, scope);
      case DoUpdate(scope, info) => UpdateKeeps(t, scope, info);
    }
  }

  /** `t` is what some run of operations makes of the empty tree. */
  ghost predicate Reachable(t: Tree, ops: seq<Op>)
    decreases |ops|
  {
    if ops == [] then t == EMPTY
    else exists before :: Reachable(before, ops[..|ops| - 1]) && Shape(before.nodes) && t == Step(before, ops[|ops| - 1])
  }

  /**
   In every reachable tree each wrapper chain is exactly nested over a mounted instance, each
   effect has its inverse on record, and no name resolves to a tool over a disposed scope.
   */
  lemma {:induction false} ReachableIsValid(t: Tree, ops: seq<Op>)
    requires Reachable(t, ops)
    ensures Valid(t)
    ensures forall name | name in t.wrappers :: Nested(t, name, t.wrappers[name])
    ensures forall name | Resolve(t, name).Some? :: Alive(t, Resolve(t, name).value)
    decreases |ops|
  {
    if ops != [] {
      var before :| Reachable(before, ops[..|ops| - 1]) && Shape(before.nodes) && t == Step(before, ops[|ops| - 1]);
      ReachableIsValid(before, ops[..|ops| - 1]);
      StepKeeps(before, ops[|ops| - 1]);
    }
    forall name | Resolve(t, name).Some? ensures Alive(t, Resolve(t, name).value) {
      ResolveIsAlive(t, name);
    }
  }

  /**
   A scope can pin itself: a wrap that succeeded succeeds again, and after that neither the scope
   nor anything it hangs below can be unmounted as the tree stands.
   */
  lemma WrappingTwicePins(t: Tree, scope: ScopeId, target: string, root: ScopeId)
    requires Valid(t) && Wrap(t, scope, target).1.Ok?
    ensures var t1 := Wrap(t, scope, target).0;
            var (t2, again) := Wrap(t1, scope, target);
            again.Ok? && Shape(t2.nodes) && (Active(t2, root) && Under(t2.nodes, scope, root) ==> !CanUnmount(t2, root))
  {
    hide Wrap, CanUnmount, Under, Shape, Instances, Chains, Registered, Keeps;
    var t1 := Wrap(t, scope, target).0;
    var t2 := Wrap(t1, scope, target).0;
    WrapKeeps(t, scope, target);
    WrapKeeps(t1, scope, target);
    WrapAgain(t, scope, target);
    WrapAt(t, scope, target);
    WrapAt(t1, scope, target);
    if Active(t2, root) && Under(t2.nodes, scope, root) {
      var n := |Stack(t.wrappers, target)|;
      TwoLayersPin(t2, root, target, n, n + 1);
    }
  }

  lemma WrapAgain(t: Tree, scope: ScopeId, target: string)
    requires Valid(t) && Wrap(t, scope, target).1.Ok?
    ensures Wrap(Wrap(t, scope, target).0, scope, target).1.Ok?
  {
    hide Shape, Instances, Chains, Registered;
    assert Stack(Wrap(t, scope, target).0.wrappers, target) != [];
  }

  /** Such a wrap exists: two mounts, and the second wraps the name of the first. */
  lemma SelfPinOccurs()
    ensures var info := MountInfo("a", "1", "h", "none", "s");
            var t := Mount(Mount(EMPTY, None, info).0, None, info.(name := "b")).0;
            Wrap(t, 1, "a").1.Ok?
  {
    var info := MountInfo("a", "1", "h", "none", "s");
    var t := Mount(Mount(EMPTY, None, info).0, None, info.(name := "b")).0;
    assert Stack(t.instances, "a") == [Effect(0, Base(0))];
  }
}
