/** What mounting, wrapping and unmounting do to the tools that names resolve to. */
module ScopeEffects {
  import opened Basics
  import opened Scopes
  import opened ScopeLaws
  import opened ScopeRemoval

  // ---------------------------------------------------------------- what a name resolves to

  /** The decorators of a tool, innermost first. */
  function Layers(tool: Tool): seq<ScopeId> {
    match tool
    case Base(_) => []
    case Wrapped(scope, inner) => Layers(inner) + [scope]
  }

  /** The scope whose instance a tool is at its core. */
  function Core(tool: Tool): ScopeId {
    match tool
    case Base(scope) => scope
    case Wrapped(_, inner) => Core(inner)
  }

  predicate Named(t: Tree, id: ScopeId, name: string) {
    Active(t, id) && NodeOf(t, id).info.name == name
  }

  /** The scope mounted last under a name. */
  ghost predicate Newest(t: Tree, id: ScopeId, name: string) {
    Named(t, id, name) && forall x: ScopeId | Named(t, x, name) :: x <= id
  }

  lemma MountedIff(t: Tree, name: string, id: ScopeId)
    requires Valid(t)
    ensures Has(Stack(t.instances, name), id) <==> Named(t, id, name)
  {
    hide Shape, Chains, Registered;
    if Named(t, id, name) {
      assert AllMounted(t);
    }
    if Has(Stack(t.instances, name), id) {
      var i :| 0 <= i < |Stack(t.instances, name)| && Stack(t.instances, name)[i].scope == id;
      assert EntriesFit(t) && t.instances[name][i].scope == id;
    }
  }

  lemma TopIsNewest(t: Tree, name: string)
    requires Valid(t)
    ensures Stack(t.instances, name) == [] <==> forall id :: !Named(t, id, name)
    ensures var stack := Stack(t.instances, name);
            stack != [] ==> stack[|stack| - 1].tool == Base(stack[|stack| - 1].scope) && Newest(t, stack[|stack| - 1].scope, name)
  {
    var stack := Stack(t.instances, name);
    forall id ensures Has(stack, id) <==> Named(t, id, name) {
      MountedIff(t, name, id);
    }
    if stack != [] {
      var n := |stack| - 1;
      assert Has(stack, stack[n].scope) && t.instances[name] == stack;
      assert EntriesFit(t) && EntriesOrdered(t.instances);
      hide Valid, Named;
      forall id: ScopeId | Has(stack, id) ensures id <= stack[n].scope {
        var i :| 0 <= i < |stack| && stack[i].scope == id;
        assert i < n ==> stack[i].scope < stack[n].scope;
      }
    }
  }

  lemma {:induction false} ChainLayers(t: Tree, name: string, chain: seq<Effect>, k: nat)
    requires Valid(t) && Nested(t, name, chain) && k < |chain|
    ensures var tool := chain[k].tool;
            && tool.Wrapped? && |Layers(tool)| == k + 1 && Named(t, Core(tool), name)
            && forall i | 0 <= i <= k :: Layers(tool)[i] == chain[i].scope
  {
    if k > 0 {
      ChainLayers(t, name, chain, k - 1);
      hide Valid;
      assert chain[k].tool == Wrapped(chain[k].scope, chain[k - 1].tool);
    } else {
      var b :| Has(Stack(t.instances, name), b) && chain[0].tool == Wrapped(chain[0].scope, Base(b));
      MountedIff(t, name, b);
      hide Valid;
      assert Layers(Base(b)) == [];
    }
  }

  /**
   A name resolves exactly if some scope is mounted under it. It resolves to the layers that wrap
   the name, in the order they were added, around an instance mounted under it; with no layer,
   to the instance mounted last.
   */
  lemma ResolveMeans(t: Tree, name: string)
    requires Valid(t)
    ensures Resolve(t, name) == None <==> forall id :: !Named(t, id, name)
    ensures var (r, chain) := (Resolve(t, name), Stack(t.wrappers, name));
            r.Some? ==>
              && Named(t, Core(r.value), name) && |Layers(r.value)| == |chain|
              && (forall i | 0 <= i < |chain| :: Layers(r.value)[i] == chain[i].scope)
              && (chain == [] ==> exists id :: r == Some(Base(id)) && Newest(t, id, name))
  {
    var chain := Stack(t.wrappers, name);
    TopIsNewest(t, name);
    if chain != [] {
      assert Nested(t, name, t.wrappers[name]);
      ChainLayers(t, name, chain, |chain| - 1);
    }
    hide Valid, Named, Newest;
  }

  // ---------------------------------------------------------------- mounting and wrapping

  /**
   A mount succeeds exactly under a live parent or none. It takes an id never used before,
   appends it to its parent's children, and changes no other scope; its name resolves to the
   new instance unless layers wrap that name, and every other name resolves as before.
   */
  lemma MountMeans(t: Tree, parent: Option<ScopeId>, info: MountInfo)
    requires Valid(t)
    ensures var ((t', r), id) := (Mount(t, parent, info), |t.nodes|);
            && (r.Err? <==> parent.Some? && !Active(t, parent.value))
            && (r.Err? ==> parent.Some? && r.error == Dead(parent.value) && t' == t)
            && (r.Ok? ==>
                  && r.value == id && !Active(t, id) && Active(t', id)
                  && NodeOf(t', id) == Node(info, parent, [], [DropInstance(info.name, id)])
                  && (forall x: ScopeId | x != id :: Active(t', x) <==> Active(t, x))
                  && (forall x: ScopeId | Active(t, x) && parent != Some(x) :: Active(t', x) && NodeOf(t', x) == NodeOf(t, x))
                  && (parent.Some? ==> var p := parent.value;
                                       && Active(t, p) && Active(t', p)
                                       && NodeOf(t', p) == NodeOf(t, p).(children := NodeOf(t, p).children + [id]))
                  && (Stack(t.wrappers, info.name) == [] ==> Resolve(t', info.name) == Some(Base(id)))
                  && (Stack(t.wrappers, info.name) != [] ==> Resolve(t', info.name) == Resolve(t, info.name))
                  && (forall name | name != info.name :: Resolve(t', name) == Resolve(t, name)))
  {
    hide Valid;
  }

  /**
   A wrap succeeds exactly if its scope is live, some scope is mounted under the target, and the
   newest of those belongs to the same component set.
   */
  lemma WrapMeans(t: Tree, scope: ScopeId, target: string)
    requires Valid(t)
    ensures var (t', r) := Wrap(t, scope, target);
            && (r == Err(Dead(scope)) <==> !Active(t, scope))
            && (r == Err(NoTarget(target)) <==> Active(t, scope) && forall id :: !Named(t, id, target))
            && (r.Ok? <==> Active(t, scope) && exists id :: Newest(t, id, target) && NodeOf(t, id).info.componentSet == NodeOf(t, scope).info.componentSet)
            && (r.Err? ==> t' == t && (r.error in {Dead(scope), NoTarget(target)} || (Active(t, scope) && r.error == CrossSet(NodeOf(t, scope).info.name, target))))
  {
    hide Valid, Resolve, Named, Newest;
    TopIsNewest(t, target);
    ResolveMeans(t, target);
    OneNewest(t, target);
  }

  lemma OneNewest(t: Tree, name: string)
    ensures forall a, b | Newest(t, a, name) && Newest(t, b, name) :: a == b
    ensures forall a | Newest(t, a, name) :: Active(t, a) && Named(t, a, name)
  {
  }

  /** The target then resolves to a new layer over what it resolved to; every other name resolves as before, and only the inverse is added. */
  lemma WrapResolves(t: Tree, scope: ScopeId, target: string)
    requires Wrap(t, scope, target).1.Ok?
    ensures var t' := Wrap(t, scope, target).0;
            && Resolve(t, target).Some? && Resolve(t', target) == Some(Wrapped(scope, Resolve(t, target).value))
            && (forall name | name != target :: Resolve(t', name) == Resolve(t, name))
            && (forall x :: Active(t', x) <==> Active(t, x))
            && (forall x | Active(t, x) :: NodeOf(t', x) == if x == scope then NodeOf(t, x).(disposables := NodeOf(t, x).disposables + [DropWrap(target, scope)]) else NodeOf(t, x))
  {
  }

  // ---------------------------------------------------------------- unmounting

  /** The tool without its outer layers of scopes that are gone. */
  function Peeled(tool: Tool, gone: set<ScopeId>): Tool {
    if tool.Wrapped? && tool.scope in gone then Peeled(tool.inner, gone) else tool
  }

  /** The first `m` layers stay and all over them are gone. */
  predicate SplitsAt(chain: seq<Effect>, gone: set<ScopeId>, m: nat) {
    && m <= |chain|
    && (forall i | 0 <= i < m :: chain[i].scope !in gone)
    && (forall i | m <= i < |chain| :: chain[i].scope in gone)
  }

  lemma {:induction false} SplitsSomewhere(chain: seq<Effect>, gone: set<ScopeId>) returns (m: nat)
    requires forall i, j | 0 <= i < j < |chain| && chain[i].scope in gone :: chain[j].scope in gone
    ensures SplitsAt(chain, gone, m)
  {
    if chain == [] {
      m := 0;
    } else {
      var n := |chain| - 1;
      assert forall i | 0 <= i < n :: chain[..n][i] == chain[i];
      m := SplitsSomewhere(chain[..n], gone);
      assert m < n ==> chain[m].scope in gone;
      if m == n && chain[n].scope !in gone {
        m := n + 1;
      }
    }
  }

  lemma {:induction false} SplitFiltered(chain: seq<Effect>, gone: set<ScopeId>, m: nat)
    requires SplitsAt(chain, gone, m)
    ensures Without(chain, gone) == chain[..m]
  {
    if chain != [] {
      var n := |chain| - 1;
      if m <= n {
        SplitFiltered(chain[..n], gone, m);
        assert chain[..n][..m] == chain[..m];
      } else {
        SplitFiltered(chain[..n], gone, n);
        assert chain[..n] + [chain[n]] == chain[..m];
      }
    }
  }

  lemma {:induction false} SplitPeels(t: Tree, name: string, chain: seq<Effect>, gone: set<ScopeId>, m: nat, k: nat)
    requires Nested(t, name, chain) && SplitsAt(chain, gone, m) && k < |chain| && m <= k + 1
    ensures Peeled(chain[k].tool, gone) == if m == 0 then Base(Core(chain[k].tool)) else chain[m - 1].tool
  {
    if k > 0 {
      assert chain[k].tool == Wrapped(chain[k].scope, chain[k - 1].tool);
      if m <= k {
        SplitPeels(t, name, chain, gone, m, k - 1);
      }
    }
  }

  lemma PeelsSplit(t: Tree, root: ScopeId, name: string, order: seq<ScopeId>) returns (m: nat)
    requires Peels(t, order) && name in t.wrappers
    ensures SplitsAt(t.wrappers[name], AsSet(order), m)
  {
    var (chain, gone) := (t.wrappers[name], AsSet(order));
    forall i, j | 0 <= i < j < |chain| && chain[i].scope in gone ensures chain[j].scope in gone {
      assert Before(order, chain[j].scope, chain[i].scope);
    }
    m := SplitsSomewhere(chain, gone);
  }

  lemma OutermostPeeled(t: Tree, root: ScopeId, name: string)
    requires Valid(t) && CanUnmount(t, root) && Resolve(t, name).Some?
    ensures var (t', gone) := (Unmount(t, root), AsSet(Order(t.nodes, root)));
            var rest := Peeled(Resolve(t, name).value, gone);
            if rest.Wrapped? then Stack(t'.wrappers, name) != [] && Resolve(t', name) == Some(rest)
            else Stack(t'.wrappers, name) == []
  {
    hide Instances, Registered, Order, AsSet, Peels, Named, Newest;
    var order := Order(t.nodes, root);
    var (chain, gone) := (Stack(t.wrappers, name), AsSet(order));
    TopIsNewest(t, name);
    if chain != [] {
      assert Active(t, root);
      UnmountsIffPeels(t, root);
      var m := PeelsSplit(t, root, name, order);
      assert Nested(t, name, chain);
      SplitFiltered(chain, gone, m);
      SplitPeels(t, name, chain, gone, m, |chain| - 1);
      ChainLayers(t, name, chain, |chain| - 1);
      if m > 0 {
        ChainLayers(t, name, chain, m - 1);
      }
    }
    hide Valid, CanUnmount;
  }

  /**
   After an unmount a name resolves to its tool without the outer layers that belonged to the
   subtree. If no layer is left it resolves to the instance mounted last among those that stay, or
   to nothing if none stays.
   */
  lemma UnmountResolves(t: Tree, root: ScopeId, name: string)
    requires Valid(t) && CanUnmount(t, root)
    ensures var (t', r, gone) := (Unmount(t, root), Resolve(t, name), AsSet(Order(t.nodes, root)));
            && (forall id :: Named(t', id, name) <==> Named(t, id, name) && !Under(t.nodes, id, root))
            && (r.None? ==> Resolve(t', name) == None)
            && (r.Some? ==>
                  && var rest := Peeled(r.value, gone);
                     if rest.Wrapped? then Resolve(t', name) == Some(rest)
                     else if exists id :: Named(t', id, name) then exists id :: Resolve(t', name) == Some(Base(id)) && Newest(t', id, name)
                     else Resolve(t', name) == None)
  {
    var t' := Unmount(t, root);
    UnmountLaws(t, root);
    UnmountNames(t, root, name);
    ResolveMeans(t, name);
    ResolveMeans(t', name);
    if Resolve(t, name).Some? {
      OutermostPeeled(t, root, name);
    }
    hide Valid, Unmount, CanUnmount, Order, AsSet, Resolve, Under, Named, Newest;
  }

  lemma UnmountNames(t: Tree, root: ScopeId, name: string)
    requires Valid(t) && CanUnmount(t, root)
    ensures forall id :: Named(Unmount(t, root), id, name) <==> Named(t, id, name) && !Under(t.nodes, id, root)
  {
    UnmountLaws(t, root);
    hide Valid, CanUnmount, Order, AsSet, Under;
  }

  // ---------------------------------------------------------------- an unmount undoes a mount

  /** A new scope `id` with no children, and perhaps one layer of its own on top of each name but its own. */
  ghost predicate Adds(t: Tree, t': Tree, id: ScopeId, name: string) {
    && Valid(t) && Valid(t') && id == |t.nodes| && Active(t', id) && NodeOf(t', id).children == []
    && t'.instances == Push(t.instances, name, Effect(id, Base(id)))
    && Stack(t'.wrappers, name) == Stack(t.wrappers, name)
    && forall n :: OneMore(Stack(t.wrappers, n), Stack(t'.wrappers, n), id)
  }

  /** The same chain, or one with a layer of `id` on top of it. */
  predicate OneMore(chain: seq<Effect>, chain': seq<Effect>, id: ScopeId) {
    chain' == chain || (chain' != [] && chain'[|chain'| - 1].scope == id && chain'[..|chain'| - 1] == chain)
  }

  lemma MountAdds(t: Tree, parent: Option<ScopeId>, info: MountInfo)
    requires Valid(t) && Mount(t, parent, info).1.Ok?
    ensures Adds(t, Mount(t, parent, info).0, |t.nodes|, info.name)
  {
    MountKeeps(t, parent, info);
    MountMeans(t, parent, info);
    hide Valid;
  }

  lemma WrapAdds(t: Tree, t': Tree, id: ScopeId, name: string, target: string)
    requires Adds(t, t', id, name) && target != name && Stack(t'.wrappers, target) == Stack(t.wrappers, target)
    requires Wrap(t', id, target).1.Ok?
    ensures Adds(t, Wrap(t', id, target).0, id, name)
  {
    hide Valid, Wrap, Resolve;
    WrapKeeps(t', id, target);
    WrapAt(t', id, target);
    WrapResolves(t', id, target);
    LayersAdd(t, t', Wrap(t', id, target).0, id, target, Wrapped(id, Resolve(t', target).value));
  }

  lemma LayersAdd(t: Tree, t': Tree, wrapped: Tree, id: ScopeId, target: string, tool: Tool)
    requires forall n :: OneMore(Stack(t.wrappers, n), Stack(t'.wrappers, n), id)
    requires Stack(t'.wrappers, target) == Stack(t.wrappers, target) && wrapped.wrappers == Push(t'.wrappers, target, Effect(id, tool))
    ensures forall n :: OneMore(Stack(t.wrappers, n), Stack(wrapped.wrappers, n), id)
    ensures forall n | n != target :: Stack(wrapped.wrappers, n) == Stack(t'.wrappers, n)
  {
    var chain := Stack(t.wrappers, target);
    assert (chain + [Effect(id, tool)])[..|chain|] == chain;
    forall n ensures OneMore(Stack(t.wrappers, n), Stack(wrapped.wrappers, n), id) {
      assert n != target ==> Stack(wrapped.wrappers, n) == Stack(t'.wrappers, n);
    }
  }

  lemma NotYet(t: Tree, id: ScopeId, name: string)
    requires Valid(t) && id >= |t.nodes|
    ensures !Has(Stack(t.instances, name), id) && !Has(Stack(t.wrappers, name), id)
  {
    NotMountedYet(t, name, id);
    var chain := Stack(t.wrappers, name);
    forall i | 0 <= i < |chain| ensures chain[i].scope != id {
      assert Nested(t, name, t.wrappers[name]);
    }
  }

  lemma Alone(nodes: seq<Option<Node>>, id: ScopeId)
    requires Shape(nodes) && id < |nodes| && nodes[id].Some? && nodes[id].value.children == []
    ensures Order(nodes, id) == [id] && AsSet([id]) == {id}
  {
  }

  lemma LayerGone(chain: seq<Effect>, chain': seq<Effect>, id: ScopeId)
    requires !Has(chain, id) && OneMore(chain, chain', id)
    ensures Without(chain', {id}) == chain && !Buried(chain', id)
  {
    WithoutAbsent(chain, {id});
  }

  /**
   A scope that wraps only other names, each once, and on top, is unmounted exactly if no layer
   wraps its own name, and then every name resolves again as it did before the scope came.
   */
  lemma UnmountUndoes(t: Tree, t': Tree, id: ScopeId, name: string)
    requires Adds(t, t', id, name)
    ensures CanUnmount(t', id) <==> Stack(t.wrappers, name) == []
    ensures CanUnmount(t', id) ==> forall n :: Resolve(Unmount(t', id), n) == Resolve(t, n)
  {
    Alone(t'.nodes, id);
    hide Instances, Chains, Registered;
    forall n
      ensures Has(Stack(t'.instances, n), id) <==> n == name
      ensures Without(Stack(t'.instances, n), {id}) == Stack(t.instances, n)
      ensures !Buried(Stack(t'.wrappers, n), id) && Without(Stack(t'.wrappers, n), {id}) == Stack(t.wrappers, n)
    {
      AddedAt(t, t', id, name, n);
    }
    LonePlan(t', id, name);
    LoneRemoval(t', t, id);
  }

  lemma LoneRemoval(t: Tree, before: Tree, id: ScopeId)
    requires Shape(t.nodes) && Active(t, id) && Order(t.nodes, id) == [id] && AsSet([id]) == {id}
    requires forall n :: Without(Stack(t.instances, n), {id}) == Stack(before.instances, n)
    requires forall n :: Without(Stack(t.wrappers, n), {id}) == Stack(before.wrappers, n)
    ensures CanUnmount(t, id) ==> forall n :: Resolve(Unmount(t, id), n) == Resolve(before, n)
  {
    hide Order, Shape, Without, CanUnmount;
    forall n | CanUnmount(t, id) ensures Resolve(Unmount(t, id), n) == Resolve(before, n) {
      RemovedStacks(t, {id}, n);
      hide Stack, Removed;
    }
  }

  lemma RemovedStacks(t: Tree, gone: set<ScopeId>, n: string)
    ensures Stack(Removed(t, gone).instances, n) == Without(Stack(t.instances, n), gone)
    ensures Stack(Removed(t, gone).wrappers, n) == Without(Stack(t.wrappers, n), gone)
  {
  }

  lemma AddedAt(t: Tree, t': Tree, id: ScopeId, name: string, n: string)
    requires Adds(t, t', id, name)
    ensures Has(Stack(t'.instances, n), id) <==> n == name
    ensures Without(Stack(t'.instances, n), {id}) == Stack(t.instances, n)
    ensures !Buried(Stack(t'.wrappers, n), id) && Without(Stack(t'.wrappers, n), {id}) == Stack(t.wrappers, n)
  {
    hide Valid, Has, Buried, Without;
    NotYet(t, id, n);
    var (stack, added) := (Stack(t.instances, n), Effect(id, Base(id)));
    assert (stack + [added])[..|stack|] == stack;
    LayerGone(stack, Stack(t'.instances, n), id);
    HasSnoc(stack, added, id);
    LayerGone(Stack(t.wrappers, n), Stack(t'.wrappers, n), id);
  }

  lemma LonePlan(t: Tree, id: ScopeId, name: string)
    requires Shape(t.nodes) && Active(t, id) && Order(t.nodes, id) == [id] && AsSet([id]) == {id}
    requires forall n :: (Has(Stack(t.instances, n), id) <==> n == name) && !Buried(Stack(t.wrappers, n), id)
    ensures CanUnmount(t, id) <==> Stack(t.wrappers, name) == []
  {
    hide Order, Shape, Has, Buried;
    assert AsSet([id][..0]) == {};
    forall n | n in t.wrappers ensures Without(t.wrappers[n], {}) == t.wrappers[n] {
      WithoutAbsent(t.wrappers[n], {});
    }
    assert StacksWithout(t.wrappers, {}) == t.wrappers;
    assert Plan(t, [id]) <==> Unpinned(id, t.instances, t.wrappers);
    assert forall n | n in t.wrappers :: PinnedBy(id, t.instances, t.wrappers, n) <==> t.wrappers[n] != [] && n == name;
  }

  // ---------------------------------------------------------------- the order among siblings

  ghost predicate Siblings(nodes: seq<Option<Node>>, a: ScopeId, b: ScopeId, parent: ScopeId) {
    && a < b < |nodes| && nodes[a].Some? && nodes[b].Some?
    && nodes[a].value.parent == Some(parent) && nodes[b].value.parent == Some(parent)
  }

  lemma BeforeJoin(a: seq<ScopeId>, b: seq<ScopeId>, y: ScopeId, x: ScopeId)
    requires Before(a, y, x) || Before(b, y, x) || (y in a && x in b)
    ensures Before(a + b, y, x)
  {
    if Before(a, y, x) {
      var i, j :| 0 <= i < j < |a| && a[i] == y && a[j] == x;
      assert (a + b)[i] == y && (a + b)[j] == x;
    } else if Before(b, y, x) {
      var i, j :| 0 <= i < j < |b| && b[i] == y && b[j] == x;
      assert (a + b)[|a| + i] == y && (a + b)[|a| + j] == x;
    } else {
      var i, j :| 0 <= i < |a| && 0 <= j < |b| && a[i] == y && b[j] == x;
      assert (a + b)[i] == y && (a + b)[|a| + j] == x;
    }
  }

  /** Of two siblings the younger leaves first, with all that hangs below it. */
  lemma {:induction false} YoungerFirst(nodes: seq<Option<Node>>, root: ScopeId, a: ScopeId, b: ScopeId, parent: ScopeId, x: ScopeId, y: ScopeId)
    requires Shape(nodes) && root < |nodes| && nodes[root].Some?
    requires Siblings(nodes, a, b, parent) && Under(nodes, parent, root) && Under(nodes, x, a) && Under(nodes, y, b)
    ensures Before(Order(nodes, root), y, x)
    decreases |nodes| - root, 1, 0
  {
    var children := nodes[root].value.children;
    var c := root;
    if parent != root {
      c := UnderSplits(nodes, parent, root);
    } else {
      assert a in children && b in children;
    }
    hide Under, Before, Shape;
    YoungerAmong(nodes, root, children, c, a, b, parent, x, y);
    BeforeJoin(OrderOf(nodes, root, children), [root], y, x);
  }

  lemma LastIsYoungest(nodes: seq<Option<Node>>, root: ScopeId, children: seq<ScopeId>)
    requires Shape(nodes) && root < |nodes| && nodes[root].Some? && children <= nodes[root].value.children && children != []
    ensures var (last, others) := (children[|children| - 1], children[..|children| - 1]);
            && root < last < |nodes| && nodes[last].Some? && others <= nodes[root].value.children
            && (forall x | x in others :: x < last) && (forall x :: x in children <==> x in others || x == last)
            && OrderOf(nodes, root, children) == Order(nodes, last) + OrderOf(nodes, root, others)
  {
    var n := |children| - 1;
    assert children == children[..n] + [children[n]] && children[n] == nodes[root].value.children[n];
    assert forall k | 0 <= k < n :: nodes[root].value.children[k] < children[n];
  }

  lemma {:induction false} YoungerAmong(nodes: seq<Option<Node>>, root: ScopeId, children: seq<ScopeId>, c: ScopeId,
                                        a: ScopeId, b: ScopeId, parent: ScopeId, x: ScopeId, y: ScopeId)
    requires Shape(nodes) && root < |nodes| && nodes[root].Some? && children <= nodes[root].value.children
    requires Siblings(nodes, a, b, parent) && Under(nodes, x, a) && Under(nodes, y, b)
    requires (a in children && b in children) || (c in children && Under(nodes, parent, c))
    ensures Before(OrderOf(nodes, root, children), y, x)
    decreases |nodes| - root, 0, |children|
  {
    var n := |children| - 1;
    var (last, others) := (children[n], children[..n]);
    LastIsYoungest(nodes, root, children);
    hide Before, Distinct, ChildrenFirst, Under, Shape;
    if a in children && b in children && b == last {
      OrderLaws(nodes, last);
      OrderOfLaws(nodes, root, others);
      assert UnderSome(nodes, x, others);
    } else if c == last && Under(nodes, parent, c) {
      YoungerFirst(nodes, last, a, b, parent, x, y);
    } else {
      YoungerAmong(nodes, root, others, c, a, b, parent, x, y);
    }
    BeforeJoin(Order(nodes, last), OrderOf(nodes, root, others), y, x);
  }
}
