/** What every operation on a scope tree keeps. */
module ScopeLaws {
  import opened Basics
  import opened Scopes

  // ---------------------------------------------------------------- filtering

  lemma {:induction false} WithoutHas(stack: seq<Effect>, gone: set<ScopeId>, id: ScopeId)
    ensures Has(Without(stack, gone), id) <==> Has(stack, id) && id !in gone
  {
    if stack != [] {
      var n := |stack| - 1;
      WithoutHas(stack[..n], gone, id);
      var kept := Without(stack[..n], gone);
      assert Has(stack, id) <==> Has(stack[..n], id) || stack[n].scope == id by {
        if Has(stack[..n], id) {
          var i :| 0 <= i < n && stack[..n][i].scope == id;
          assert stack[i].scope == id;
        }
        if Has(stack, id) && stack[n].scope != id {
          var i :| 0 <= i < |stack| && stack[i].scope == id;
          assert stack[..n][i].scope == id;
        }
      }
      if stack[n].scope !in gone {
        HasSnoc(kept, stack[n], id);
      } else {
        assert Without(stack, gone) == kept;
      }
    }
  }

  lemma HasSnoc(stack: seq<Effect>, e: Effect, id: ScopeId)
    ensures Has(stack + [e], id) <==> Has(stack, id) || e.scope == id
  {
    if Has(stack, id) {
      var i :| 0 <= i < |stack| && stack[i].scope == id;
      assert (stack + [e])[i].scope == id;
    }
    if e.scope == id {
      assert (stack + [e])[|stack|].scope == id;
    }
  }

  /** Filtering keeps members, and keeps them in order. */
  lemma {:induction false} WithoutOrdered(stack: seq<Effect>, gone: set<ScopeId>)
    requires forall i, j | 0 <= i < j < |stack| :: stack[i].scope < stack[j].scope
    ensures var kept := Without(stack, gone);
            && (forall i, j | 0 <= i < j < |kept| :: kept[i].scope < kept[j].scope)
            && (forall e | e in kept :: e in stack && e.scope !in gone)
  {
    if stack != [] {
      WithoutOrdered(stack[..|stack| - 1], gone);
    }
  }

  lemma {:induction false} WithoutTwice(stack: seq<Effect>, a: set<ScopeId>, b: set<ScopeId>)
    ensures Without(Without(stack, a), b) == Without(stack, a + b)
  {
    if stack != [] {
      var n := |stack| - 1;
      WithoutTwice(stack[..n], a, b);
      if stack[n].scope !in a {
        var kept := Without(stack[..n], a);
        assert (kept + [stack[n]])[..|kept|] == kept;
      } else {
        assert Without(stack, a) == Without(stack[..n], a);
      }
    }
  }

  lemma {:induction false} WithoutAbsent(stack: seq<Effect>, gone: set<ScopeId>)
    requires forall id | id in gone :: !Has(stack, id)
    ensures Without(stack, gone) == stack
  {
    if stack != [] {
      var n := |stack| - 1;
      assert Has(stack, stack[n].scope);
      assert forall id | id in gone :: !Has(stack[..n], id);
      WithoutAbsent(stack[..n], gone);
      assert stack == stack[..n] + [stack[n]];
    }
  }

  lemma OnlyOnTop(chain: seq<Effect>, id: ScopeId)
    requires chain != [] && !Buried(chain, id)
    ensures !Has(chain[..|chain| - 1], id)
  {
    assert forall k | 0 <= k < |chain| - 1 :: chain[..|chain| - 1][k] == chain[k];
  }

  /** A scope that is not buried in a chain leaves it from the top, or is not in it. */
  lemma {:induction false} WithoutTop(chain: seq<Effect>, id: ScopeId)
    requires !Buried(chain, id)
    ensures Without(chain, {id}) == if chain != [] && chain[|chain| - 1].scope == id then chain[..|chain| - 1] else chain
  {
    if chain != [] {
      var n := |chain| - 1;
      OnlyOnTop(chain, id);
      assert Without(chain, {id}) == Without(chain[..n], {id}) + if chain[n].scope in {id} then [] else [chain[n]];
      hide Buried, Has, Without;
      WithoutAbsent(chain[..n], {id});
      assert chain == chain[..n] + [chain[n]];
    }
  }

  lemma {:induction false} IdsTwice(ids: seq<ScopeId>, a: set<ScopeId>, b: set<ScopeId>)
    ensures WithoutIds(WithoutIds(ids, a), b) == WithoutIds(ids, a + b)
  {
    if ids != [] {
      var n := |ids| - 1;
      IdsTwice(ids[..n], a, b);
      if ids[n] !in a {
        var kept := WithoutIds(ids[..n], a);
        assert (kept + [ids[n]])[..|kept|] == kept;
      } else {
        assert WithoutIds(ids, a) == WithoutIds(ids[..n], a);
      }
    }
  }

  lemma {:induction false} IdsOrdered(ids: seq<ScopeId>, gone: set<ScopeId>)
    requires forall i, j | 0 <= i < j < |ids| :: ids[i] < ids[j]
    ensures var kept := WithoutIds(ids, gone);
            && (forall i, j | 0 <= i < j < |kept| :: kept[i] < kept[j])
            && (forall x :: x in kept <==> x in ids && x !in gone)
  {
    if ids != [] {
      var n := |ids| - 1;
      IdsOrdered(ids[..n], gone);
      var kept := WithoutIds(ids[..n], gone);
      assert ids == ids[..n] + [ids[n]];
      forall k | 0 <= k < |kept| ensures kept[k] < ids[n] {
        assert kept[k] in kept && kept[k] in ids[..n];
      }
    }
  }

  /** Removing in two goes is removing at once. */
  lemma RemovedTwice(t: Tree, a: set<ScopeId>, b: set<ScopeId>)
    ensures Removed(Removed(t, a), b) == Removed(t, a + b)
  {
    forall name | name in t.instances { WithoutTwice(t.instances[name], a, b); }
    forall name | name in t.wrappers { WithoutTwice(t.wrappers[name], a, b); }
    forall i | 0 <= i < |t.nodes|
      ensures NodesWithout(NodesWithout(t.nodes, a), b)[i] == NodesWithout(t.nodes, a + b)[i]
    {
      if t.nodes[i].Some? {
        IdsTwice(t.nodes[i].value.children, a, b);
      }
    }
  }

  lemma RemovedNothing(t: Tree)
    ensures Removed(t, {}) == t
  {
    forall name | name in t.instances { WithoutAbsent(t.instances[name], {}); }
    forall name | name in t.wrappers { WithoutAbsent(t.wrappers[name], {}); }
    forall i | 0 <= i < |t.nodes| ensures NodesWithout(t.nodes, {})[i] == t.nodes[i] {
      if t.nodes[i].Some? {
        IdsNothing(t.nodes[i].value.children);
      }
    }
  }

  lemma {:induction false} IdsNothing(ids: seq<ScopeId>)
    ensures WithoutIds(ids, {}) == ids
  {
    if ids != [] {
      IdsNothing(ids[..|ids| - 1]);
    }
  }

  // ---------------------------------------------------------------- growth keeps the invariant

  /** Every operation but a removal leaves active scopes active, with their names. */
  ghost predicate Keeps(t: Tree, t': Tree) {
    && |t.nodes| <= |t'.nodes|
    && forall id | Active(t, id) :: Active(t', id) && NodeOf(t', id).info == NodeOf(t, id).info
                                    && NodeOf(t, id).disposables <= NodeOf(t', id).disposables
  }

  lemma CollectShape(t: Tree, scope: ScopeId, d: Disposable)
    requires Shape(t.nodes) && Active(t, scope)
    ensures Shape(Collect(t, scope, d).nodes)
  {
    var nodes := Collect(t, scope, d).nodes;
    forall i | 0 <= i < |nodes|
      ensures nodes[i].Some? == t.nodes[i].Some?
      ensures nodes[i].Some? ==> nodes[i].value.children == t.nodes[i].value.children && nodes[i].value.parent == t.nodes[i].value.parent
    {
    }
  }

  /** A new youngest child keeps the shape. */
  lemma NewChildShape(nodes: seq<Option<Node>>, nodes': seq<Option<Node>>, p: ScopeId, child: Node)
    requires Shape(nodes) && p < |nodes| && nodes[p].Some? && child.parent == Some(p) && child.children == []
    requires |nodes'| == |nodes| + 1 && nodes'[|nodes|] == Some(child)
    requires nodes'[p] == Some(nodes[p].value.(children := nodes[p].value.children + [|nodes|]))
    requires forall i | 0 <= i < |nodes| && i != p :: nodes'[i] == nodes[i]
    ensures Shape(nodes')
  {
    var id := |nodes|;
    var kids := nodes[p].value.children;
    forall q, k | 0 <= q < |nodes'| && nodes'[q].Some? && 0 <= k < |nodes'[q].value.children|
      ensures var c := nodes'[q].value.children[k]; q < c < |nodes'| && nodes'[c].Some? && nodes'[c].value.parent == Some(q)
    {
      if q == p && k == |kids| {
        assert nodes'[q].value.children[k] == id;
      } else {
        assert nodes'[q].value.children[k] == nodes[q].value.children[k];
      }
    }
    forall c | 0 <= c < |nodes'| && nodes'[c].Some? && nodes'[c].value.parent.Some?
      ensures var q := nodes'[c].value.parent.value; q < c && nodes'[q].Some? && c in nodes'[q].value.children
    {
      if c == id {
        assert (kids + [id])[|kids|] == id;
      }
    }
  }

  lemma MountShape(t: Tree, parent: Option<ScopeId>, info: MountInfo)
    requires Shape(t.nodes) && (parent.Some? ==> Active(t, parent.value))
    ensures Shape(Mount(t, parent, info).0.nodes)
  {
    var id := |t.nodes|;
    var t1 := t.(nodes := t.nodes + [Some(Node(info, parent, [], []))]);
    var t2 := if parent.Some? then AddChild(t1, parent.value, id) else t1;
    if parent.Some? {
      NewChildShape(t.nodes, t2.nodes, parent.value, Node(info, parent, [], []));
    } else {
      assert Shape(t2.nodes);
    }
    hide Shape;
    CollectShape(t2.(instances := Push(t2.instances, info.name, Effect(id, Base(id)))), id, DropInstance(info.name, id));
  }

  /** What a mount leaves at every place. */
  lemma MountAt(t: Tree, parent: Option<ScopeId>, info: MountInfo)
    requires parent.Some? ==> Active(t, parent.value)
    ensures var t' := Mount(t, parent, info).0;
            && |t'.nodes| == |t.nodes| + 1 && Keeps(t, t') && t'.wrappers == t.wrappers
            && t'.instances == Push(t.instances, info.name, Effect(|t.nodes|, Base(|t.nodes|)))
            && Active(t', |t.nodes|) && NodeOf(t', |t.nodes|).info == info
            && NodeOf(t', |t.nodes|).disposables == [DropInstance(info.name, |t.nodes|)]
            && (forall id | Active(t', id) && id != |t.nodes| :: Active(t, id) && NodeOf(t', id).disposables == NodeOf(t, id).disposables)
  {
  }

  lemma MountKeeps(t: Tree, parent: Option<ScopeId>, info: MountInfo)
    requires Valid(t)
    ensures Valid(Mount(t, parent, info).0)
  {
    if parent.Some? && !Active(t, parent.value) {
    } else {
      MountShape(t, parent, info);
      MountAt(t, parent, info);
      hide Mount;
      var t' := Mount(t, parent, info).0;
      var added := Effect(|t.nodes|, Base(|t.nodes|));
      var stack := Stack(t.instances, info.name);
      forall name, id ensures Has(Stack(t'.instances, name), id) <==> Has(Stack(t.instances, name), id) || (name == info.name && id == |t.nodes|) {
        HasSnoc(stack, added, id);
      }
      MountInstances(t, t', info);
      forall name | name in t'.wrappers ensures Nested(t', name, t'.wrappers[name]) {
        assert Nested(t, name, t.wrappers[name]);
      }
      MountRegistered(t, t', info);
    }
  }

  lemma MountInstances(t: Tree, t': Tree, info: MountInfo)
    requires Instances(t) && Keeps(t, t')
    requires t'.instances == Push(t.instances, info.name, Effect(|t.nodes|, Base(|t.nodes|)))
    requires Active(t', |t.nodes|) && NodeOf(t', |t.nodes|).info == info
    requires forall id | Active(t', id) && id != |t.nodes| :: Active(t, id)
    ensures Instances(t')
  {
    hide EntriesFit, EntriesOrdered, AllMounted, Keeps;
    MountEntries(t, t', info);
    MountCovers(t, t', info);
  }

  lemma MountEntries(t: Tree, t': Tree, info: MountInfo)
    requires EntriesFit(t) && EntriesOrdered(t.instances) && Keeps(t, t')
    requires t'.instances == Push(t.instances, info.name, Effect(|t.nodes|, Base(|t.nodes|)))
    requires Active(t', |t.nodes|) && NodeOf(t', |t.nodes|).info == info
    ensures EntriesFit(t') && EntriesOrdered(t'.instances)
  {
    var added := Effect(|t.nodes|, Base(|t.nodes|));
    forall name, i | name in t'.instances && 0 <= i < |t'.instances[name]|
      ensures var e := t'.instances[name][i]; Active(t', e.scope) && NodeOf(t', e.scope).info.name == name && e.tool == Base(e.scope)
    {
      assert t'.instances[name][i] == added || (name in t.instances && i < |t.instances[name]| && t'.instances[name][i] == t.instances[name][i]);
    }
  }

  lemma MountCovers(t: Tree, t': Tree, info: MountInfo)
    requires AllMounted(t) && Keeps(t, t')
    requires t'.instances == Push(t.instances, info.name, Effect(|t.nodes|, Base(|t.nodes|)))
    requires Active(t', |t.nodes|) && NodeOf(t', |t.nodes|).info == info
    requires forall id | Active(t', id) && id != |t.nodes| :: Active(t, id)
    ensures AllMounted(t')
  {
    var added := Effect(|t.nodes|, Base(|t.nodes|));
    var stack := Stack(t.instances, info.name);
    forall id | Active(t', id) ensures Has(Stack(t'.instances, NodeOf(t', id).info.name), id) {
      HasSnoc(stack, added, id);
      if id != |t.nodes| {
        assert Has(Stack(t.instances, NodeOf(t, id).info.name), id);
      }
    }
  }

  lemma MountRegistered(t: Tree, t': Tree, info: MountInfo)
    requires Valid(t) && Keeps(t, t') && t'.wrappers == t.wrappers
    requires Active(t', |t.nodes|) && NodeOf(t', |t.nodes|).disposables == [DropInstance(info.name, |t.nodes|)]
    requires forall id | Active(t', id) && id != |t.nodes| :: Active(t, id) && NodeOf(t', id).disposables == NodeOf(t, id).disposables
    requires forall name, id :: Has(Stack(t'.instances, name), id) <==> Has(Stack(t.instances, name), id) || (name == info.name && id == |t.nodes|)
    ensures Registered(t')
  {
    forall name, id | Active(t', id) && Has(Stack(t'.instances, name), id)
      ensures DropInstance(name, id) in NodeOf(t', id).disposables
    {
      if id == |t.nodes| && Has(Stack(t.instances, name), id) {
        NotMountedYet(t, name, id);
      }
    }
    forall name, id | Active(t', id) && Has(Stack(t'.wrappers, name), id)
      ensures DropWrap(name, id) in NodeOf(t', id).disposables
    {
      assert Active(t, id) by {
        assert Nested(t, name, t.wrappers[name]);
      }
    }
  }

  lemma NotMountedYet(t: Tree, name: string, id: ScopeId)
    requires Instances(t) && id >= |t.nodes|
    ensures !Has(Stack(t.instances, name), id)
  {
  }

  /** Instances speak of names and stacks of mounted tools, which no registration touches. */
  lemma SameInstances(t: Tree, t': Tree)
    requires Instances(t) && t'.instances == t.instances
    requires forall id | Active(t, id) :: Active(t', id) && NodeOf(t', id).info == NodeOf(t, id).info
    requires forall id | Active(t', id) :: Active(t, id)
    ensures Instances(t')
  {
    forall id | Active(t', id) ensures Has(Stack(t'.instances, NodeOf(t', id).info.name), id) {
      assert Active(t, id);
    }
    hide Has;
  }

  lemma CollectRegistered(t: Tree, scope: ScopeId, what: string)
    requires Registered(t) && Active(t, scope)
    ensures Registered(Collect(t, scope, Inert(what)))
  {
    hide Has, Stack;
    var t' := Collect(t, scope, Inert(what));
    forall id | Active(t', id)
      ensures Active(t, id) && NodeOf(t, id).disposables <= NodeOf(t', id).disposables
      ensures forall k | 0 <= k < |NodeOf(t', id).disposables| :: OwnedBy(NodeOf(t', id).disposables[k], id)
    {
      assert Active(t, id);
      assert forall k | 0 <= k < |NodeOf(t, id).disposables| :: OwnedBy(NodeOf(t, id).disposables[k], id);
    }
  }

  lemma CollectKeeps(t: Tree, scope: ScopeId, what: string)
    requires Valid(t) && Active(t, scope)
    ensures Valid(Collect(t, scope, Inert(what)))
  {
    CollectShape(t, scope, Inert(what));
    var t' := Collect(t, scope, Inert(what));
    assert Keeps(t, t') && Keeps(t', t.(nodes := t'.nodes));
    SameInstances(t, t');
    CollectRegistered(t, scope, what);
    hide Shape, Instances, Registered, Collect;
    forall name | name in t'.wrappers ensures Nested(t', name, t'.wrappers[name]) {
      assert Nested(t, name, t.wrappers[name]);
    }
  }

  lemma WrapRegistered(t: Tree, t': Tree, scope: ScopeId, target: string, e: Effect)
    requires Registered(t) && Active(t, scope) && Active(t', scope) && e.scope == scope && t'.instances == t.instances
    requires t'.wrappers == Push(t.wrappers, target, e)
    requires NodeOf(t', scope).disposables == NodeOf(t, scope).disposables + [DropWrap(target, scope)]
    requires forall id | Active(t', id) :: Active(t, id)
    requires forall id | Active(t', id) && id != scope :: NodeOf(t', id).disposables == NodeOf(t, id).disposables
    ensures Registered(t')
  {
    forall name, id | Active(t', id) && Has(Stack(t'.wrappers, name), id)
      ensures DropWrap(name, id) in NodeOf(t', id).disposables
    {
      HasSnoc(Stack(t.wrappers, target), e, id);
    }
    hide Has;
  }

  lemma WrapShape(t: Tree, scope: ScopeId, target: string)
    requires Shape(t.nodes) && Wrap(t, scope, target).1.Ok?
    ensures Shape(Wrap(t, scope, target).0.nodes)
  {
    var e := Effect(scope, Wrapped(scope, Resolve(t, target).value));
    CollectShape(t.(wrappers := Push(t.wrappers, target, e)), scope, DropWrap(target, scope));
    hide Shape;
  }

  lemma WrapChains(t: Tree, t': Tree, scope: ScopeId, target: string, inner: Tool)
    requires Instances(t) && Chains(t) && Keeps(t, t') && t'.instances == t.instances && Active(t, scope)
    requires Resolve(t, target) == Some(inner) && Stack(t.instances, target) != []
    requires t'.wrappers == Push(t.wrappers, target, Effect(scope, Wrapped(scope, inner)))
    ensures Chains(t')
  {
    WrapNested(t, t', scope, target, inner);
    hide Instances;
    forall name | name in t'.wrappers ensures Nested(t', name, t'.wrappers[name]) {
      if name != target {
        assert Nested(t, name, t.wrappers[name]);
      }
    }
  }

  lemma WrapKeeps(t: Tree, scope: ScopeId, target: string)
    requires Valid(t)
    ensures Valid(Wrap(t, scope, target).0)
  {
    var (t', r) := Wrap(t, scope, target);
    if r.Ok? {
      hide Wrap, Shape, Registered, Instances, Chains;
      var inner := Resolve(t, target).value;
      WrapShape(t, scope, target);
      WrapAt(t, scope, target);
      SameInstances(t, t');
      WrapChains(t, t', scope, target, inner);
      WrapRegistered(t, t', scope, target, Effect(scope, Wrapped(scope, inner)));
    }
  }

  /** What a wrap leaves at every place. */
  lemma WrapAt(t: Tree, scope: ScopeId, target: string)
    requires Wrap(t, scope, target).1.Ok?
    ensures var t' := Wrap(t, scope, target).0;
            && Resolve(t, target).Some? && Active(t, scope) && Stack(t.instances, target) != []
            && Keeps(t, t') && |t'.nodes| == |t.nodes| && t'.instances == t.instances
            && t'.wrappers == Push(t.wrappers, target, Effect(scope, Wrapped(scope, Resolve(t, target).value)))
            && NodeOf(t', scope).disposables == NodeOf(t, scope).disposables + [DropWrap(target, scope)]
            && (forall id | Active(t', id) :: Active(t, id))
            && (forall id | Active(t', id) && id != scope :: NodeOf(t', id).disposables == NodeOf(t, id).disposables)
  {
  }

  lemma NestedOne(t: Tree, name: string, scope: ScopeId, b: ScopeId)
    requires Active(t, scope) && Has(Stack(t.instances, name), b)
    ensures Nested(t, name, [Effect(scope, Wrapped(scope, Base(b)))])
  {
  }

  lemma NestedGrows(t: Tree, t': Tree, name: string, chain: seq<Effect>, scope: ScopeId)
    requires Nested(t, name, chain) && chain != [] && Keeps(t, t') && t'.instances == t.instances && Active(t', scope)
    ensures Nested(t', name, chain + [Effect(scope, Wrapped(scope, chain[|chain| - 1].tool))])
  {
    var layers := chain + [Effect(scope, Wrapped(scope, chain[|chain| - 1].tool))];
    assert forall i | 0 <= i < |chain| :: layers[i] == chain[i];
    var b :| Has(Stack(t.instances, name), b) && chain[0].tool == Wrapped(chain[0].scope, Base(b));
    assert layers[0].tool == Wrapped(layers[0].scope, Base(b));
  }

  lemma WrapNested(t: Tree, t': Tree, scope: ScopeId, target: string, inner: Tool)
    requires Instances(t) && Chains(t) && Keeps(t, t') && t'.instances == t.instances && Active(t, scope)
    requires Resolve(t, target) == Some(inner) && Stack(t.instances, target) != []
    ensures Nested(t', target, Stack(t.wrappers, target) + [Effect(scope, Wrapped(scope, inner))])
  {
    var chain := Stack(t.wrappers, target);
    var layers := chain + [Effect(scope, Wrapped(scope, inner))];
    var stack := Stack(t.instances, target);
    if chain == [] {
      var k := |stack| - 1;
      assert stack[k].tool == Base(stack[k].scope);
      hide Instances, Chains, Nested;
      assert inner == Base(stack[k].scope) && Has(stack, stack[k].scope);
      NestedOne(t', target, scope, stack[k].scope);
      assert layers == [Effect(scope, Wrapped(scope, Base(stack[k].scope)))];
    } else {
      assert Nested(t, target, chain);
      hide Instances, Chains;
      NestedGrows(t, t', target, chain, scope);
    }
  }

  // ---------------------------------------------------------------- resolution is alive

  lemma {:induction false} NestedAlive(t: Tree, name: string, chain: seq<Effect>, i: nat)
    requires Instances(t) && Nested(t, name, chain) && i < |chain|
    ensures Alive(t, chain[i].tool)
  {
    if i > 0 {
      NestedAlive(t, name, chain, i - 1);
    } else {
      var b :| Has(Stack(t.instances, name), b) && chain[0].tool == Wrapped(chain[0].scope, Base(b));
      var k :| 0 <= k < |Stack(t.instances, name)| && Stack(t.instances, name)[k].scope == b;
      assert Active(t, t.instances[name][k].scope);
    }
  }

  /** `resolve` never answers with a tool built over a disposed scope. */
  lemma ResolveIsAlive(t: Tree, name: string)
    requires Valid(t) && Resolve(t, name).Some?
    ensures Alive(t, Resolve(t, name).value)
  {
    var chain := Stack(t.wrappers, name);
    if chain != [] {
      assert Nested(t, name, t.wrappers[name]);
      NestedAlive(t, name, chain, |chain| - 1);
    }
  }
}
