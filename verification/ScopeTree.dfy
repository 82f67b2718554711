/** The scope tree with its fields updated in place, as `ScopeTree` keeps them. */
module ScopeTrees {
  import opened Basics
  import opened Scopes
  import opened ScopeLaws
  import opened ScopeRemoval

  lemma OrderStep(nodes: seq<Option<Node>>, id: ScopeId, i: nat)
    requires Shape(nodes) && id < |nodes| && nodes[id].Some? && i < |nodes[id].value.children|
    ensures var children := nodes[id].value.children;
            && id < children[i] < |nodes| && nodes[children[i]].Some?
            && OrderOf(nodes, id, children[..i + 1]) == Order(nodes, children[i]) + OrderOf(nodes, id, children[..i])
  {
    var children := nodes[id].value.children;
    assert children[..i + 1][..i] == children[..i];
  }

  lemma OrderEnd(nodes: seq<Option<Node>>, id: ScopeId, below: seq<ScopeId>)
    requires Shape(nodes) && id < |nodes| && nodes[id].Some?
    requires below + OrderOf(nodes, id, nodes[id].value.children[..0]) == OrderOf(nodes, id, nodes[id].value.children)
    ensures below + [id] == Order(nodes, id)
  {
    assert below + [] == below;
  }

  /** The refusal names a pin on `id`: a target that it mounted or wraps below the top, and the top layer there. */
  ghost predicate NamesPin(e: ScopeError, id: ScopeId, instances: Stacks, chains: Stacks) {
    && e.Pinned? && e.pinned == id && e.target in chains && PinnedBy(id, instances, chains, e.target)
    && Top(chains[e.target]).Some? && e.blocker == Top(chains[e.target]).value.scope
  }

  /** The first scope of the order that is pinned once those before it have left. */
  ghost predicate NamesFirstPin(e: ScopeError, t: Tree, order: seq<ScopeId>, k: nat)
    requires k < |order|
  {
    && (forall j | 0 <= j < k :: Unpinned(order[j], t.instances, StacksWithout(t.wrappers, AsSet(order[..j]))))
    && NamesPin(e, order[k], t.instances, StacksWithout(t.wrappers, AsSet(order[..k])))
  }

  /** What a refused unmount answers. */
  ghost predicate Refuses(e: ScopeError, t: Tree, root: ScopeId)
    requires Shape(t.nodes)
  {
    if !Active(t, root) then e == Dead(root)
    else exists k: nat | k < |Order(t.nodes, root)| :: NamesFirstPin(e, t, Order(t.nodes, root), k)
  }

  class ScopeTree {
    var nodes: seq<Option<Node>>
    var instances: Stacks
    var wrappers: Stacks
    /** Every inverse that has been run, in order. */
    ghost var ran: seq<Disposable>

    function View(): Tree
      reads this
    {
      Tree(nodes, instances, wrappers)
    }

    constructor ()
      ensures View() == EMPTY && ran == []
    {
      nodes := [];
      instances := map[];
      wrappers := map[];
      ran := [];
    }

    method ResolveName(name: string) returns (r: Option<Tool>)
      ensures r == Resolve(View(), name)
    {
      if name in wrappers && wrappers[name] != [] {
        return Some(wrappers[name][|wrappers[name]| - 1].tool);
      }
      if name in instances && instances[name] != [] {
        return Some(instances[name][|instances[name]| - 1].tool);
      }
      return None;
    }

    method MountInstance(parent: Option<ScopeId>, info: MountInfo) returns (r: Result<ScopeId, ScopeError>)
      modifies this`nodes, this`instances
      ensures (View(), r) == Mount(old(View()), parent, info)
    {
      if parent.Some? && !Active(View(), parent.value) {
        return Err(Dead(parent.value));
      }
      var id := |nodes|;
      nodes := nodes + [Some(Node(info, parent, [], []))];
      if parent.Some? {
        var node := nodes[parent.value].value;
        nodes := nodes[parent.value := Some(node.(children := node.children + [id]))];
      }
      instances := Push(instances, info.name, Effect(id, Base(id)));
      CollectInverse(id, DropInstance(info.name, id));
      return Ok(id);
    }

    method WrapName(scope: ScopeId, target: string) returns (r: Result<(), ScopeError>)
      modifies this`nodes, this`wrappers
      ensures (View(), r) == Wrap(old(View()), scope, target)
    {
      if !Active(View(), scope) {
        return Err(Dead(scope));
      }
      if target !in instances || instances[target] == [] {
        return Err(NoTarget(target));
      }
      var top := instances[target][|instances[target]| - 1];
      if !Active(View(), top.scope) {
        return Err(Dead(top.scope));
      }
      if nodes[scope].value.info.componentSet != nodes[top.scope].value.info.componentSet {
        return Err(CrossSet(nodes[scope].value.info.name, target));
      }
      var inner := ResolveName(target);
      if inner.None? {
        return Err(NoTarget(target));
      }
      wrappers := Push(wrappers, target, Effect(scope, Wrapped(scope, inner.value)));
      CollectInverse(scope, DropWrap(target, scope));
      return Ok(());
    }

    method CollectInverse(scope: ScopeId, d: Disposable)
      requires Active(View(), scope)
      modifies this`nodes
      ensures View() == Collect(old(View()), scope, d)
    {
      var node := nodes[scope].value;
      nodes := nodes[scope := Some(node.(disposables := node.disposables + [d]))];
    }

    /** Filters one stack in place, the way `retain` does. */
    method Retain(stack: seq<Effect>, id: ScopeId) returns (kept: seq<Effect>)
      ensures kept == Without(stack, {id})
    {
      kept := [];
      assert stack[..0] == [];
      for i := 0 to |stack|
        invariant kept == Without(stack[..i], {id})
      {
        assert stack[..i + 1][..i] == stack[..i];
        if stack[i].scope != id {
          kept := kept + [stack[i]];
        }
      }
      assert stack[..|stack|] == stack;
    }

    /** Looks for a pin on `id`. A refusal names a wrapped target or a layer above, never nothing. */
    method CheckUnpinned(id: ScopeId, chains: Stacks) returns (r: Option<ScopeError>)
      ensures r.None? <==> Unpinned(id, instances, chains)
      ensures r.Some? ==> NamesPin(r.value, id, instances, chains)
    {
      var names := chains.Keys;
      while names != {}
        invariant names <= chains.Keys
        invariant forall name | name in chains && name !in names :: !PinnedBy(id, instances, chains, name)
        decreases |names|
      {
        var name :| name in names;
        names := names - {name};
        var chain := chains[name];
        if chain != [] {
          var mounted := Has(Stack(instances, name), id);
          if mounted || Buried(chain, id) {
            return Some(Pinned(id, name, chain[|chain| - 1].scope));
          }
        }
      }
      return None;
    }

    method Run(d: Disposable)
      modifies this`instances, this`wrappers, this`ran
      ensures ran == old(ran) + [d]
      ensures instances == InstancesAfter(old(instances), d) && wrappers == WrappersAfter(old(wrappers), d)
    {
      ran := ran + [d];
      match d
      case DropInstance(name, scope) =>
        if name in instances {
          var kept := Retain(instances[name], scope);
          instances := instances[name := kept];
        }
      case DropWrap(target, scope) =>
        if target in wrappers {
          var kept := Retain(wrappers[target], scope);
          wrappers := wrappers[target := kept];
        }
      case Inert(_) =>
    }

    /** Runs a node's inverses, last registered first. Together they remove exactly that node's effects. */
    method RunAll(id: ScopeId, disposables: seq<Disposable>)
      requires forall k | 0 <= k < |disposables| :: OwnedBy(disposables[k], id)
      requires CoversInstances(instances, id, disposables) && CoversWrappers(wrappers, id, disposables)
      modifies this`instances, this`wrappers, this`ran
      ensures instances == StacksWithout(old(instances), {id}) && wrappers == StacksWithout(old(wrappers), {id})
      ensures ran == old(ran) + Reversed(disposables)
    {
      var rest := disposables;
      while rest != []
        invariant rest <= disposables
        invariant PartlyWithout(old(instances), instances, id) && PartlyWithout(old(wrappers), wrappers, id)
        invariant CoversInstances(instances, id, rest) && CoversWrappers(wrappers, id, rest)
        invariant ran + Reversed(rest) == old(ran) + Reversed(disposables)
        decreases |rest|
      {
        hide CoversInstances, CoversWrappers, PartlyWithout;
        ghost var instances0, wrappers0, ran0 := instances, wrappers, ran;
        var n := |rest| - 1;
        var d := rest[n];
        assert OwnedBy(disposables[n], id);
        Run(d);
        RunClearsInstances(old(instances), instances0, id, rest, d);
        RunClearsWrappers(old(wrappers), wrappers0, id, rest, d);
        assert ran + Reversed(rest[..n]) == ran0 + ([d] + Reversed(rest[..n]));
        rest := rest[..n];
      }
      PartlyDone(old(instances), instances, id);
      PartlyDone(old(wrappers), wrappers, id);
    }

    /** Takes the node, undoes its effects, and unlinks it from its parent. Pins are checked first. */
    method DisposeNode(id: ScopeId) returns (r: Result<Unmounted, ScopeError>)
      requires Registered(View())
      requires Active(View(), id) ==> LinkedByParentOnly(View(), id)
      modifies this
      ensures r.Ok? <==> Unpinned(id, old(instances), old(wrappers)) && Active(old(View()), id)
      ensures r.Ok? ==> r.value == Entry(old(View()), id) && View() == Removed(old(View()), {id})
      ensures r.Ok? ==> ran == old(ran) + Reversed(NodeOf(old(View()), id).disposables)
      ensures r.Err? ==> View() == old(View()) && ran == old(ran)
      ensures r.Err? ==> if Unpinned(id, old(instances), old(wrappers)) then r.error == Dead(id)
                         else NamesPin(r.error, id, old(instances), old(wrappers))
    {
      var pin := CheckUnpinned(id, wrappers);
      if pin.Some? {
        return Err(pin.value);
      }
      if !Active(View(), id) {
        return Err(Dead(id));
      }
      ghost var before := View();
      var node := nodes[id].value;
      nodes := nodes[id := None];
      RunAll(id, node.disposables);
      if node.parent.Some? && Active(View(), node.parent.value) {
        var p := node.parent.value;
        var kept := RetainIds(nodes[p].value.children, id);
        nodes := nodes[p := Some(nodes[p].value.(children := kept))];
      }
      UnlinkedNodes(before, id, nodes);
      return Ok(Unmounted(id, node.info.name, node.info.version, node.info.sha256, node.info.inverse));
    }

    method RetainIds(ids: seq<ScopeId>, id: ScopeId) returns (kept: seq<ScopeId>)
      ensures kept == WithoutIds(ids, {id})
    {
      kept := [];
      assert ids[..0] == [];
      for i := 0 to |ids|
        invariant kept == WithoutIds(ids[..i], {id})
      {
        assert ids[..i + 1][..i] == ids[..i];
        if ids[i] != id {
          kept := kept + [ids[i]];
        }
      }
      assert ids[..|ids|] == ids;
    }

    /** Children first, newest first. */
    method AppendOrder(id: ScopeId) returns (order: seq<ScopeId>)
      requires Shape(nodes) && Active(View(), id)
      ensures order == Order(nodes, id)
      decreases |nodes| - id
    {
      hide Shape, OrderOf, Order;
      var children := nodes[id].value.children;
      order := [];
      var i := |children|;
      assert children[..i] == children;
      while i > 0
        invariant 0 <= i <= |children|
        invariant order + OrderOf(nodes, id, children[..i]) == OrderOf(nodes, id, children)
      {
        i := i - 1;
        OrderStep(nodes, id, i);
        var below := AppendOrder(children[i]);
        assert order + (below + OrderOf(nodes, id, children[..i])) == order + below + OrderOf(nodes, id, children[..i]);
        order := order + below;
      }
      OrderEnd(nodes, id, order);
      order := order + [id];
    }

    /** The planned removal: the pin checks of every step, on a copy of the wrapper chains. */
    method UnmountOrder(root: ScopeId) returns (r: Result<seq<ScopeId>, ScopeError>)
      requires Shape(nodes)
      ensures r.Ok? <==> CanUnmount(View(), root)
      ensures r.Ok? ==> r.value == Order(nodes, root)
      ensures r.Err? ==> Refuses(r.error, View(), root)
    {
      if !Active(View(), root) {
        return Err(Dead(root));
      }
      var order := AppendOrder(root);
      var pin := CheckPlan(order);
      if pin.Some? {
        return Err(pin.value);
      }
      return Ok(order);
    }

    method CheckPlan(order: seq<ScopeId>) returns (r: Option<ScopeError>)
      ensures r.None? <==> Plan(View(), order)
      ensures r.Some? ==> exists k: nat | k < |order| :: NamesFirstPin(r.value, View(), order, k)
    {
      hide Unpinned, StacksWithout, AsSet, NamesPin;
      ghost var t := View();
      var chains := wrappers;
      PlanStart(t, order);
      for k := 0 to |order|
        invariant chains == StacksWithout(t.wrappers, AsSet(order[..k]))
        invariant forall j | 0 <= j < k :: Unpinned(order[j], t.instances, StacksWithout(t.wrappers, AsSet(order[..j])))
      {
        var pin := CheckUnpinned(order[k], chains);
        if pin.Some? {
          assert NamesFirstPin(pin.value, t, order, k);
          return pin;
        }
        PlanNext(t, order, k);
        chains := RetainAll(chains, order[k]);
      }
      return None;
    }

    method RetainAll(chains: Stacks, id: ScopeId) returns (r: Stacks)
      ensures r == StacksWithout(chains, {id})
    {
      r := map[];
      var names := chains.Keys;
      while names != {}
        invariant names <= chains.Keys && r.Keys == chains.Keys - names
        invariant forall name | name in r :: r[name] == Without(chains[name], {id})
        decreases |names|
      {
        var name :| name in names;
        names := names - {name};
        var kept := Retain(chains[name], id);
        r := r[name := kept];
      }
    }

    /**
     A cascade that goes through filters the tree to the scopes outside the subtree, reports
     exactly that subtree, children first, and runs each of its inverses once. A refused one
     changes nothing.
     */
    method UnmountCascade(root: ScopeId) returns (r: Result<seq<Unmounted>, ScopeError>)
      requires Valid(View())
      modifies this
      ensures r.Ok? <==> CanUnmount(old(View()), root)
      ensures View() == Unmount(old(View()), root) && Valid(View())
      ensures r.Ok? ==> r.value == Report(old(View()), Order(old(nodes), root))
      ensures r.Ok? ==> ran == old(ran) + Inverses(old(View()), Order(old(nodes), root))
      ensures r.Err? ==> ran == old(ran) && Refuses(r.error, old(View()), root)
    {
      ghost var before := View();
      UnmountLaws(before, root);
      var planned := UnmountOrder(root);
      if planned.Err? {
        return Err(planned.error);
      }
      var report := DisposeAll(root, planned.value);
      return Ok(report);
    }

    /** The effects of a planned cascade. None of its steps can fail any more. */
    method DisposeAll(ghost root: ScopeId, order: seq<ScopeId>) returns (report: seq<Unmounted>)
      requires Valid(View()) && CanUnmount(View(), root) && order == Order(nodes, root)
      modifies this
      ensures View() == Removed(old(View()), AsSet(order))
      ensures report == Report(old(View()), order)
      ensures ran == old(ran) + Inverses(old(View()), order)
    {
      hide Order, Removed, Report, Inverses, AsSet, Instances, Chains, Registered, Unpinned, LinkedByParentOnly, Entry, Reversed;
      ghost var before := View();
      report := [];
      CascadeStart(before, order);
      ghost var ran0 := ran;
      for k := 0 to |order|
        invariant View() == Removed(before, AsSet(order[..k]))
        invariant report == Report(before, order[..k])
        invariant ran == ran0 + Inverses(before, order[..k])
      {
        CascadeReady(before, root, k);
        var gone := DisposeNode(order[k]);
        match gone {
          case Err(_) => assert false;
          case Ok(entry) =>
            CascadeNext(before, root, k, entry);
            report := report + [entry];
        }
      }
      assert order[..|order|] == order;
    }

    method UpdateInPlace(id: ScopeId, info: MountInfo) returns (r: Result<(ScopeId, seq<Unmounted>), ScopeError>)
      requires Valid(View())
      modifies this
      ensures r.Ok? <==> CanUnmount(old(View()), id)
      ensures View() == Update(old(View()), id, info)
      ensures r.Ok? ==> r.value == (|old(nodes)|, Report(old(View()), Order(old(nodes), id)))
      ensures r.Err? ==> Refuses(r.error, old(View()), id)
    {
      if !Active(View(), id) {
        return Err(Dead(id));
      }
      ghost var before := View();
      var parent := nodes[id].value.parent;
      var renamed := info.(name := nodes[id].value.info.name);
      var report := UnmountCascade(id);
      if report.Err? {
        return Err(report.error);
      }
      UpdateMounts(before, id, info);
      var mounted := MountInstance(parent, renamed);
      return Ok((mounted.value, report.value));
    }
  }

  // ---------------------------------------------------------------- running inverses

  function InstancesAfter(s: Stacks, d: Disposable): Stacks {
    if d.DropInstance? && d.name in s then s[d.name := Without(s[d.name], {d.scope})] else s
  }

  function WrappersAfter(s: Stacks, d: Disposable): Stacks {
    if d.DropWrap? && d.target in s then s[d.target := Without(s[d.target], {d.scope})] else s
  }

  function Reversed(ds: seq<Disposable>): seq<Disposable> {
    if ds == [] then [] else [ds[|ds| - 1]] + Reversed(ds[..|ds| - 1])
  }

  ghost predicate CoversInstances(s: Stacks, id: ScopeId, ds: seq<Disposable>) {
    forall name | Has(Stack(s, name), id) :: DropInstance(name, id) in ds
  }

  ghost predicate CoversWrappers(s: Stacks, id: ScopeId, ds: seq<Disposable>) {
    forall name | Has(Stack(s, name), id) :: DropWrap(name, id) in ds
  }

  /** Each stack is as before, or as before without `id`. */
  ghost predicate PartlyWithout(before: Stacks, now: Stacks, id: ScopeId) {
    now.Keys == before.Keys
    && forall name | name in before :: now[name] == before[name] || now[name] == Without(before[name], {id})
  }

  lemma PartlyDone(before: Stacks, now: Stacks, id: ScopeId)
    requires PartlyWithout(before, now, id)
    requires CoversInstances(now, id, []) || CoversWrappers(now, id, [])
    ensures now == StacksWithout(before, {id})
  {
    forall name | name in before ensures now[name] == Without(before[name], {id}) {
      assert !Has(Stack(now, name), id);
      if now[name] == before[name] {
        WithoutAbsent(before[name], {id});
      }
    }
  }

  lemma ClearedOnce(before: Stacks, s: Stacks, s': Stacks, id: ScopeId, name: string)
    requires PartlyWithout(before, s, id) && name in s && s' == s[name := Without(s[name], {id})]
    ensures PartlyWithout(before, s', id) && !Has(Stack(s', name), id)
  {
    WithoutTwice(before[name], {id}, {id});
    assert {id} + {id} == {id};
    WithoutHas(s[name], {id}, id);
  }

  lemma RunClearsInstances(before: Stacks, s: Stacks, id: ScopeId, rest: seq<Disposable>, d: Disposable)
    requires rest != [] && d == rest[|rest| - 1] && OwnedBy(d, id)
    requires PartlyWithout(before, s, id) && CoversInstances(s, id, rest)
    ensures PartlyWithout(before, InstancesAfter(s, d), id) && CoversInstances(InstancesAfter(s, d), id, rest[..|rest| - 1])
  {
    assert rest == rest[..|rest| - 1] + [d];
    if d.DropInstance? && d.name in s {
      ClearedOnce(before, s, InstancesAfter(s, d), id, d.name);
    }
  }

  lemma RunClearsWrappers(before: Stacks, s: Stacks, id: ScopeId, rest: seq<Disposable>, d: Disposable)
    requires rest != [] && d == rest[|rest| - 1] && OwnedBy(d, id)
    requires PartlyWithout(before, s, id) && CoversWrappers(s, id, rest)
    ensures PartlyWithout(before, WrappersAfter(s, d), id) && CoversWrappers(WrappersAfter(s, d), id, rest[..|rest| - 1])
  {
    assert rest == rest[..|rest| - 1] + [d];
    if d.DropWrap? && d.target in s {
      ClearedOnce(before, s, WrappersAfter(s, d), id, d.target);
    }
  }

  lemma UnlinkedNodes(before: Tree, id: ScopeId, nodes: seq<Option<Node>>)
    requires Active(before, id)
    requires LinkedByParentOnly(before, id)
    requires |nodes| == |before.nodes|
    requires forall i | 0 <= i < |nodes| :: nodes[i] ==
               if i == id then None
               else if before.nodes[i].Some? && Some(i) == NodeOf(before, id).parent then Some(NodeWithout(before.nodes[i].value, {id}))
               else before.nodes[i]
    ensures nodes == NodesWithout(before.nodes, {id})
  {
    forall i | 0 <= i < |nodes| ensures nodes[i] == NodesWithout(before.nodes, {id})[i] {
      if i != id && before.nodes[i].Some? && Some(i) != NodeOf(before, id).parent {
        IdsAbsent(before.nodes[i].value.children, id);
      }
    }
  }

  lemma {:induction false} IdsAbsent(ids: seq<ScopeId>, id: ScopeId)
    requires id !in ids
    ensures WithoutIds(ids, {id}) == ids
  {
    if ids != [] {
      IdsAbsent(ids[..|ids| - 1], id);
    }
  }

  // ---------------------------------------------------------------- the cascade's accounts

  function Report(t: Tree, order: seq<ScopeId>): seq<Unmounted> {
    if order == [] then []
    else
      var n := |order| - 1;
      Report(t, order[..n]) + if Active(t, order[n]) then [Entry(t, order[n])] else []
  }

  function Inverses(t: Tree, order: seq<ScopeId>): seq<Disposable> {
    if order == [] then []
    else
      var n := |order| - 1;
      Inverses(t, order[..n]) + if Active(t, order[n]) then Reversed(NodeOf(t, order[n]).disposables) else []
  }

  lemma PlanStart(t: Tree, order: seq<ScopeId>)
    ensures StacksWithout(t.wrappers, AsSet(order[..0])) == t.wrappers
  {
    NoneGone(order);
    RemovedNothing(t);
  }

  lemma PlanNext(t: Tree, order: seq<ScopeId>, k: nat)
    requires k < |order|
    ensures StacksWithout(StacksWithout(t.wrappers, AsSet(order[..k])), {order[k]}) == StacksWithout(t.wrappers, AsSet(order[..k + 1]))
  {
    AsSetSnoc(order, k);
    RemovedTwice(t, AsSet(order[..k]), {order[k]});
  }

  lemma CascadeStart(t: Tree, order: seq<ScopeId>)
    ensures Removed(t, AsSet(order[..0])) == t && Report(t, order[..0]) == [] && Inverses(t, order[..0]) == []
  {
    NoneGone(order);
    RemovedNothing(t);
  }

  /** Before each step the next scope can be disposed of, so no step after the plan fails. */
  lemma CascadeReady(t: Tree, root: ScopeId, k: nat)
    requires Valid(t) && CanUnmount(t, root) && k < |Order(t.nodes, root)|
    ensures var order := Order(t.nodes, root);
            var t' := Removed(t, AsSet(order[..k]));
            && Registered(t') && Active(t', order[k]) && Unpinned(order[k], t'.instances, t'.wrappers)
            && LinkedByParentOnly(t', order[k])
  {
    var order := Order(t.nodes, root);
    OrderLaws(t.nodes, root);
    assert Unpinned(order[k], t.instances, StacksWithout(t.wrappers, AsSet(order[..k])));
    hide Order, Removed, Unpinned, StacksWithout, AsSet, Instances, Chains, Registered;
    CascadeKeeps(t, root, k);
    NextIsLeaf(t, root, k);
    UnpinnedAfter(t, order, k);
    LinksOf(Removed(t, AsSet(order[..k])), order[k]);
  }

  /** Only its parent lists a scope among its children. */
  ghost predicate LinkedByParentOnly(t: Tree, id: ScopeId)
    requires Active(t, id)
  {
    forall p: ScopeId | Active(t, p) && Some(p) != NodeOf(t, id).parent :: id !in NodeOf(t, p).children
  }

  lemma LinksOf(t: Tree, id: ScopeId)
    requires Shape(t.nodes) && Active(t, id)
    ensures LinkedByParentOnly(t, id)
  {
  }

  lemma CascadeNext(t: Tree, root: ScopeId, k: nat, entry: Unmounted)
    requires Shape(t.nodes) && Active(t, root) && k < |Order(t.nodes, root)|
    requires var order := Order(t.nodes, root);
             var t' := Removed(t, AsSet(order[..k]));
             Active(t', order[k]) && entry == Entry(t', order[k])
    ensures var order := Order(t.nodes, root);
            var t' := Removed(t, AsSet(order[..k]));
            && Removed(t', {order[k]}) == Removed(t, AsSet(order[..k + 1]))
            && Report(t, order[..k + 1]) == Report(t, order[..k]) + [entry]
            && Inverses(t, order[..k + 1]) == Inverses(t, order[..k]) + Reversed(NodeOf(t', order[k]).disposables)
  {
    var order := Order(t.nodes, root);
    var gone := AsSet(order[..k]);
    RemovedAt(t, gone, order[k]);
    RemovedTwice(t, gone, {order[k]});
    AsSetSnoc(order, k);
    assert order[..k + 1][..k] == order[..k];
  }

  /** The report of a cascade: each scope of the subtree once, and nothing after what it hangs below. */
  lemma ReportIsSubtree(t: Tree, root: ScopeId)
    requires Shape(t.nodes) && Active(t, root)
    ensures var report := Report(t, Order(t.nodes, root));
            && (forall id :: Under(t.nodes, id, root) <==> exists i :: 0 <= i < |report| && report[i].scope == id)
            && (forall i, j | 0 <= i < j < |report| ::
                  report[i].scope != report[j].scope && !Under(t.nodes, report[j].scope, report[i].scope))
  {
    var order := Order(t.nodes, root);
    OrderLaws(t.nodes, root);
    forall k | 0 <= k < |order| ensures Active(t, order[k]) {
      assert order[k] in order;
    }
    ReportAt(t, order);
    var report := Report(t, order);
    forall id | Under(t.nodes, id, root) ensures exists i :: 0 <= i < |report| && report[i].scope == id {
      var i :| 0 <= i < |order| && order[i] == id;
      assert report[i].scope == id;
    }
    forall i | 0 <= i < |report| ensures Under(t.nodes, report[i].scope, root) {
      assert order[i] in order;
    }
  }

  lemma {:induction false} ReportAt(t: Tree, order: seq<ScopeId>)
    requires forall k | 0 <= k < |order| :: Active(t, order[k])
    ensures |Report(t, order)| == |order|
    ensures forall k | 0 <= k < |order| :: Report(t, order)[k] == Entry(t, order[k])
  {
    if order != [] {
      ReportAt(t, order[..|order| - 1]);
    }
  }
}
