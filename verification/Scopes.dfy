/**
 The scope tree as a value: mounted instances, wrapper chains, and the inverse of every
 effect, recorded as data next to it.
 */
module Scopes {
  import opened Basics

  type ScopeId = nat

  /** A tool is an instance of one scope, or one scope's decorator over another tool. */
  datatype Tool = Base(scope: ScopeId) | Wrapped(scope: ScopeId, inner: Tool)

  datatype Effect = Effect(scope: ScopeId, tool: Tool)

  type Stacks = map<string, seq<Effect>>

  datatype MountInfo = MountInfo(name: string, version: string, sha256: string, inverse: string, componentSet: string)

  datatype Disposable = DropInstance(name: string, scope: ScopeId) | DropWrap(target: string, scope: ScopeId) | Inert(what: string)

  datatype Node = Node(info: MountInfo, parent: Option<ScopeId>, children: seq<ScopeId>, disposables: seq<Disposable>)

  datatype Tree = Tree(nodes: seq<Option<Node>>, instances: Stacks, wrappers: Stacks)

  const EMPTY := Tree([], map[], map[])

  datatype ScopeError =
    | Dead(scope: ScopeId)
    | Pinned(pinned: ScopeId, target: string, blocker: ScopeId)
    | NoTarget(name: string)
    | CrossSet(wrapper: string, into: string)

  predicate Active(t: Tree, id: ScopeId) {
    id < |t.nodes| && t.nodes[id].Some?
  }

  function NodeOf(t: Tree, id: ScopeId): Node
    requires Active(t, id)
  {
    t.nodes[id].value
  }

  function Stack(s: Stacks, name: string): seq<Effect> {
    if name in s then s[name] else []
  }

  function Top(stack: seq<Effect>): Option<Effect> {
    if stack == [] then None else Some(stack[|stack| - 1])
  }

  function Resolve(t: Tree, name: string): Option<Tool> {
    match Top(Stack(t.wrappers, name))
    case Some(e) => Some(e.tool)
    case None =>
      match Top(Stack(t.instances, name))
      case Some(e) => Some(e.tool)
      case None => None
  }

  // ---------------------------------------------------------------- effects

  function Collect(t: Tree, scope: ScopeId, d: Disposable): Tree
    requires Active(t, scope)
  {
    var node := NodeOf(t, scope);
    t.(nodes := t.nodes[scope := Some(node.(disposables := node.disposables + [d]))])
  }

  function AddChild(t: Tree, parent: ScopeId, id: ScopeId): Tree
    requires Active(t, parent)
  {
    var node := NodeOf(t, parent);
    t.(nodes := t.nodes[parent := Some(node.(children := node.children + [id]))])
  }

  function Push(s: Stacks, name: string, e: Effect): Stacks {
    s[name := Stack(s, name) + [e]]
  }

  function Mount(t: Tree, parent: Option<ScopeId>, info: MountInfo): (Tree, Result<ScopeId, ScopeError>) {
    if parent.Some? && !Active(t, parent.value) then (t, Err(Dead(parent.value)))
    else
      var id := |t.nodes|;
      var t1 := t.(nodes := t.nodes + [Some(Node(info, parent, [], []))]);
      var t2 := if parent.Some? then AddChild(t1, parent.value, id) else t1;
      var t3 := t2.(instances := Push(t2.instances, info.name, Effect(id, Base(id))));
      (Collect(t3, id, DropInstance(info.name, id)), Ok(id))
  }

  function Wrap(t: Tree, scope: ScopeId, target: string): (Tree, Result<(), ScopeError>) {
    if !Active(t, scope) then (t, Err(Dead(scope)))
    else
      match Top(Stack(t.instances, target))
      case None => (t, Err(NoTarget(target)))
      case Some(top) =>
        if !Active(t, top.scope) then (t, Err(Dead(top.scope)))
        else if NodeOf(t, scope).info.componentSet != NodeOf(t, top.scope).info.componentSet then
          (t, Err(CrossSet(NodeOf(t, scope).info.name, target)))
        else
          match Resolve(t, target)
          case None => (t, Err(NoTarget(target)))
          case Some(inner) =>
            (Collect(t.(wrappers := Push(t.wrappers, target, Effect(scope, Wrapped(scope, inner)))), scope, DropWrap(target, scope)), Ok(()))
  }

  // ---------------------------------------------------------------- removal, declaratively

  function Without(stack: seq<Effect>, gone: set<ScopeId>): seq<Effect> {
    if stack == [] then []
    else Without(stack[..|stack| - 1], gone) + if stack[|stack| - 1].scope in gone then [] else [stack[|stack| - 1]]
  }

  function WithoutIds(ids: seq<ScopeId>, gone: set<ScopeId>): seq<ScopeId> {
    if ids == [] then []
    else WithoutIds(ids[..|ids| - 1], gone) + if ids[|ids| - 1] in gone then [] else [ids[|ids| - 1]]
  }

  function StacksWithout(s: Stacks, gone: set<ScopeId>): Stacks {
    map name | name in s :: Without(s[name], gone)
  }

  function NodeWithout(node: Node, gone: set<ScopeId>): Node {
    node.(children := WithoutIds(node.children, gone))
  }

  function NodesWithout(nodes: seq<Option<Node>>, gone: set<ScopeId>): seq<Option<Node>> {
    seq(|nodes|, i requires 0 <= i < |nodes| =>
      if i in gone || nodes[i].None? then None else Some(NodeWithout(nodes[i].value, gone)))
  }

  /** The tree with every trace of the scopes in `gone` filtered out. */
  function Removed(t: Tree, gone: set<ScopeId>): Tree {
    Tree(NodesWithout(t.nodes, gone), StacksWithout(t.instances, gone), StacksWithout(t.wrappers, gone))
  }

  predicate Has(stack: seq<Effect>, id: ScopeId) {
    exists i | 0 <= i < |stack| :: stack[i].scope == id
  }

  /** `id` is below the top of `chain`, at its first occurrence. */
  predicate Buried(chain: seq<Effect>, id: ScopeId) {
    exists i | 0 <= i < |chain| - 1 :: chain[i].scope == id
  }

  /** The pin a name holds on `id`: it mounted the wrapped name, or wraps it below the top. */
  predicate PinnedBy(id: ScopeId, instances: Stacks, wrappers: Stacks, name: string)
    requires name in wrappers
  {
    wrappers[name] != [] && (Has(Stack(instances, name), id) || Buried(wrappers[name], id))
  }

  predicate Unpinned(id: ScopeId, instances: Stacks, wrappers: Stacks) {
    forall name | name in wrappers :: !PinnedBy(id, instances, wrappers, name)
  }

  // ---------------------------------------------------------------- the order of a cascade

  /** Parents are older than their children, and the two kinds of link agree. */
  ghost predicate Shape(nodes: seq<Option<Node>>) {
    && (forall p, k | 0 <= p < |nodes| && nodes[p].Some? && 0 <= k < |nodes[p].value.children| ::
          var c := nodes[p].value.children[k]; p < c < |nodes| && nodes[c].Some? && nodes[c].value.parent == Some(p))
    && (forall p, j, k | 0 <= p < |nodes| && nodes[p].Some? && 0 <= j < k < |nodes[p].value.children| ::
          nodes[p].value.children[j] < nodes[p].value.children[k])
    && (forall c | 0 <= c < |nodes| && nodes[c].Some? && nodes[c].value.parent.Some? ::
          var p := nodes[c].value.parent.value; p < c && nodes[p].Some? && c in nodes[p].value.children)
  }

  /** Children first, newest first: the order in which a cascade disposes of a subtree. */
  ghost function Order(nodes: seq<Option<Node>>, id: ScopeId): seq<ScopeId>
    requires Shape(nodes) && id < |nodes| && nodes[id].Some?
    decreases |nodes| - id, 1, 0
  {
    OrderOf(nodes, id, nodes[id].value.children) + [id]
  }

  ghost function OrderOf(nodes: seq<Option<Node>>, id: ScopeId, children: seq<ScopeId>): seq<ScopeId>
    requires Shape(nodes) && id < |nodes| && nodes[id].Some? && children <= nodes[id].value.children
    decreases |nodes| - id, 0, |children|
  {
    if children == [] then []
    else
      var last := children[|children| - 1];
      Order(nodes, last) + OrderOf(nodes, id, children[..|children| - 1])
  }

  function AsSet(ids: seq<ScopeId>): set<ScopeId> {
    set x | x in ids
  }

  /** The whole removal, planned on the wrapper topology before anything is removed. */
  ghost predicate Plan(t: Tree, order: seq<ScopeId>) {
    forall k | 0 <= k < |order| :: Unpinned(order[k], t.instances, StacksWithout(t.wrappers, AsSet(order[..k])))
  }

  ghost predicate CanUnmount(t: Tree, id: ScopeId)
    requires Shape(t.nodes)
  {
    Active(t, id) && Plan(t, Order(t.nodes, id))
  }

  ghost function Unmount(t: Tree, id: ScopeId): Tree
    requires Shape(t.nodes)
  {
    if CanUnmount(t, id) then Removed(t, AsSet(Order(t.nodes, id))) else t
  }

  datatype Unmounted = Unmounted(scope: ScopeId, name: string, version: string, sha256: string, inverse: string)

  function Entry(t: Tree, id: ScopeId): Unmounted
    requires Active(t, id)
  {
    var info := NodeOf(t, id).info;
    Unmounted(id, info.name, info.version, info.sha256, info.inverse)
  }

  // ---------------------------------------------------------------- the invariant

  /** Who an effect belongs to. */
  predicate OwnedBy(d: Disposable, id: ScopeId) {
    d.Inert? || d.scope == id
  }

  /** Instances of a name: one per mounted scope of that name, oldest first. */
  ghost predicate Instances(t: Tree) {
    EntriesFit(t) && EntriesOrdered(t.instances) && AllMounted(t)
  }

  ghost predicate EntriesFit(t: Tree) {
    forall name, i | name in t.instances && 0 <= i < |t.instances[name]| ::
      var e := t.instances[name][i];
      Active(t, e.scope) && NodeOf(t, e.scope).info.name == name && e.tool == Base(e.scope)
  }

  ghost predicate EntriesOrdered(instances: Stacks) {
    forall name, i, j | name in instances && 0 <= i < j < |instances[name]| :: instances[name][i].scope < instances[name][j].scope
  }

  ghost predicate AllMounted(t: Tree) {
    forall id | Active(t, id) :: Has(Stack(t.instances, NodeOf(t, id).info.name), id)
  }

  /** Layer `i` is its scope's decorator over layer `i - 1`; the bottom one over a mounted instance. */
  ghost predicate Nested(t: Tree, name: string, chain: seq<Effect>) {
    && (forall i | 0 <= i < |chain| :: Active(t, chain[i].scope))
    && (forall i | 0 < i < |chain| :: chain[i].tool == Wrapped(chain[i].scope, chain[i - 1].tool))
    && (chain != [] ==> exists b :: Has(Stack(t.instances, name), b) && chain[0].tool == Wrapped(chain[0].scope, Base(b)))
  }

  ghost predicate Chains(t: Tree) {
    forall name | name in t.wrappers :: Nested(t, name, t.wrappers[name])
  }

  /** Every effect has its inverse registered on its own scope, and scopes hold no others. */
  ghost predicate Registered(t: Tree) {
    && (forall id, k | Active(t, id) && 0 <= k < |NodeOf(t, id).disposables| :: OwnedBy(NodeOf(t, id).disposables[k], id))
    && (forall name, id | Active(t, id) && Has(Stack(t.instances, name), id) :: DropInstance(name, id) in NodeOf(t, id).disposables)
    && (forall name, id | Active(t, id) && Has(Stack(t.wrappers, name), id) :: DropWrap(name, id) in NodeOf(t, id).disposables)
  }

  ghost predicate Valid(t: Tree) {
    Shape(t.nodes) && Instances(t) && Chains(t) && Registered(t)
  }

  /** No scope a tool is built over has been disposed of. */
  predicate Alive(t: Tree, tool: Tool) {
    Active(t, tool.scope) && (tool.Wrapped? ==> Alive(t, tool.inner))
  }
}
