/** The supervision ledger as a value: live instances, their bindings, and pending reviews. */
module Ledgers {
  import opened Basics
  import opened Chains
  import opened Semantics

  type Uuid = nat

  /** One live engagement of a principal. */
  datatype InstanceRef = InstanceRef(principal: Uuid, incarnation: Uuid)

  datatype ReviewScope = ReviewScope(child: InstanceRef, supervisor: Option<InstanceRef>, mount: Option<Uuid>,
                                     childEpoch: nat, supervisorEpoch: Option<nat>)

  datatype ReviewCause = HighRisk(reason: string) | PermissionDenied(reason: string) | DependencyChanged(evidence: string)

  datatype ReviewRequest = ReviewRequest(id: string, child: Uuid, supervisor: Option<Uuid>, subject: string,
                                         attempt: Attempt, cause: ReviewCause, tapeId: string, scope: Option<ReviewScope>)

  datatype Resolution = Consult | Retry | Reject | ApproveOnce

  datatype CallBinding = CallBinding(operation: string, input: string)

  datatype PendingReview = PendingReview(request: ReviewRequest, call: Option<CallBinding>, approverCard: Option<string>)

  datatype Live = Live(instance: InstanceRef, epoch: nat)

  datatype Ledger = Ledger(instances: map<Uuid, Live>, mounts: set<Uuid>, supervisors: map<InstanceRef, InstanceRef>,
                           pending: map<string, PendingReview>, seen: set<string>)

  const EMPTY := Ledger(map[], {}, map[], map[], {})
  const MAX_EPOCH: nat := 0xFFFF_FFFF_FFFF_FFFF

  /** `Panic` stands for the index that `scope` takes without a check. */
  datatype ReviewError = Binding | Inactive | Missing | Authority | Stale | Ceiling | Panic

  // ---------------------------------------------------------------- scopes

  function InstanceOf(l: Ledger, p: Uuid): Result<InstanceRef, ReviewError> {
    if p in l.instances then Ok(l.instances[p].instance) else Err(Inactive)
  }

  function SupervisorOf(l: Ledger, i: InstanceRef): Option<InstanceRef> {
    if i in l.supervisors then Some(l.supervisors[i]) else None
  }

  function Scope(l: Ledger, child: Uuid, mount: Option<Uuid>): Result<ReviewScope, ReviewError> {
    if child !in l.instances then Err(Inactive)
    else if mount.Some? && mount.value !in l.mounts then Err(Stale)
    else
      var Live(instance, epoch) := l.instances[child];
      match SupervisorOf(l, instance)
      case None => Ok(ReviewScope(instance, None, mount, epoch, None))
      case Some(s) =>
        if s.principal !in l.instances then Err(Panic)
        else Ok(ReviewScope(instance, Some(s), mount, epoch, Some(l.instances[s.principal].epoch)))
  }

  predicate Current(l: Ledger, s: ReviewScope) {
    Scope(l, s.child.principal, s.mount) == Ok(s)
  }

  // ---------------------------------------------------------------- the supervisor relation

  predicate HasPending(l: Ledger, child: Uuid) {
    exists id | id in l.pending :: l.pending[id].request.child == child
  }

  ghost function CheckBinding(l: Ledger, child: Uuid, supervisor: Uuid): Option<ReviewError> {
    if child !in l.instances || supervisor !in l.instances then Some(Inactive)
    else if HasPending(l, l.instances[child].instance.principal) then Some(Binding)
    else if Above(l.supervisors, l.instances[supervisor].instance, l.instances[child].instance) then Some(Binding)
    else None
  }

  ghost function Bind(l: Ledger, child: Uuid, supervisor: Uuid): (Ledger, Option<ReviewError>) {
    match CheckBinding(l, child, supervisor)
    case Some(e) => (l, Some(e))
    case None => (l.(supervisors := l.supervisors[l.instances[child].instance := l.instances[supervisor].instance]), None)
  }

  // ---------------------------------------------------------------- reviews

  predicate Waits(p: PendingReview, scope: ReviewScope, subject: string, call: bool) {
    p.request.scope == Some(scope) && p.request.subject == subject && p.call.Some? == call
  }

  predicate SomeoneWaits(l: Ledger, scope: ReviewScope, subject: string, call: bool) {
    exists id | id in l.pending :: Waits(l.pending[id], scope, subject, call)
  }

  function Insert(l: Ledger, request: ReviewRequest, call: Option<CallBinding>): (Ledger, Option<ReviewError>) {
    match request.scope
    case None => (l, Some(Stale))
    case Some(scope) =>
      if !Current(l, scope)
         || scope.child.principal != request.child
         || scope.supervisor.None?
         || request.supervisor != Some(scope.supervisor.value.principal)
      then (l, Some(Stale))
      else if request.id in l.seen || SomeoneWaits(l, scope, request.subject, call.Some?) then (l, Some(Binding))
      else (l.(seen := l.seen + {request.id}, pending := l.pending[request.id := PendingReview(request, call, None)]), None)
  }

  function CheckResolution(l: Ledger, supervisor: Uuid, id: string, r: Resolution): Option<ReviewError> {
    if id !in l.pending then Some(Missing)
    else
      var p := l.pending[id];
      match p.request.scope
      case None => Some(Stale)
      case Some(scope) =>
        if !Current(l, scope) then Some(Stale)
        else if supervisor !in l.instances then Some(Inactive)
        else if scope.supervisor != Some(l.instances[supervisor].instance) then Some(Authority)
        else if r == ApproveOnce && p.approverCard.Some? then Some(Authority)
        else if r == ApproveOnce && (p.call.None? || !p.request.cause.HighRisk?) then Some(Ceiling)
        else None
  }

  function Resolve(l: Ledger, supervisor: Uuid, id: string, r: Resolution, card: string): (Ledger, Option<ReviewError>) {
    match CheckResolution(l, supervisor, id, r)
    case Some(e) => (l, Some(e))
    case None =>
      match r
      case ApproveOnce => (l.(pending := l.pending[id := l.pending[id].(approverCard := Some(card))]), None)
      case Consult => (l.(pending := l.pending[id := l.pending[id].(approverCard := None)]), None)
      case _ => (Close(l, id), None)
  }

  function CheckCall(l: Ledger, id: string, call: CallBinding, facts: seq<FactRef>, card: string): Result<bool, ReviewError> {
    if id !in l.pending then Err(Missing)
    else
      var p := l.pending[id];
      match p.request.scope
      case None => Err(Stale)
      case Some(scope) =>
        if !Current(l, scope) || p.call != Some(call) || p.request.attempt.facts != facts then Err(Stale)
        else if p.approverCard.Some? && p.approverCard.value != card then Err(Stale)
        else Ok(p.approverCard.Some?)
  }

  function Close(l: Ledger, id: string): Ledger {
    l.(pending := l.pending - {id})
  }

  // ---------------------------------------------------------------- lifecycle

  function Open(l: Ledger, i: InstanceRef): (Ledger, Option<ReviewError>) {
    if i.principal in l.instances then (l, Some(Binding))
    else (l.(instances := l.instances[i.principal := Live(i, 0)]), None)
  }

  /** `remove_where`: the reviews that stay. */
  function Without(l: Ledger, gone: set<string>): Ledger {
    l.(pending := l.pending - gone)
  }

  function UnderMount(l: Ledger, mount: Uuid): set<string> {
    set id | id in l.pending && l.pending[id].request.scope.Some? && l.pending[id].request.scope.value.mount == Some(mount)
  }

  function Involving(l: Ledger, p: Uuid): set<string> {
    set id | id in l.pending && (l.pending[id].request.child == p || l.pending[id].request.supervisor == Some(p))
  }

  predicate HasOtherRevision(facts: seq<FactRef>, kind: string, revision: string) {
    exists i | 0 <= i < |facts| :: facts[i].kind == kind && facts[i].revision != revision
  }

  function WithOtherRevision(l: Ledger, kind: string, revision: string): set<string> {
    set id | id in l.pending && HasOtherRevision(l.pending[id].request.attempt.facts, kind, revision)
  }

  function MountBody(l: Ledger, id: Uuid): Ledger {
    l.(mounts := l.mounts + {id})
  }

  function UnmountBody(l: Ledger, id: Uuid): Ledger {
    Without(l.(mounts := l.mounts - {id}), UnderMount(l, id))
  }

  function Unbound(l: Ledger, p: Uuid): Ledger {
    if p !in l.instances then l
    else
      var gone := l.instances[p].instance;
      l.(instances := l.instances - {p},
         supervisors := map c | c in l.supervisors && c != gone && l.supervisors[c] != gone :: l.supervisors[c])
  }

  function Retire(l: Ledger, p: Uuid): Ledger {
    Without(Unbound(l, p), Involving(l, p))
  }

  function Revoke(l: Ledger, p: Uuid): (Ledger, Option<ReviewError>) {
    if p !in l.instances then (l, Some(Inactive))
    else
      var Live(instance, epoch) := l.instances[p];
      if epoch >= MAX_EPOCH then (Retire(l, p), None)
      else (Without(l.(instances := l.instances[p := Live(instance, epoch + 1)]), Involving(l, p)), None)
  }

  function InvalidateFact(l: Ledger, kind: string, revision: string): Ledger {
    Without(l, WithOtherRevision(l, kind, revision))
  }

  // ---------------------------------------------------------------- the invariant

  ghost predicate Bound(l: Ledger, i: InstanceRef) {
    i.principal in l.instances && l.instances[i.principal].instance == i
  }

  ghost predicate Relations(l: Ledger) {
    && (forall p | p in l.instances :: l.instances[p].instance.principal == p && l.instances[p].epoch <= MAX_EPOCH)
    && (forall c | c in l.supervisors :: Bound(l, c) && Bound(l, l.supervisors[c]))
    && Acyclic(l.supervisors)
  }

  /** A pending review is filed under its id, and its scope is the current one of its own child. */
  ghost predicate Filed(l: Ledger, id: string) {
    id in l.pending &&
    var request := l.pending[id].request;
    && request.id == id && id in l.seen
    && request.scope.Some? && Current(l, request.scope.value)
    && request.scope.value.child.principal == request.child
    && request.scope.value.supervisor.Some?
    && request.supervisor == Some(request.scope.value.supervisor.value.principal)
  }

  ghost predicate OneWaits(l: Ledger) {
    forall a, b | a in l.pending && b in l.pending && a != b ::
      !(l.pending[a].request.scope == l.pending[b].request.scope
        && l.pending[a].request.subject == l.pending[b].request.subject
        && l.pending[a].call.Some? == l.pending[b].call.Some?)
  }

  ghost predicate Valid(l: Ledger) {
    && Relations(l)
    && (forall id | id in l.pending :: Filed(l, id))
    && OneWaits(l)
  }
}
