/** What each transition of the supervision ledger achieves, when it is refused, and what it leaves alone. */
module LedgerEffects {
  import opened Basics
  import opened Chains
  import opened Semantics
  import opened Ledgers
  import opened LedgerLaws

  /** Everything but the reviews. */
  predicate SameStanding(l: Ledger, l': Ledger) {
    l'.instances == l.instances && l'.mounts == l.mounts && l'.supervisors == l.supervisors
  }

  /** Every review but `id` is as it was. */
  predicate OthersWait(l: Ledger, l': Ledger, id: string) {
    l'.pending - {id} == l.pending - {id}
  }

  // ---------------------------------------------------------------- scopes and bindings

  /** A scope is taken of every live child on a mounted body, and records who it is bound to, both at their epochs now. */
  lemma ScopeIff(l: Ledger, child: Uuid, mount: Option<Uuid>)
    requires Relations(l)
    ensures var r := Scope(l, child, mount);
            && (r.Ok? <==> child in l.instances && (mount.None? || mount.value in l.mounts))
            && (r.Err? ==> r.error == if child !in l.instances then Inactive else Stale)
            && (r.Ok? ==>
                  && Bound(l, r.value.child) && r.value.child.principal == child && r.value.mount == mount
                  && r.value.childEpoch == l.instances[child].epoch
                  && (r.value.supervisor.Some? <==> r.value.child in l.supervisors)
                  && (r.value.supervisor.Some? <==> r.value.supervisorEpoch.Some?)
                  && (r.value.supervisor.Some? ==>
                        && r.value.supervisor.value == l.supervisors[r.value.child] && Bound(l, r.value.supervisor.value)
                        && r.value.supervisorEpoch.value == l.instances[r.value.supervisor.value.principal].epoch))
  {
    hide Acyclic;
  }

  /** A new engagement is opened exactly when the principal has none, at epoch zero. */
  lemma OpenIff(l: Ledger, i: InstanceRef)
    ensures var (l', e) := Open(l, i);
            && (e.None? <==> i.principal !in l.instances)
            && (e.Some? ==> l' == l && e == Some(Binding))
            && (e.None? ==> Bound(l', i) && l'.instances[i.principal].epoch == 0)
            && (forall p | p != i.principal :: (p in l'.instances <==> p in l.instances) && (p in l.instances ==> l'.instances[p] == l.instances[p]))
            && l' == l.(instances := l'.instances)
  {
  }

  /**
   A binding is made exactly when both ends are live, nothing of the child waits, and the child is
   not the supervisor or above it; it then replaces the child's own link and no other.
   */
  lemma BindIff(l: Ledger, child: Uuid, supervisor: Uuid)
    requires Relations(l)
    ensures var (l', e) := Bind(l, child, supervisor);
            && (e.None? <==>
                  && child in l.instances && supervisor in l.instances
                  && (forall id | id in l.pending :: l.pending[id].request.child != child)
                  && !Above(l.supervisors, l.instances[supervisor].instance, l.instances[child].instance))
            && (e.Some? ==> l' == l && e == Some(if child in l.instances && supervisor in l.instances then Binding else Inactive))
            && (e.None? ==>
                  && SupervisorOf(l', l.instances[child].instance) == Some(l.instances[supervisor].instance)
                  && (forall c | c != l.instances[child].instance :: SupervisorOf(l', c) == SupervisorOf(l, c)))
            && l' == l.(supervisors := l'.supervisors)
  {
    hide Acyclic;
    if child in l.instances && supervisor in l.instances {
      assert l.instances[child].instance.principal == child;
      assert HasPending(l, child) <==> !(forall id | id in l.pending :: l.pending[id].request.child != child);
      hide Above, HasPending;
    }
  }

  // ---------------------------------------------------------------- filing and resolving

  /**
   A request is filed exactly when its scope is the current one of its own child, names its
   supervisor, its id is new, and nothing waits for that scope, subject and kind. It then waits
   unapproved, and its id is used up.
   */
  lemma InsertIff(l: Ledger, request: ReviewRequest, call: Option<CallBinding>)
    ensures var (l', e) := Insert(l, request, call);
            && (e.None? <==>
                  && request.scope.Some? && Current(l, request.scope.value)
                  && request.scope.value.child.principal == request.child
                  && request.scope.value.supervisor.Some? && request.supervisor == Some(request.scope.value.supervisor.value.principal)
                  && request.id !in l.seen
                  && (forall id | id in l.pending ::
                        l.pending[id].request.scope != request.scope || l.pending[id].request.subject != request.subject
                        || l.pending[id].call.Some? != call.Some?))
            && (e.Some? ==> l' == l)
            && (e.None? ==>
                  && request.id in l'.pending && l'.pending[request.id] == PendingReview(request, call, None)
                  && OthersWait(l, l', request.id) && l'.seen == l.seen + {request.id})
            && SameStanding(l, l')
  {
    hide Current;
  }

  /** Who may resolve: the very instance that the review's scope is bound to, while that scope is current. */
  lemma ResolvesIff(l: Ledger, supervisor: Uuid, id: string, r: Resolution)
    requires Valid(l)
    ensures CheckResolution(l, supervisor, id, r) == None <==>
            && id in l.pending && supervisor in l.instances
            && l.pending[id].request.scope.Some?
            && l.pending[id].request.scope.value.supervisor == Some(l.instances[supervisor].instance)
            && (r == ApproveOnce ==>
                  && l.pending[id].approverCard == None && l.pending[id].call.Some? && l.pending[id].request.cause.HighRisk?)
    ensures CheckResolution(l, supervisor, id, r) == Some(Missing) <==> id !in l.pending
    ensures CheckResolution(l, supervisor, id, r) == Some(Ceiling) ==>
            r == ApproveOnce && (l.pending[id].call.None? || !l.pending[id].request.cause.HighRisk?)
  {
    assert id in l.pending ==> Filed(l, id);
    hide Relations, OneWaits, Current;
  }

  /**
   What a resolution does: an approval gives the review exactly this card, a consultation takes
   any card from it, a retry and a rejection end it. A refusal changes nothing, and no other
   review is touched.
   */
  lemma ResolveMeans(l: Ledger, supervisor: Uuid, id: string, r: Resolution, card: string)
    ensures var (l', e) := Resolve(l, supervisor, id, r, card);
            && e == CheckResolution(l, supervisor, id, r)
            && (e.Some? ==> l' == l)
            && (e.None? ==> id in l.pending && OthersWait(l, l', id) && l'.seen == l.seen)
            && (e.None? && r in {Retry, Reject} ==> id !in l'.pending)
            && (e.None? && r in {ApproveOnce, Consult} ==>
                  && id in l'.pending
                  && l'.pending[id].request == l.pending[id].request && l'.pending[id].call == l.pending[id].call
                  && l'.pending[id].approverCard == if r == ApproveOnce then Some(card) else None)
            && SameStanding(l, l')
  {
    hide Current;
  }

  /**
   The life of one review: filed, it does not let its call through; approved, it lets exactly that
   call with those facts and that card through; consulted again, it does not; after a retry or a
   rejection it is missing.
   */
  lemma ReviewLife(l: Ledger, request: ReviewRequest, call: CallBinding, judge: Uuid, card: string, r: Resolution)
    requires Valid(l) && Insert(l, request, Some(call)).1.None?
    ensures var (id, facts) := (request.id, request.attempt.facts);
            var filed := Insert(l, request, Some(call)).0;
            var (approved, e) := Resolve(filed, judge, id, ApproveOnce, card);
            && CheckCall(filed, id, call, facts, card) == Ok(false)
            && (e.None? <==> judge in l.instances && request.scope.value.supervisor == Some(l.instances[judge].instance) && request.cause.HighRisk?)
            && (e.None? ==> CheckCall(approved, id, call, facts, card) == Ok(true))
            && (e.None? ==> Resolve(approved, judge, id, ApproveOnce, card) == (approved, Some(Authority)))
            && (e.None? && r != ApproveOnce ==>
                  var (later, e') := Resolve(approved, judge, id, r, card);
                  e'.None? && CheckCall(later, id, call, facts, card) == if r == Consult then Ok(false) else Err(Missing))
  {
    var id := request.id;
    var filed := Insert(l, request, Some(call)).0;
    InsertKeeps(l, request, Some(call));
    InsertIff(l, request, Some(call));
    SameScopes(l, filed, request.scope.value);
    hide Insert, OneWaits, Relations, Scope;
    var (approved, e) := Resolve(filed, judge, id, ApproveOnce, card);
    ResolvesIff(filed, judge, id, ApproveOnce);
    ResolveMeans(filed, judge, id, ApproveOnce, card);
    SameScopes(filed, approved, request.scope.value);
    if e.None? {
      var later := Resolve(approved, judge, id, r, card).0;
      ResolveMeans(approved, judge, id, r, card);
      SameScopes(approved, later, request.scope.value);
      hide Resolve, Current, Valid;
    }
  }

  // ---------------------------------------------------------------- lifecycle

  /** Mounting a body brings no review, and unmounting it ends exactly the reviews taken on it. */
  lemma MountsMean(l: Ledger, id: Uuid)
    ensures MountBody(l, id) == l.(mounts := l.mounts + {id})
    ensures var l' := UnmountBody(l, id);
            && l'.mounts == l.mounts - {id} && l'.instances == l.instances && l'.supervisors == l.supervisors
            && (forall x :: x in l'.pending <==>
                  x in l.pending && (l.pending[x].request.scope.None? || l.pending[x].request.scope.value.mount != Some(id)))
            && (forall x | x in l'.pending :: l'.pending[x] == l.pending[x]) && l'.seen == l.seen
  {
  }

  /** The review is of that principal, or is to be judged by it. */
  predicate Concerns(p: PendingReview, principal: Uuid) {
    p.request.child == principal || p.request.supervisor == Some(principal)
  }

  /**
   A revocation of a live principal moves it to its next epoch, and retires it when there is
   none; either way it ends exactly the reviews that concern it.
   */
  lemma RevokeMeans(l: Ledger, p: Uuid)
    ensures var (l', e) := Revoke(l, p);
            && (e == None <==> p in l.instances) && (e.Some? ==> l' == l && e == Some(Inactive))
            && (e.None? ==> forall x :: x in l'.pending <==> x in l.pending && !Concerns(l.pending[x], p))
            && (forall x | x in l'.pending :: x in l.pending && l'.pending[x] == l.pending[x])
            && l'.seen == l.seen && l'.mounts == l.mounts
            && (forall q | q != p :: (q in l'.instances <==> q in l.instances) && (q in l.instances ==> l'.instances[q] == l.instances[q]))
            && (e.None? && l.instances[p].epoch < MAX_EPOCH ==>
                  && p in l'.instances && l'.instances[p] == Live(l.instances[p].instance, l.instances[p].epoch + 1)
                  && l'.supervisors == l.supervisors)
            && (e.None? && l.instances[p].epoch >= MAX_EPOCH ==> l' == Retire(l, p))
  {
  }

  /** A retirement ends the engagement, every binding from or to it, and exactly the reviews that concern the principal. */
  lemma RetireMeans(l: Ledger, p: Uuid)
    requires Relations(l)
    ensures var l' := Retire(l, p);
            && p !in l'.instances && l'.mounts == l.mounts && l'.seen == l.seen
            && (forall q | q != p :: (q in l'.instances <==> q in l.instances) && (q in l.instances ==> l'.instances[q] == l.instances[q]))
            && (forall x :: x in l'.pending <==> x in l.pending && !Concerns(l.pending[x], p))
            && (forall x | x in l'.pending :: l'.pending[x] == l.pending[x])
            && (forall c :: c in l'.supervisors <==> c in l.supervisors && c.principal != p && l.supervisors[c].principal != p)
            && (forall c | c in l'.supervisors :: l'.supervisors[c] == l.supervisors[c])
  {
    hide Acyclic;
    forall c | c in l.supervisors ensures Bound(l, c) && Bound(l, l.supervisors[c]) {
    }
  }

  /** A new revision of a fact ends exactly the reviews that rest on another revision of its kind. */
  lemma InvalidateMeans(l: Ledger, kind: string, revision: string)
    ensures var l' := InvalidateFact(l, kind, revision);
            && SameStanding(l, l')
            && (forall x :: x in l'.pending <==>
                  x in l.pending && forall f | f in l.pending[x].request.attempt.facts && f.kind == kind :: f.revision == revision)
            && (forall x | x in l'.pending :: l'.pending[x] == l.pending[x]) && l'.seen == l.seen
  {
  }
}
