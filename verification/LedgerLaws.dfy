/** What every transition of the supervision ledger keeps, and what no later one brings back. */
module LedgerLaws {
  import opened Basics
  import opened Chains
  import opened Semantics
  import opened Ledgers

  // ---------------------------------------------------------------- the relation

  /** In a valid ledger the unchecked epoch lookup always finds its instance. */
  lemma ScopeNeverPanics(l: Ledger, child: Uuid, mount: Option<Uuid>)
    requires Relations(l)
    ensures Scope(l, child, mount) != Err(Panic)
  {
  }

  // ---------------------------------------------------------------- transitions

  lemma FewerWait(l: Ledger, l': Ledger)
    requires OneWaits(l)
    requires forall x | x in l'.pending ::
               x in l.pending && l'.pending[x].request == l.pending[x].request && l'.pending[x].call == l.pending[x].call
    ensures OneWaits(l')
  {
  }

  lemma SameRelations(l: Ledger, l': Ledger)
    requires Relations(l) && l'.instances == l.instances && l'.supervisors == l.supervisors
    ensures Relations(l')
  {
    hide Acyclic;
  }

  lemma OpenKeeps(l: Ledger, i: InstanceRef)
    requires Valid(l)
    ensures Valid(Open(l, i).0)
  {
    hide Relations, Filed, OneWaits;
    var l' := Open(l, i).0;
    if i.principal !in l.instances {
      OpenRelations(l, i);
      FewerWait(l, l');
      forall x | x in l'.pending ensures Filed(l', x) {
        OpenFiled(l, i, x);
      }
    }
  }

  lemma OpenRelations(l: Ledger, i: InstanceRef)
    requires Relations(l) && i.principal !in l.instances
    ensures Relations(Open(l, i).0)
  {
    hide Acyclic;
  }

  lemma OpenFiled(l: Ledger, i: InstanceRef, id: string)
    requires Relations(l) && i.principal !in l.instances && Filed(l, id)
    ensures Filed(Open(l, i).0, id)
  {
    hide Acyclic;
  }

  lemma BindKeeps(l: Ledger, child: Uuid, supervisor: Uuid)
    requires Valid(l)
    ensures Valid(Bind(l, child, supervisor).0)
  {
    var l' := Bind(l, child, supervisor).0;
    if CheckBinding(l, child, supervisor).None? {
      LinkAcyclic(l.supervisors, l.instances[child].instance, l.instances[supervisor].instance);
      forall id | id in l'.pending ensures Filed(l', id) {
        assert Filed(l, id);
      }
    }
  }

  lemma MountKeeps(l: Ledger, id: Uuid)
    requires Valid(l)
    ensures Valid(MountBody(l, id))
  {
    hide Relations, Filed, OneWaits;
    SameRelations(l, MountBody(l, id));
    FewerWait(l, MountBody(l, id));
    forall x | x in l.pending ensures Filed(MountBody(l, id), x) {
      MountFiled(l, id, x);
    }
  }

  lemma MountFiled(l: Ledger, id: Uuid, x: string)
    requires Filed(l, x)
    ensures Filed(MountBody(l, id), x)
  {
  }

  lemma UnmountKeeps(l: Ledger, id: Uuid)
    requires Valid(l)
    ensures Valid(UnmountBody(l, id))
  {
    hide Relations, Filed, OneWaits;
    var l' := UnmountBody(l, id);
    SameRelations(l, l');
    FewerWait(l, l');
    forall x | x in l'.pending ensures Filed(l', x) {
      UnmountFiled(l, id, x);
    }
  }

  lemma UnmountFiled(l: Ledger, id: Uuid, x: string)
    requires Filed(l, x) && x in UnmountBody(l, id).pending
    ensures Filed(UnmountBody(l, id), x)
  {
  }

  lemma WithoutKeeps(l: Ledger, gone: set<string>)
    requires Valid(l)
    ensures Valid(Without(l, gone))
  {
    hide Relations, Filed, OneWaits;
    var l' := Without(l, gone);
    SameRelations(l, l');
    FewerWait(l, l');
    forall x | x in l'.pending ensures Filed(l', x) {
      WithoutFiled(l, gone, x);
    }
  }

  lemma WithoutFiled(l: Ledger, gone: set<string>, x: string)
    requires Filed(l, x) && x !in gone
    ensures Filed(Without(l, gone), x)
  {
  }

  lemma InsertKeeps(l: Ledger, request: ReviewRequest, call: Option<CallBinding>)
    requires Valid(l)
    ensures Valid(Insert(l, request, call).0)
  {
    hide Relations, Filed, OneWaits;
    var (l', e) := Insert(l, request, call);
    if e.None? {
      SameRelations(l, l');
      InsertAlone(l, request, call);
      forall x | x in l'.pending ensures Filed(l', x) {
        InsertFiled(l, request, call, x);
      }
    }
  }

  lemma InsertAlone(l: Ledger, request: ReviewRequest, call: Option<CallBinding>)
    requires OneWaits(l) && Insert(l, request, call).1.None?
    ensures OneWaits(Insert(l, request, call).0)
  {
    hide Current;
    forall id | id in l.pending ensures !Waits(l.pending[id], request.scope.value, request.subject, call.Some?) {
    }
  }

  lemma InsertFiled(l: Ledger, request: ReviewRequest, call: Option<CallBinding>, x: string)
    requires Insert(l, request, call).1.None? && (x == request.id || Filed(l, x))
    ensures Filed(Insert(l, request, call).0, x)
  {
    var l' := Insert(l, request, call).0;
    hide SomeoneWaits;
    SameScopes(l, l', request.scope.value);
    if x != request.id {
      SameScopes(l, l', l.pending[x].request.scope.value);
    }
    hide Current;
  }

  /** What a scope is does not depend on the reviews. */
  lemma SameScopes(l: Ledger, l': Ledger, s: ReviewScope)
    requires l'.instances == l.instances && l'.supervisors == l.supervisors && l'.mounts == l.mounts
    ensures Current(l', s) == Current(l, s)
  {
  }

  lemma CardFiled(l: Ledger, id: string, card: Option<string>, x: string)
    requires id in l.pending && Filed(l, x)
    ensures Filed(l.(pending := l.pending[id := l.pending[id].(approverCard := card)]), x)
  {
    var l' := l.(pending := l.pending[id := l.pending[id].(approverCard := card)]);
    SameScopes(l, l', l.pending[x].request.scope.value);
    hide Current;
  }

  /** Whether a review is approved is no concern of the invariant. */
  lemma CardKeeps(l: Ledger, id: string, card: Option<string>)
    requires Valid(l) && id in l.pending
    ensures Valid(l.(pending := l.pending[id := l.pending[id].(approverCard := card)]))
  {
    hide Relations, OneWaits, Filed;
    var l' := l.(pending := l.pending[id := l.pending[id].(approverCard := card)]);
    SameRelations(l, l');
    FewerWait(l, l');
    forall x | x in l'.pending ensures Filed(l', x) {
      CardFiled(l, id, card, x);
    }
  }

  lemma ResolveKeeps(l: Ledger, supervisor: Uuid, id: string, r: Resolution, card: string)
    requires Valid(l)
    ensures Valid(Resolve(l, supervisor, id, r, card).0)
  {
    if CheckResolution(l, supervisor, id, r).None? {
      hide CheckResolution;
      match r {
        case ApproveOnce => CardKeeps(l, id, Some(card));
        case Consult => CardKeeps(l, id, None);
        case _ => WithoutKeeps(l, {id});
      }
      hide Valid;
    }
  }

  lemma UnboundRelations(l: Ledger, p: Uuid)
    requires Relations(l)
    ensures Relations(Unbound(l, p))
  {
    FewerAcyclic(l.supervisors, Unbound(l, p).supervisors);
    hide Acyclic;
  }

  lemma UnboundPending(l: Ledger, p: Uuid)
    ensures Unbound(l, p).pending == l.pending
  {
  }

  lemma RetireFiled(l: Ledger, p: Uuid, id: string)
    requires Relations(l) && Filed(l, id) && id in Retire(l, p).pending
    ensures Filed(Retire(l, p), id)
  {
    hide Acyclic;
  }

  lemma RetireKeeps(l: Ledger, p: Uuid)
    requires Valid(l)
    ensures Valid(Retire(l, p))
  {
    hide Relations, Filed, OneWaits, Unbound, Involving;
    var l' := Retire(l, p);
    UnboundRelations(l, p);
    UnboundPending(l, p);
    SameRelations(Unbound(l, p), l');
    FewerWait(l, l');
    forall x | x in l'.pending ensures Filed(l', x) {
      RetireFiled(l, p, x);
    }
  }

  lemma RevokeKeeps(l: Ledger, p: Uuid)
    requires Valid(l)
    ensures Valid(Revoke(l, p).0)
  {
    hide Relations, Filed, OneWaits, Involving, Retire;
    if p in l.instances && l.instances[p].epoch >= MAX_EPOCH {
      RetireKeeps(l, p);
    } else if p in l.instances {
      var l' := Revoke(l, p).0;
      PassedRelations(l, p);
      FewerWait(l, l');
      forall x | x in l'.pending ensures Filed(l', x) {
        PassedFiled(l, p, x);
      }
    }
  }

  lemma PassedRelations(l: Ledger, p: Uuid)
    requires Relations(l) && p in l.instances && l.instances[p].epoch < MAX_EPOCH
    ensures Relations(Revoke(l, p).0)
  {
    hide Acyclic, Involving;
  }

  lemma PassedFiled(l: Ledger, p: Uuid, x: string)
    requires Relations(l) && p in l.instances && l.instances[p].epoch < MAX_EPOCH
    requires Filed(l, x) && x in Revoke(l, p).0.pending
    ensures Filed(Revoke(l, p).0, x)
  {
    hide Acyclic;
  }

  // ---------------------------------------------------------------- runs

  datatype Op =
    | DoOpen(instance: InstanceRef)
    | DoBind(child: Uuid, supervisor: Uuid)
    | DoMount(mount: Uuid)
    | DoUnmount(mount: Uuid)
    | DoInsert(request: ReviewRequest, call: Option<CallBinding>)
    | DoResolve(judge: Uuid, id: string, resolution: Resolution, card: string)
    | DoClose(id: string)
    | DoRevoke(principal: Uuid)
    | DoRetire(principal: Uuid)
    | DoInvalidate(kind: string, revision: string)

  ghost function Apply(l: Ledger, op: Op): Ledger {
    match op
    case DoOpen(i) => Open(l, i).0
    case DoBind(child, supervisor) => Bind(l, child, supervisor).0
    case DoMount(m) => MountBody(l, m)
    case DoUnmount(m) => UnmountBody(l, m)
    case DoInsert(request, call) => Insert(l, request, call).0
    case DoResolve(judge, id, r, card) => Resolve(l, judge, id, r, card).0
    case DoClose(id) => Close(l, id)
    case DoRevoke(p) => Revoke(l, p).0
    case DoRetire(p) => Retire(l, p)
    case DoInvalidate(kind, revision) => InvalidateFact(l, kind, revision)
  }

  ghost function Run(l: Ledger, ops: seq<Op>): Ledger
    decreases |ops|
  {
    if ops == [] then l else Run(Apply(l, ops[0]), ops[1..])
  }

  lemma ApplyKeeps(l: Ledger, op: Op)
    requires Valid(l)
    ensures Valid(Apply(l, op))
  {
    hide Valid;
    match op {
      case DoOpen(i) => OpenKeeps(l, i);
      case DoBind(child, supervisor) => BindKeeps(l, child, supervisor);
      case DoMount(m) => MountKeeps(l, m);
      case DoUnmount(m) => UnmountKeeps(l, m);
      case DoInsert(request, call) => InsertKeeps(l, request, call);
      case DoResolve(judge, id, r, card) => ResolveKeeps(l, judge, id, r, card);
      case DoClose(id) => WithoutKeeps(l, {id});
      case DoRevoke(p) => RevokeKeeps(l, p);
      case DoRetire(p) => RetireKeeps(l, p);
      case DoInvalidate(kind, revision) => WithoutKeeps(l, WithOtherRevision(l, kind, revision));
    }
  }

  lemma {:induction false} RunKeeps(l: Ledger, ops: seq<Op>)
    requires Valid(l)
    ensures Valid(Run(l, ops))
    decreases |ops|
  {
    hide Valid, Apply;
    if ops != [] {
      ApplyKeeps(l, ops[0]);
      RunKeeps(Apply(l, ops[0]), ops[1..]);
    }
  }

  lemma EmptyValid()
    ensures Valid(EMPTY)
  {
    assert Ranked(EMPTY.supervisors, map[]);
  }

  /**
   After every run: each pending review's scope is the current one, at most one review waits
   for a scope, subject and call kind, both ends of each binding are live, nobody is above
   itself, and a scope can always be taken.
   */
  lemma {:induction false} EveryReachableLedger(ops: seq<Op>, child: Uuid, mount: Option<Uuid>, x: InstanceRef, n: nat)
    requires n > 0
    ensures var l := Run(EMPTY, ops);
            && (forall id | id in l.pending :: l.pending[id].request.scope.Some? && Current(l, l.pending[id].request.scope.value))
            && OneWaits(l)
            && (forall c | c in l.supervisors :: Bound(l, c) && Bound(l, l.supervisors[c]))
            && Up(l.supervisors, x, n) != Some(x)
            && Scope(l, child, mount) != Err(Panic)
  {
    var l := Run(EMPTY, ops);
    EmptyValid();
    RunKeeps(EMPTY, ops);
    hide Run;
    assert forall id | id in l.pending :: Filed(l, id);
    NobodyAboveItself(l.supervisors, x, n);
    ScopeNeverPanics(l, child, mount);
  }

  // ---------------------------------------------------------------- what stays gone

  /** The ledger with every instance it has ever opened. */
  datatype World = World(ledger: Ledger, used: set<InstanceRef>)

  ghost function Step(w: World, op: Op): World {
    World(Apply(w.ledger, op), w.used + if op.DoOpen? then {op.instance} else {})
  }

  ghost function Play(w: World, ops: seq<Op>): World
    decreases |ops|
  {
    if ops == [] then w else Play(Step(w, ops[0]), ops[1..])
  }

  /** Every opened instance is a new incarnation. */
  predicate Fresh(used: set<InstanceRef>, ops: seq<Op>)
    decreases |ops|
  {
    ops == [] || (if ops[0].DoOpen? then ops[0].instance !in used && Fresh(used + {ops[0].instance}, ops[1..])
                  else Fresh(used, ops[1..]))
  }

  ghost predicate Known(w: World) {
    forall p | p in w.ledger.instances :: w.ledger.instances[p].instance in w.used
  }

  /** The instance is gone for good, or its epoch is at least that. */
  ghost predicate Reached(w: World, i: InstanceRef, epoch: nat) {
    i in w.used && (Bound(w.ledger, i) ==> w.ledger.instances[i.principal].epoch >= epoch)
  }

  lemma StepReached(w: World, op: Op, i: InstanceRef, epoch: nat)
    requires Reached(w, i, epoch) && Known(w) && (op.DoOpen? ==> op.instance !in w.used)
    ensures Reached(Step(w, op), i, epoch) && Known(Step(w, op))
    ensures Step(w, op).used == if op.DoOpen? then w.used + {op.instance} else w.used
  {
  }

  lemma {:induction false} PlayReached(w: World, ops: seq<Op>, i: InstanceRef, epoch: nat)
    requires Reached(w, i, epoch) && Known(w) && Fresh(w.used, ops)
    ensures Reached(Play(w, ops), i, epoch) && Known(Play(w, ops))
    decreases |ops|
  {
    if ops != [] {
      StepReached(w, ops[0], i, epoch);
      hide Step, Reached, Known;
      PlayReached(Step(w, ops[0]), ops[1..], i, epoch);
    }
  }

  lemma {:induction false} PlayKeeps(w: World, ops: seq<Op>)
    requires Valid(w.ledger)
    ensures Valid(Play(w, ops).ledger)
    decreases |ops|
  {
    hide Valid, Apply;
    if ops != [] {
      ApplyKeeps(w.ledger, ops[0]);
      PlayKeeps(Step(w, ops[0]), ops[1..]);
    }
  }

  /** The scope holds this instance of the principal at this epoch, as child or as supervisor. */
  predicate Names(s: ReviewScope, i: InstanceRef, epoch: nat) {
    (s.child == i && s.childEpoch == epoch) || (s.supervisor == Some(i) && s.supervisorEpoch == Some(epoch))
  }

  lemma PassedIsStale(w: World, s: ReviewScope, i: InstanceRef, epoch: nat)
    requires Reached(w, i, epoch + 1) && Names(s, i, epoch) && Relations(w.ledger)
    ensures !Current(w.ledger, s)
  {
  }

  lemma CapturedNames(w: World, s: ReviewScope, p: Uuid) returns (i: InstanceRef, epoch: nat)
    requires Relations(w.ledger) && Known(w) && Current(w.ledger, s)
    requires s.child.principal == p || (s.supervisor.Some? && s.supervisor.value.principal == p)
    ensures Names(s, i, epoch) && i.principal == p && Reached(w, i, epoch)
  {
    if s.supervisor.Some? {
      assert Bound(w.ledger, s.supervisor.value);
    }
    i, epoch := w.ledger.instances[p].instance, w.ledger.instances[p].epoch;
  }

  lemma RevokePasses(w: World, i: InstanceRef, epoch: nat)
    requires Relations(w.ledger) && Known(w) && Reached(w, i, epoch) && i.principal in w.ledger.instances
    ensures Reached(Step(w, DoRevoke(i.principal)), i, epoch + 1) && Known(Step(w, DoRevoke(i.principal)))
    ensures Step(w, DoRevoke(i.principal)).used == w.used
  {
  }

  /**
   With fresh incarnations, a scope that names `p` and was taken at any time before a
   `revoke(p)` is never current after it: not after more revocations, an exhausted epoch,
   a retirement, a new engagement of the same principal, or a new binding.
   */
  lemma {:induction false} RevokedStaysStale(w: World, s: ReviewScope, p: Uuid, before: seq<Op>, after: seq<Op>)
    requires Valid(w.ledger) && Known(w) && Current(w.ledger, s)
    requires s.child.principal == p || (s.supervisor.Some? && s.supervisor.value.principal == p)
    requires Fresh(w.used, before) && Fresh(Play(w, before).used, after)
    requires p in Play(w, before).ledger.instances
    ensures !Current(Play(Step(Play(w, before), DoRevoke(p)), after).ledger, s)
  {
    var i, epoch := CapturedNames(w, s, p);
    PlayKeeps(w, before);
    PlayReached(w, before, i, epoch);
    var revoked := Step(Play(w, before), DoRevoke(p));
    RevokePasses(Play(w, before), i, epoch);
    ApplyKeeps(Play(w, before).ledger, DoRevoke(p));
    PlayReached(revoked, after, i, epoch + 1);
    PlayKeeps(revoked, after);
    PassedIsStale(Play(revoked, after), s, i, epoch);
  }

  /** An id that was ever filed and is not pending never becomes pending again. */
  lemma {:induction false} ClosedStaysClosed(l: Ledger, id: string, ops: seq<Op>)
    requires id in l.seen && id !in l.pending
    ensures id in Run(l, ops).seen && id !in Run(l, ops).pending
    decreases |ops|
  {
    if ops != [] {
      StepStaysClosed(l, id, ops[0]);
      hide Apply;
      ClosedStaysClosed(Apply(l, ops[0]), id, ops[1..]);
    }
  }

  lemma StepStaysClosed(l: Ledger, id: string, op: Op)
    requires id in l.seen && id !in l.pending
    ensures id in Apply(l, op).seen && id !in Apply(l, op).pending
  {
  }

  /** An approval is spent once: consuming it, or any change of its inputs, ends the id. */
  lemma CheckCallBinds(l: Ledger, id: string, call: CallBinding, facts: seq<FactRef>, card: string)
    requires Valid(l) && CheckCall(l, id, call, facts, card) == Ok(true)
    ensures var p := l.pending[id];
            && p.call == Some(call) && p.request.attempt.facts == facts && p.approverCard == Some(card)
            && p.request.scope.Some? && Current(l, p.request.scope.value)
            && (forall call', facts', card' | (call', facts', card') != (call, facts, card) ::
                  CheckCall(l, id, call', facts', card') == Err(Stale))
            && (forall call', facts', card' :: CheckCall(Close(l, id), id, call', facts', card') == Err(Missing))
  {
    assert Filed(l, id);
  }
}
