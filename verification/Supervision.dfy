/** The supervision ledger as the object whose methods move it. */
module Supervisions {
  import opened Basics
  import opened Chains
  import opened Semantics
  import opened Ledgers
  import opened LedgerLaws

  class Supervision {
    var instances: map<Uuid, Live>
    var mounts: set<Uuid>
    var supervisors: map<InstanceRef, InstanceRef>
    var pending: map<string, PendingReview>
    var seen: set<string>

    function View(): Ledger
      reads this
    {
      Ledger(instances, mounts, supervisors, pending, seen)
    }

    constructor ()
      ensures View() == EMPTY && Valid(View())
    {
      instances, mounts, supervisors, pending, seen := map[], {}, map[], map[], {};
      new;
      EmptyValid();
    }

    method Open(instance: InstanceRef) returns (error: Option<ReviewError>)
      requires Valid(View())
      modifies this
      ensures (View(), error) == Ledgers.Open(old(View()), instance)
      ensures Valid(View())
    {
      OpenKeeps(View(), instance);
      if instance.principal in instances {
        return Some(Binding);
      }
      instances := instances[instance.principal := Live(instance, 0)];
      return None;
    }

    method Instance(principal: Uuid) returns (r: Result<InstanceRef, ReviewError>)
      ensures r == InstanceOf(View(), principal)
    {
      if principal !in instances {
        return Err(Inactive);
      }
      return Ok(instances[principal].instance);
    }

    method Mount(id: Uuid)
      requires Valid(View())
      modifies this
      ensures View() == MountBody(old(View()), id) && Valid(View())
    {
      MountKeeps(View(), id);
      mounts := mounts + {id};
    }

    method Unmount(id: Uuid) returns (removed: seq<ReviewRequest>)
      requires Valid(View())
      modifies this
      ensures View() == UnmountBody(old(View()), id) && Valid(View())
      ensures Lists(removed, old(pending), UnderMount(old(View()), id))
    {
      UnmountKeeps(View(), id);
      ghost var gone := UnderMount(View(), id);
      mounts := mounts - {id};
      removed := RemoveWhere(gone, (p: PendingReview) => p.request.scope.Some? && p.request.scope.value.mount == Some(id));
    }

    /** The walk up the supervisors ends because the relation has no cycle. */
    method CheckBinding(child: Uuid, supervisor: Uuid) returns (error: Option<ReviewError>)
      requires Relations(View())
      ensures error == Ledgers.CheckBinding(View(), child, supervisor)
    {
      if child !in instances || supervisor !in instances {
        return Some(Inactive);
      }
      var target := instances[child].instance;
      var cursor := instances[supervisor].instance;
      if HasPending(View(), target.principal) {
        return Some(Binding);
      }
      ghost var rank :| Ranked(supervisors, rank);
      while true
        invariant Above(supervisors, cursor, target) <==> Above(supervisors, instances[supervisor].instance, target)
        decreases Rank(rank, cursor)
      {
        AboveStep(supervisors, cursor, target);
        if cursor == target {
          return Some(Binding);
        }
        if cursor !in supervisors {
          return None;
        }
        cursor := supervisors[cursor];
      }
    }

    method Bind(child: Uuid, supervisor: Uuid) returns (error: Option<ReviewError>)
      requires Valid(View())
      modifies this
      ensures (View(), error) == Ledgers.Bind(old(View()), child, supervisor)
      ensures Valid(View())
    {
      BindKeeps(View(), child, supervisor);
      error := CheckBinding(child, supervisor);
      if error.Some? {
        return;
      }
      supervisors := supervisors[instances[child].instance := instances[supervisor].instance];
    }

    /** The index of `instances` below has no check in the source; the invariant makes it safe. */
    method Scope(child: Uuid, mount: Option<Uuid>) returns (r: Result<ReviewScope, ReviewError>)
      requires Relations(View())
      ensures r == Ledgers.Scope(View(), child, mount)
    {
      if child !in instances {
        return Err(Inactive);
      }
      if mount.Some? && mount.value !in mounts {
        return Err(Stale);
      }
      var Live(instance, epoch) := instances[child];
      if instance in supervisors {
        var s := supervisors[instance];
        assert Bound(View(), s);
        return Ok(ReviewScope(instance, Some(s), mount, epoch, Some(instances[s.principal].epoch)));
      }
      return Ok(ReviewScope(instance, None, mount, epoch, None));
    }

    method IsCurrent(scope: ReviewScope) returns (yes: bool)
      requires Relations(View())
      ensures yes == Current(View(), scope)
    {
      var now := Scope(scope.child.principal, scope.mount);
      return now == Ok(scope);
    }

    method Waiting(scope: ReviewScope, subject: string, call: bool) returns (found: Option<PendingReview>)
      ensures found.Some? <==> SomeoneWaits(View(), scope, subject, call)
      ensures found.Some? ==> found.value in pending.Values && Waits(found.value, scope, subject, call)
    {
      var rest := pending.Keys;
      while rest != {}
        invariant rest <= pending.Keys
        invariant forall id | id in pending && id !in rest :: !Waits(pending[id], scope, subject, call)
        decreases |rest|
      {
        var id :| id in rest;
        if Waits(pending[id], scope, subject, call) {
          return Some(pending[id]);
        }
        rest := rest - {id};
      }
      return None;
    }

    method Insert(request: ReviewRequest, call: Option<CallBinding>) returns (error: Option<ReviewError>)
      requires Valid(View())
      modifies this
      ensures (View(), error) == Ledgers.Insert(old(View()), request, call)
      ensures Valid(View())
    {
      InsertKeeps(View(), request, call);
      if request.scope.None? {
        return Some(Stale);
      }
      var scope := request.scope.value;
      var current := IsCurrent(scope);
      if !current || scope.child.principal != request.child || scope.supervisor.None?
         || request.supervisor != Some(scope.supervisor.value.principal)
      {
        return Some(Stale);
      }
      var other := Waiting(scope, request.subject, call.Some?);
      if request.id in seen || other.Some? {
        return Some(Binding);
      }
      seen := seen + {request.id};
      pending := pending[request.id := PendingReview(request, call, None)];
      return None;
    }

    method CheckResolution(supervisor: Uuid, id: string, r: Resolution) returns (error: Option<ReviewError>)
      requires Relations(View())
      ensures error == Ledgers.CheckResolution(View(), supervisor, id, r)
    {
      if id !in pending {
        return Some(Missing);
      }
      var p := pending[id];
      if p.request.scope.None? {
        return Some(Stale);
      }
      var scope := p.request.scope.value;
      var current := IsCurrent(scope);
      if !current {
        return Some(Stale);
      }
      if supervisor !in instances {
        return Some(Inactive);
      }
      if scope.supervisor != Some(instances[supervisor].instance) {
        return Some(Authority);
      }
      if r == ApproveOnce {
        if p.approverCard.Some? {
          return Some(Authority);
        }
        if p.call.None? || !p.request.cause.HighRisk? {
          return Some(Ceiling);
        }
      }
      return None;
    }

    method Resolve(supervisor: Uuid, id: string, r: Resolution, card: string) returns (error: Option<ReviewError>)
      requires Valid(View())
      modifies this
      ensures (View(), error) == Ledgers.Resolve(old(View()), supervisor, id, r, card)
      ensures Valid(View())
    {
      ResolveKeeps(View(), supervisor, id, r, card);
      hide Valid;
      error := CheckResolution(supervisor, id, r);
      if error.Some? {
        return;
      }
      match r {
        case ApproveOnce => pending := pending[id := pending[id].(approverCard := Some(card))];
        case Consult => pending := pending[id := pending[id].(approverCard := None)];
        case _ => pending := pending - {id};
      }
    }

    method CheckCall(id: string, call: CallBinding, facts: seq<FactRef>, card: string) returns (r: Result<bool, ReviewError>)
      requires Relations(View())
      ensures r == Ledgers.CheckCall(View(), id, call, facts, card)
    {
      if id !in pending {
        return Err(Missing);
      }
      var p := pending[id];
      if p.request.scope.None? {
        return Err(Stale);
      }
      var current := IsCurrent(p.request.scope.value);
      if !current || p.call != Some(call) || p.request.attempt.facts != facts {
        return Err(Stale);
      }
      if p.approverCard.Some? && p.approverCard.value != card {
        return Err(Stale);
      }
      return Ok(p.approverCard.Some?);
    }

    method Close(id: string) returns (removed: Option<ReviewRequest>)
      requires Valid(View())
      modifies this
      ensures View() == Ledgers.Close(old(View()), id) && Valid(View())
      ensures removed == if id in old(pending) then Some(old(pending)[id].request) else None
    {
      WithoutKeeps(View(), {id});
      removed := if id in pending then Some(pending[id].request) else None;
      pending := pending - {id};
    }

    method Revoke(principal: Uuid) returns (r: Result<seq<ReviewRequest>, ReviewError>)
      requires Valid(View())
      modifies this
      ensures View() == Ledgers.Revoke(old(View()), principal).0 && Valid(View())
      ensures r.Err? <==> principal !in old(instances)
      ensures r.Ok? ==> Lists(r.value, old(pending), Involving(old(View()), principal))
    {
      RevokeKeeps(View(), principal);
      hide Valid;
      if principal !in instances {
        return Err(Inactive);
      }
      var Live(instance, epoch) := instances[principal];
      var removed: seq<ReviewRequest>;
      if epoch >= MAX_EPOCH {
        removed := RetireNow(principal);
        return Ok(removed);
      }
      ghost var gone := Involving(View(), principal);
      instances := instances[principal := Live(instance, epoch + 1)];
      removed := RemoveWhere(gone, (p: PendingReview) => p.request.child == principal || p.request.supervisor == Some(principal));
      return Ok(removed);
    }

    method Retire(principal: Uuid) returns (removed: seq<ReviewRequest>)
      requires Valid(View())
      modifies this
      ensures View() == Ledgers.Retire(old(View()), principal) && Valid(View())
      ensures Lists(removed, old(pending), Involving(old(View()), principal))
    {
      RetireKeeps(View(), principal);
      hide Valid;
      removed := RetireNow(principal);
    }

    method RetireNow(principal: Uuid) returns (removed: seq<ReviewRequest>)
      modifies this
      ensures View() == Ledgers.Retire(old(View()), principal)
      ensures Lists(removed, old(pending), Involving(old(View()), principal))
    {
      ghost var gone := Involving(View(), principal);
      if principal in instances {
        var instance := instances[principal].instance;
        instances := instances - {principal};
        supervisors := map c | c in supervisors && c != instance && supervisors[c] != instance :: supervisors[c];
      }
      removed := RemoveWhere(gone, (p: PendingReview) => p.request.child == principal || p.request.supervisor == Some(principal));
    }

    method InvalidateFact(kind: string, revision: string) returns (removed: seq<ReviewRequest>)
      requires Valid(View())
      modifies this
      ensures View() == Ledgers.InvalidateFact(old(View()), kind, revision) && Valid(View())
      ensures Lists(removed, old(pending), WithOtherRevision(old(View()), kind, revision))
    {
      ghost var gone := WithOtherRevision(View(), kind, revision);
      WithoutKeeps(View(), gone);
      hide Valid;
      removed := RemoveWhere(gone, (p: PendingReview) => HasOtherRevision(p.request.attempt.facts, kind, revision));
    }

    /** Collects the ids first and closes them one by one, in their order; `gone` is the set the predicate describes. */
    method RemoveWhere(ghost gone: set<string>, chosen: PendingReview -> bool) returns (removed: seq<ReviewRequest>)
      requires gone == set id | id in pending && chosen(pending[id])
      modifies this`pending
      ensures View() == Without(old(View()), gone)
      ensures Lists(removed, old(pending), gone)
    {
      var ids := set id | id in pending && chosen(pending[id]);
      removed := CloseAll(ids);
    }

    method CloseAll(gone: set<string>) returns (removed: seq<ReviewRequest>)
      requires gone <= pending.Keys
      modifies this`pending
      ensures View() == Without(old(View()), gone)
      ensures Lists(removed, old(pending), gone)
    {
      hide TextBelow, Listed, LeastText;
      ghost var was := pending;
      ghost var order: seq<string>, done: set<string> := [], {};
      var ids := gone;
      removed := [];
      ListedNone(was);
      while ids != {}
        invariant ids !! done && ids + done == gone
        invariant pending == was - done
        invariant Listed(removed, order, was, done)
        invariant forall i, x | 0 <= i < |order| && x in ids :: TextBelow(order[i], x)
        decreases |ids|
      {
        LeastTextExists(ids);
        var id :| LeastText(ids, id);
        LeastMeans(ids, id);
        ListedSnoc(removed, order, was, done, id);
        removed := removed + [pending[id].request];
        order, done := order + [id], done + {id};
        pending := pending - {id};
        ids := ids - {id};
      }
    }
  }

  lemma LeastMeans(ids: set<string>, id: string)
    requires LeastText(ids, id)
    ensures id in ids && forall x | x in ids && x != id :: TextBelow(id, x)
  {
  }

  lemma ListedNone(pending: map<string, PendingReview>)
    ensures Listed([], [], pending, {})
  {
  }

  /** `removed` answers for exactly these ids, in their order. */
  ghost predicate Lists(removed: seq<ReviewRequest>, pending: map<string, PendingReview>, gone: set<string>) {
    exists order :: Listed(removed, order, pending, gone)
  }

  ghost predicate Listed(removed: seq<ReviewRequest>, order: seq<string>, pending: map<string, PendingReview>, gone: set<string>) {
    && |order| == |removed|
    && (forall id :: id in order <==> id in gone)
    && (forall i, j | 0 <= i < j < |order| :: TextBelow(order[i], order[j]))
    && (forall i | 0 <= i < |order| :: order[i] in pending && removed[i] == pending[order[i]].request)
  }

  lemma ListedSnoc(removed: seq<ReviewRequest>, order: seq<string>, pending: map<string, PendingReview>, done: set<string>, id: string)
    requires Listed(removed, order, pending, done) && id in pending && forall i | 0 <= i < |order| :: TextBelow(order[i], id)
    ensures Listed(removed + [pending[id].request], order + [id], pending, done + {id})
  {
    hide TextBelow;
  }
}
