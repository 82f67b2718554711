/** One approval, one call: what every run of the review boundary keeps. */
module ReviewRuns {
  import opened Basics
  import opened Semantics
  import opened Ledgers
  import opened LedgerLaws
  import opened Reviews
  import opened Charters
  import TC = ToolContracts

  // ---------------------------------------------------------------- evidence of one approval

  ghost predicate FiledAt(h: seq<Event>, f: int, request: ReviewRequest, call: Option<CallBinding>) {
    && 0 < f < |h|
    && h[f] == Retained(request, call)
    && h[f - 1] == RequestLine(request.(tapeId := ""))
  }

  /** A Consult, a Retry or a Reject of that review, whoever is told of it. */
  predicate TakesBack(e: Event, id: string) {
    e.TakenBack? && e.id == id
  }

  /** Approved at `a` by the supervisor of the request's own scope, after the evidence, and not taken back before `end`. */
  ghost predicate StandsFrom(h: seq<Event>, end: int, a: int, request: ReviewRequest, card: string) {
    && 0 < a < end <= |h|
    && request.scope.Some? && request.scope.value.supervisor.Some?
    && h[a] == Approved(request.id, request.scope.value.supervisor.value, card)
    && h[a - 1] == ResolutionLine(request.id, request.scope.value.supervisor.value.principal, ApproveOnce)
    && forall c | a < c < end :: !TakesBack(h[c], request.id)
  }

  ghost predicate Stands(h: seq<Event>, end: int, request: ReviewRequest, call: Option<CallBinding>, card: string) {
    exists f, a :: FiledAt(h, f, request, call) && f < a && StandsFrom(h, end, a, request, card)
  }

  /** The event at `k` spends a standing approval of exactly this call. */
  ghost predicate Licensed(h: seq<Event>, k: int) {
    && 0 < k < |h| && h[k].LetThrough?
    && h[k - 1] == ConsumedLine(h[k].id)
    && exists request, card ::
         && Stands(h, k, request, Some(h[k].binding), card)
         && request.id == h[k].id && request.scope == Some(h[k].scope) && request.attempt.facts == h[k].facts
         && request.cause.HighRisk?
  }

  /** Nothing about `id` has been let through, or it is past. */
  ghost predicate Explained(g: Gate, id: string) {
    id in g.ledger.pending &&
    var p := g.ledger.pending[id];
    && p.request.id == id
    && (exists f :: FiledAt(g.history, f, p.request, p.call))
    && (p.approverCard.Some? ==>
          && p.request.cause.HighRisk?
          && Stands(g.history, |g.history|, p.request, p.call, p.approverCard.value))
  }

  ghost predicate Sound(g: Gate) {
    && Valid(g.ledger)
    && (forall id | id in g.ledger.pending :: Explained(g, id))
    && (forall k | 0 <= k < |g.history| && g.history[k].LetThrough? ::
          Licensed(g.history, k) && g.history[k].id in g.ledger.seen && g.history[k].id !in g.ledger.pending)
    && (forall j, k | 0 <= j < k < |g.history| && g.history[j].LetThrough? && g.history[k].LetThrough? ::
          g.history[j].id != g.history[k].id)
  }

  // ---------------------------------------------------------------- more history

  lemma FiledGrows(h: seq<Event>, more: seq<Event>, f: int, request: ReviewRequest, call: Option<CallBinding>)
    requires FiledAt(h, f, request, call)
    ensures FiledAt(h + more, f, request, call)
  {
  }

  lemma StandsGrows(h: seq<Event>, more: seq<Event>, request: ReviewRequest, call: Option<CallBinding>, card: string)
    requires Stands(h, |h|, request, call, card)
    requires forall i | 0 <= i < |more| :: !TakesBack(more[i], request.id)
    ensures Stands(h + more, |h + more|, request, call, card)
  {
    var f, a :| FiledAt(h, f, request, call) && f < a && StandsFrom(h, |h|, a, request, card);
    FiledGrows(h, more, f, request, call);
    assert StandsFrom(h + more, |h + more|, a, request, card);
  }

  lemma StandsThere(h: seq<Event>, more: seq<Event>, end: int, request: ReviewRequest, call: Option<CallBinding>, card: string)
    requires Stands(h, end, request, call, card)
    ensures Stands(h + more, end, request, call, card)
  {
    var f, a :| FiledAt(h, f, request, call) && f < a && StandsFrom(h, end, a, request, card);
    FiledGrows(h, more, f, request, call);
    assert StandsFrom(h + more, end, a, request, card);
  }

  lemma LicensedGrows(h: seq<Event>, more: seq<Event>, k: int)
    requires Licensed(h, k)
    ensures Licensed(h + more, k)
  {
    var request, card :| Stands(h, k, request, Some(h[k].binding), card)
      && request.id == h[k].id && request.scope == Some(h[k].scope) && request.attempt.facts == h[k].facts && request.cause.HighRisk?;
    StandsThere(h, more, k, request, Some(h[k].binding), card);
  }

  lemma ExplainedGrows(g: Gate, g': Gate, more: seq<Event>, id: string)
    requires Explained(g, id) && id in g'.ledger.pending && g'.ledger.pending[id] == g.ledger.pending[id]
    requires g'.history == g.history + more && forall i | 0 <= i < |more| :: !TakesBack(more[i], id)
    ensures Explained(g', id)
  {
    var p := g.ledger.pending[id];
    var f :| FiledAt(g.history, f, p.request, p.call);
    FiledGrows(g.history, more, f, p.request, p.call);
    if p.approverCard.Some? {
      StandsGrows(g.history, more, p.request, p.call, p.approverCard.value);
    }
  }

  /** The part of `Sound` that speaks of the past. */
  lemma PastGrows(g: Gate, g': Gate, more: seq<Event>)
    requires Sound(g) && g'.history == g.history + more
    requires g.ledger.seen <= g'.ledger.seen && forall id | id in g.ledger.seen && id !in g.ledger.pending :: id !in g'.ledger.pending
    ensures forall k | 0 <= k < |g.history| && g'.history[k].LetThrough? ::
              Licensed(g'.history, k) && g'.history[k].id in g'.ledger.seen && g'.history[k].id !in g'.ledger.pending
  {
    forall k | 0 <= k < |g.history| && g'.history[k].LetThrough?
      ensures Licensed(g'.history, k) && g'.history[k].id in g'.ledger.seen && g'.history[k].id !in g'.ledger.pending
    {
      assert g'.history[k] == g.history[k];
      LicensedGrows(g.history, more, k);
    }
  }

  predicate Quiet(more: seq<Event>) {
    forall i | 0 <= i < |more| :: !more[i].LetThrough? && !more[i].TakenBack?
  }

  predicate About(more: seq<Event>, id: string) {
    forall i | 0 <= i < |more| :: !more[i].LetThrough? && (more[i].TakenBack? ==> more[i].id == id)
  }

  /** A step that lets nothing through and changes at most the review `id`. */
  lemma StepKeeps(g: Gate, g': Gate, more: seq<Event>, id: string)
    requires Sound(g) && Valid(g'.ledger) && g'.history == g.history + more && About(more, id)
    requires g.ledger.seen <= g'.ledger.seen && (id in g.ledger.seen && id !in g.ledger.pending ==> id !in g'.ledger.pending)
    requires forall x | x in g'.ledger.pending && x != id :: x in g.ledger.pending && g'.ledger.pending[x] == g.ledger.pending[x]
    requires id in g'.ledger.pending ==> Explained(g', id)
    ensures Sound(g')
  {
    hide Valid, Licensed, Explained;
    PastGrows(g, g', more);
    forall x | x in g'.ledger.pending ensures Explained(g', x) {
      if x != id {
        ExplainedGrows(g, g', more, x);
      }
    }
  }

  /** A step that lets nothing through and only removes reviews. */
  lemma QuietKeeps(g: Gate, g': Gate, more: seq<Event>)
    requires Sound(g) && Valid(g'.ledger) && g'.history == g.history + more && Quiet(more)
    requires g.ledger.seen <= g'.ledger.seen
    requires forall id | id in g'.ledger.pending :: id in g.ledger.pending && g'.ledger.pending[id] == g.ledger.pending[id]
    ensures Sound(g')
  {
    hide Valid, Licensed, Explained;
    PastGrows(g, g', more);
    forall id | id in g'.ledger.pending ensures Explained(g', id) {
      ExplainedGrows(g, g', more, id);
    }
  }

  // ---------------------------------------------------------------- each operation

  lemma FilingKeeps(g: Gate, request: ReviewRequest, call: Option<CallBinding>)
    requires Sound(g) && Insert(g.ledger, request, call).1.None?
    ensures Sound(Gate(Insert(g.ledger, request, call).0, g.history + [RequestLine(request.(tapeId := "")), Retained(request, call)]))
  {
    var more := [RequestLine(request.(tapeId := "")), Retained(request, call)];
    var g' := Gate(Insert(g.ledger, request, call).0, g.history + more);
    InsertKeeps(g.ledger, request, call);
    assert request.id !in g.ledger.seen;
    assert Explained(g', request.id) by {
      assert FiledAt(g'.history, |g.history| + 1, request, call);
    }
    assert g'.ledger.pending == g.ledger.pending[request.id := PendingReview(request, call, None)];
    hide Valid, Explained, Insert;
    StepKeeps(g, g', more, request.id);
  }

  /** What `retain_review` can do: a line at most, or a line and one filing. */
  lemma RetainForm(g: Gate, agent: Agent, subject: string, attempt: Attempt, cause: ReviewCause,
                   call: Option<CallBinding>, env: FilingEnv) returns (more: seq<Event>)
    ensures var g' := Retain(g, agent, subject, attempt, cause, call, env).0;
            && g'.history == g.history + more
            && ((g'.ledger == g.ledger && Quiet(more))
                || (&& |more| == 2 && more[1].Retained?
                    && var request := more[1].request;
                       && more == [RequestLine(request.(tapeId := "")), Retained(request, call)]
                       && Insert(g.ledger, request, call) == (g'.ledger, None)))
  {
    var g' := Retain(g, agent, subject, attempt, cause, call, env).0;
    more := g'.history[|g.history|..];
    hide Insert, FactsCurrent, Scope;
  }

  lemma RetainKeeps(g: Gate, agent: Agent, subject: string, attempt: Attempt, cause: ReviewCause,
                    call: Option<CallBinding>, env: FilingEnv)
    requires Sound(g)
    ensures Sound(Retain(g, agent, subject, attempt, cause, call, env).0)
  {
    var g' := Retain(g, agent, subject, attempt, cause, call, env).0;
    var more := RetainForm(g, agent, subject, attempt, cause, call, env);
    hide Retain, Insert;
    if g'.ledger == g.ledger && Quiet(more) {
      QuietKeeps(g, g', more);
    } else {
      FilingKeeps(g, more[1].request, call);
    }
  }

  lemma ApprovingExplained(g: Gate, supervisor: Uuid, id: string, card: string)
    requires Relations(g.ledger) && Explained(g, id) && CheckResolution(g.ledger, supervisor, id, ApproveOnce).None?
    ensures Explained(Gate(Resolve(g.ledger, supervisor, id, ApproveOnce, card).0, g.history +
                           [ResolutionLine(id, supervisor, ApproveOnce), Approved(id, g.ledger.instances[supervisor].instance, card)]), id)
  {
    var p := g.ledger.pending[id];
    var judge := g.ledger.instances[supervisor].instance;
    var h, more := g.history, [ResolutionLine(id, supervisor, ApproveOnce), Approved(id, judge, card)];
    assert judge.principal == supervisor && p.request.scope.value.supervisor == Some(judge);
    hide Relations, Current;
    var f :| FiledAt(h, f, p.request, p.call);
    FiledGrows(h, more, f, p.request, p.call);
    assert StandsFrom(h + more, |h + more|, |h| + 1, p.request, card);
  }

  lemma ApprovingKeeps(g: Gate, supervisor: Uuid, id: string, card: string)
    requires Sound(g) && CheckResolution(g.ledger, supervisor, id, ApproveOnce).None?
    ensures Sound(Gate(Resolve(g.ledger, supervisor, id, ApproveOnce, card).0, g.history +
                       [ResolutionLine(id, supervisor, ApproveOnce), Approved(id, g.ledger.instances[supervisor].instance, card)]))
  {
    hide Licensed, Current, OneWaits, Relations, Ledgers.Filed, StandsFrom, FiledAt;
    assert id in g.ledger.pending && supervisor in g.ledger.instances && Explained(g, id);
    hide Explained, CheckResolution;
    var judge := g.ledger.instances[supervisor].instance;
    var more := [ResolutionLine(id, supervisor, ApproveOnce), Approved(id, judge, card)];
    var g' := Gate(Resolve(g.ledger, supervisor, id, ApproveOnce, card).0, g.history + more);
    ResolveKeeps(g.ledger, supervisor, id, ApproveOnce, card);
    ApprovingExplained(g, supervisor, id, card);
    assert g'.ledger.pending == g.ledger.pending[id := g.ledger.pending[id].(approverCard := Some(card))];
    hide Valid, Resolve;
    StepKeeps(g, g', more, id);
  }

  lemma ConsultingKeeps(g: Gate, supervisor: Uuid, id: string, card: string, more: seq<Event>)
    requires Sound(g) && CheckResolution(g.ledger, supervisor, id, Consult).None?
    requires |more| > 0 && more[0] == TakenBack(id, Consult) && Quiet(more[1..])
    ensures Sound(Gate(Resolve(g.ledger, supervisor, id, Consult, card).0, g.history + more))
  {
    hide Valid, Explained, CheckResolution, Resolve, Licensed;
    ResolveKeeps(g.ledger, supervisor, id, Consult, card);
    ConsultedLedger(g.ledger, supervisor, id, card);
    var g' := Gate(Resolve(g.ledger, supervisor, id, Consult, card).0, g.history + more);
    ConsultedExplained(g, g', id, more);
    assert forall i | 0 < i < |more| :: more[i] == more[1..][i - 1];
    StepKeeps(g, g', more, id);
  }

  lemma RejectingKeeps(g: Gate, supervisor: Uuid, id: string, r: Resolution, card: string, more: seq<Event>)
    requires Sound(g) && CheckResolution(g.ledger, supervisor, id, r).None? && r in {Retry, Reject}
    requires |more| > 0 && more[0] == TakenBack(id, r) && Quiet(more[1..])
    ensures Sound(Gate(Resolve(g.ledger, supervisor, id, r, card).0, g.history + more))
  {
    hide Valid, Explained, CheckResolution, Licensed;
    var g' := Gate(Close(g.ledger, id), g.history + more);
    WithoutKeeps(g.ledger, {id});
    assert forall i | 0 < i < |more| :: more[i] == more[1..][i - 1];
    StepKeeps(g, g', more, id);
  }

  lemma ConsultedLedger(l: Ledger, supervisor: Uuid, id: string, card: string)
    requires CheckResolution(l, supervisor, id, Consult).None?
    ensures var l' := Resolve(l, supervisor, id, Consult, card).0;
            && id in l.pending && l'.seen == l.seen
            && l'.pending == l.pending[id := l.pending[id].(approverCard := None)]
  {
  }

  lemma ConsultedExplained(g: Gate, g': Gate, id: string, more: seq<Event>)
    requires id in g.ledger.pending && Explained(g, id) && g'.history == g.history + more
    requires g'.ledger.pending == g.ledger.pending[id := g.ledger.pending[id].(approverCard := None)]
    ensures Explained(g', id)
  {
    var p := g.ledger.pending[id];
    var f :| FiledAt(g.history, f, p.request, p.call);
    FiledGrows(g.history, more, f, p.request, p.call);
  }

  lemma CheckedMeans(l: Ledger, supervisor: Uuid, id: string, r: Resolution)
    requires CheckResolution(l, supervisor, id, r).None?
    ensures id in l.pending && supervisor in l.instances
  {
  }

  /** What `resolve_review` can do to the ledger and the history. */
  lemma JudgeForm(g: Gate, supervisor: Uuid, id: string, r: Resolution, env: JudgeEnv) returns (more: seq<Event>)
    ensures var (g', e, f) := Judge(g, supervisor, id, r, env);
            && g'.history == g.history + more
            && ((Quiet(more) && (g'.ledger == g.ledger || g'.ledger == Close(g.ledger, id)))
                || (&& CheckResolution(g.ledger, supervisor, id, r).None? && supervisor in env.agents && supervisor in g.ledger.instances
                    && g'.ledger == Resolve(g.ledger, supervisor, id, r, env.agents[supervisor].card).0
                    && ((r == ApproveOnce && more == [ResolutionLine(id, supervisor, r),
                                                      Approved(id, g.ledger.instances[supervisor].instance, env.agents[supervisor].card)])
                        || (r != ApproveOnce && |more| > 0 && more[0] == TakenBack(id, r) && Quiet(more[1..])))))
  {
    hide FactsCurrent, TC.ReviewCeiling, Current, CheckResolution;
    if CheckResolution(g.ledger, supervisor, id, r).None? {
      CheckedMeans(g.ledger, supervisor, id, r);
    }
    var g' := Judge(g, supervisor, id, r, env).0;
    more := g'.history[|g.history|..];
  }

  lemma JudgeKeeps(g: Gate, supervisor: Uuid, id: string, r: Resolution, env: JudgeEnv)
    requires Sound(g)
    ensures Sound(Judge(g, supervisor, id, r, env).0)
  {
    var g' := Judge(g, supervisor, id, r, env).0;
    var more := JudgeForm(g, supervisor, id, r, env);
    WithoutKeeps(g.ledger, {id});
    hide Judge, Resolve, CheckResolution;
    if Quiet(more) && (g'.ledger == g.ledger || g'.ledger == Close(g.ledger, id)) {
      QuietKeeps(g, g', more);
    } else if r == ApproveOnce {
      ApprovingKeeps(g, supervisor, id, env.agents[supervisor].card);
    } else if r == Consult {
      ConsultingKeeps(g, supervisor, id, env.agents[supervisor].card, more);
    } else {
      RejectingKeeps(g, supervisor, id, r, env.agents[supervisor].card, more);
    }
  }

  lemma SpendForm(g: Gate, agent: Agent, call: ToolCall, scope: ReviewScope, facts: seq<FactRef>, id: string, env: CallEnv)
    returns (more: seq<Event>)
    requires id in g.ledger.pending
    ensures var (g', v, record) := Spend(g, agent, call, scope, facts, id, env);
            var p := g.ledger.pending[id];
            && g'.history == g.history + more
            && ((Quiet(more) && (g'.ledger == g.ledger || g'.ledger == Close(g.ledger, id)) && v.Denied?)
                || (&& v == Spent(id) && g'.ledger == Close(g.ledger, id)
                    && more == [ConsumedLine(id), LetThrough(id, scope, CallBinding(call.name, call.text), facts)]
                    && p.approverCard.Some?
                    && CheckCall(g.ledger, id, CallBinding(call.name, call.text), facts, p.approverCard.value) == Ok(true)))
  {
    var g' := Spend(g, agent, call, scope, facts, id, env).0;
    more := g'.history[|g.history|..];
    hide TC.ReviewCeiling, Current;
  }

  lemma LetKeeps(g: Gate, through: Event)
    requires Sound(g) && through.LetThrough? && through.id in g.ledger.seen && through.id !in g.ledger.pending
    requires Licensed(g.history + [through], |g.history|)
    requires forall k | 0 <= k < |g.history| && g.history[k].LetThrough? :: g.history[k].id != through.id
    ensures Sound(Gate(g.ledger, g.history + [through]))
  {
    var g' := Gate(g.ledger, g.history + [through]);
    hide Valid, Licensed, Explained;
    PastGrows(g, g', [through]);
    forall x | x in g'.ledger.pending ensures Explained(g', x) {
      ExplainedGrows(g, g', [through], x);
    }
  }

  lemma SpendingLicensed(h: seq<Event>, p: PendingReview, through: Event)
    requires through.LetThrough? && p.call == Some(through.binding) && p.approverCard.Some?
    requires p.request.id == through.id && p.request.scope == Some(through.scope) && p.request.attempt.facts == through.facts
    requires p.request.cause.HighRisk? && Stands(h, |h|, p.request, p.call, p.approverCard.value)
    ensures Licensed(h + [ConsumedLine(through.id)] + [through], |h| + 1)
  {
    var spent := h + [ConsumedLine(through.id)];
    StandsGrows(h, [ConsumedLine(through.id)], p.request, p.call, p.approverCard.value);
    StandsThere(spent, [through], |spent|, p.request, p.call, p.approverCard.value);
  }

  lemma SpentMeans(g: Gate, id: string, binding: CallBinding, facts: seq<FactRef>)
    requires Valid(g.ledger) && id in g.ledger.pending && Explained(g, id) && g.ledger.pending[id].approverCard.Some?
    requires CheckCall(g.ledger, id, binding, facts, g.ledger.pending[id].approverCard.value) == Ok(true)
    ensures var p := g.ledger.pending[id];
            && p.call == Some(binding) && p.request.attempt.facts == facts && p.request.id == id && id in g.ledger.seen
            && p.request.cause.HighRisk? && Stands(g.history, |g.history|, p.request, p.call, p.approverCard.value)
  {
    hide Current, OneWaits, Relations, Stands;
    assert Ledgers.Filed(g.ledger, id);
  }

  lemma SpendingKeeps(g: Gate, id: string, binding: CallBinding, facts: seq<FactRef>, scope: ReviewScope)
    requires Sound(g) && id in g.ledger.pending && g.ledger.pending[id].approverCard.Some?
    requires CheckCall(g.ledger, id, binding, facts, g.ledger.pending[id].approverCard.value) == Ok(true)
    requires g.ledger.pending[id].request.scope == Some(scope)
    ensures Sound(Gate(Close(g.ledger, id), g.history + [ConsumedLine(id), LetThrough(id, scope, binding, facts)]))
  {
    hide Valid, Explained, Licensed, CheckCall;
    SpentMeans(g, id, binding, facts);
    var spent := Gate(Close(g.ledger, id), g.history + [ConsumedLine(id)]);
    var through := LetThrough(id, scope, binding, facts);
    var p := g.ledger.pending[id];
    WithoutKeeps(g.ledger, {id});
    QuietKeeps(g, spent, [ConsumedLine(id)]);
    SpendingLicensed(g.history, p, through);
    assert g.history + [ConsumedLine(id), through] == spent.history + [through];
    LetKeeps(spent, through);
  }

  lemma ReviewToolKeeps(g: Gate, agent: Agent, call: ToolCall, env: CallEnv)
    requires Sound(g)
    ensures Sound(ReviewTool(g, agent, call, env).0)
  {
    var g' := ReviewTool(g, agent, call, env).0;
    var scoped := Scope(g.ledger, agent.id, None);
    if scoped.Ok? && env.facts.Some? {
      var scope, facts := scoped.value, CallFacts(agent, env.instance, env.facts.value);
      var binding := CallBinding(call.name, call.text);
      match WaitingId(g.ledger, scope, Subject(call.name), true)
      case Some(id) =>
        var spent := Spend(g, agent, call, scope, facts, id, env).0;
        var more := SpendForm(g, agent, call, scope, facts, id, env);
        WithoutKeeps(g.ledger, {id});
        assert g' == spent || g' == g;
        hide Spend, ReviewTool, CheckCall, Sound;
        if Quiet(more) && (spent.ledger == g.ledger || spent.ledger == Close(g.ledger, id)) {
          QuietKeeps(g, spent, more);
        } else {
          SpendingKeeps(g, id, binding, facts, scope);
        }
      case None =>
        RetainKeeps(g, agent, Subject(call.name), CallAttempt(call.name, env.attempt, facts),
                    CallCause(agent.tools, call.name), Some(binding), env.filing);
    }
  }

  // ---------------------------------------------------------------- whole runs

  /** Moves of the ledger that this boundary makes without a review: engagement, mounts, facts, revocation. */
  type Lifecycle = o: Op | o.DoOpen? || o.DoMount? || o.DoUnmount? || o.DoRevoke? || o.DoRetire? || o.DoInvalidate?
    witness DoMount(0)

  datatype Act =
    | Calling(agent: Agent, call: ToolCall, callEnv: CallEnv)
    | Judging(supervisor: Uuid, id: string, resolution: Resolution, judgeEnv: JudgeEnv)
    | Asking(agent: Agent, subject: string, attempt: Attempt, cause: ReviewCause, binding: Option<CallBinding>, env: FilingEnv)
    | Binding(child: Uuid, parent: Uuid, live: bool, line: Appended)
    | Living(op: Lifecycle)

  const START := Gate(EMPTY, [])

  ghost function Do(g: Gate, a: Act): Gate {
    match a
    case Calling(agent, call, env) => ReviewTool(g, agent, call, env).0
    case Judging(supervisor, id, r, env) => Judge(g, supervisor, id, r, env).0
    case Asking(agent, subject, attempt, cause, binding, env) => Retain(g, agent, subject, attempt, cause, binding, env).0
    case Binding(child, parent, live, line) => SetSupervisor(g, child, parent, live, line).0
    case Living(op) => g.(ledger := Apply(g.ledger, op))
  }

  ghost function Course(g: Gate, acts: seq<Act>): Gate
    decreases |acts|
  {
    if acts == [] then g else Course(Do(g, acts[0]), acts[1..])
  }

  lemma LivingKeeps(g: Gate, op: Lifecycle)
    requires Sound(g)
    ensures Sound(g.(ledger := Apply(g.ledger, op)))
  {
    var g' := g.(ledger := Apply(g.ledger, op));
    ApplyKeeps(g.ledger, op);
    LivingRemoves(g.ledger, op);
    assert g'.history == g.history + [];
    hide Apply;
    QuietKeeps(g, g', []);
  }

  lemma LivingRemoves(l: Ledger, op: Lifecycle)
    ensures Apply(l, op).seen == l.seen
    ensures forall id | id in Apply(l, op).pending :: id in l.pending && Apply(l, op).pending[id] == l.pending[id]
  {
  }

  lemma BindingKeeps(g: Gate, child: Uuid, parent: Uuid, live: bool, line: Appended)
    requires Sound(g)
    ensures Sound(SetSupervisor(g, child, parent, live, line).0)
  {
    BindKeeps(g.ledger, child, parent);
    var g' := SetSupervisor(g, child, parent, live, line).0;
    assert g'.history == g.history + [] && g'.ledger.pending == g.ledger.pending && g'.ledger.seen == g.ledger.seen;
    hide SetSupervisor, Bind, CheckBinding, Valid, Explained, Licensed;
    QuietKeeps(g, g', []);
  }

  lemma DoKeeps(g: Gate, a: Act)
    requires Sound(g)
    ensures Sound(Do(g, a))
  {
    hide Sound;
    match a {
      case Calling(agent, call, env) => ReviewToolKeeps(g, agent, call, env);
      case Judging(supervisor, id, r, env) => JudgeKeeps(g, supervisor, id, r, env);
      case Asking(agent, subject, attempt, cause, binding, env) => RetainKeeps(g, agent, subject, attempt, cause, binding, env);
      case Binding(child, parent, live, line) => BindingKeeps(g, child, parent, live, line);
      case Living(op) => LivingKeeps(g, op);
    }
  }

  lemma {:induction false} CourseKeeps(g: Gate, acts: seq<Act>)
    requires Sound(g)
    ensures Sound(Course(g, acts))
    decreases |acts|
  {
    hide Sound, Do;
    if acts != [] {
      DoKeeps(g, acts[0]);
      CourseKeeps(Do(g, acts[0]), acts[1..]);
    }
  }

  /**
   After every course of calls, judgements, requests, bindings, revocations, mounts and failed
   appends: each call let through under Ask spent an id that no other call spent; a request
   for exactly that call, with exactly those facts, had been filed in that scope; the bound
   supervisor instance had approved it after the evidence was written, no Consult, Retry or
   Reject took it back before the call, and the consumption is on the tape. At most one review waits per scope, subject
   and kind.
   */
  lemma {:induction false} ApprovalsAreOneShot(acts: seq<Act>)
    ensures var (h, l) := (Course(START, acts).history, Course(START, acts).ledger);
            && (forall k | 0 <= k < |h| && h[k].LetThrough? :: Licensed(h, k))
            && (forall j, k | 0 <= j < k < |h| && h[j].LetThrough? && h[k].LetThrough? :: h[j].id != h[k].id)
            && OneWaits(l)
  {
    EmptyValid();
    CourseKeeps(START, acts);
  }

  // ---------------------------------------------------------------- closed ids

  predicate Closed(l: Ledger, id: string) {
    id in l.seen && id !in l.pending
  }

  ghost predicate Extends(g: Gate, g': Gate, id: string) {
    && g.history <= g'.history
    && Closed(g'.ledger, id)
    && forall k | |g.history| <= k < |g'.history| && g'.history[k].LetThrough? :: g'.history[k].id != id
  }

  lemma DoExtends(g: Gate, a: Act, id: string)
    requires Closed(g.ledger, id)
    ensures Extends(g, Do(g, a), id)
  {
    match a {
      case Calling(agent, call, env) => CallingExtends(g, agent, call, env, id);
      case Judging(supervisor, x, r, env) =>
        var more := JudgeForm(g, supervisor, x, r, env);
        hide Judge;
        assert Do(g, a).history == g.history + more;
        JudgingExtends(g, supervisor, x, r, env, id);
      case Asking(agent, subject, attempt, cause, binding, env) =>
        RetainExtends(g, agent, subject, attempt, cause, binding, env, id);
      case Binding(child, parent, live, line) => hide CheckBinding;
      case Living(op) => LivingRemoves(g.ledger, op);
    }
  }

  lemma JudgingExtends(g: Gate, supervisor: Uuid, x: string, r: Resolution, env: JudgeEnv, id: string)
    requires Closed(g.ledger, id)
    ensures Extends(g, Judge(g, supervisor, x, r, env).0, id)
  {
    hide FactsCurrent, TC.ReviewCeiling, Current;
  }

  lemma RetainExtends(g: Gate, agent: Agent, subject: string, attempt: Attempt, cause: ReviewCause,
                      call: Option<CallBinding>, env: FilingEnv, id: string)
    requires Closed(g.ledger, id)
    ensures Extends(g, Retain(g, agent, subject, attempt, cause, call, env).0, id)
  {
    var more := RetainForm(g, agent, subject, attempt, cause, call, env);
    hide Retain;
  }

  lemma CallingExtends(g: Gate, agent: Agent, call: ToolCall, env: CallEnv, id: string)
    requires Closed(g.ledger, id)
    ensures Extends(g, ReviewTool(g, agent, call, env).0, id)
  {
    var scoped := Scope(g.ledger, agent.id, None);
    if scoped.Ok? && env.facts.Some? {
      var scope, facts := scoped.value, CallFacts(agent, env.instance, env.facts.value);
      match WaitingId(g.ledger, scope, Subject(call.name), true)
      case Some(x) =>
        var more := SpendForm(g, agent, call, scope, facts, x, env);
        hide Spend, CheckCall;
      case None =>
        RetainExtends(g, agent, Subject(call.name), CallAttempt(call.name, env.attempt, facts),
                      CallCause(agent.tools, call.name), Some(CallBinding(call.name, call.text)), env.filing, id);
        hide Retain;
    }
  }

  /** However the review ended, its id never lets a later call through. */
  lemma {:induction false} ClosedNeverAuthorizes(g: Gate, acts: seq<Act>, id: string)
    requires Closed(g.ledger, id)
    ensures Extends(g, Course(g, acts), id)
    decreases |acts|
  {
    hide Do;
    if acts != [] {
      DoExtends(g, acts[0], id);
      var g1, g2 := Do(g, acts[0]), Course(Do(g, acts[0]), acts[1..]);
      ClosedNeverAuthorizes(g1, acts[1..], id);
      hide Course;
      forall k | |g.history| <= k < |g2.history| && g2.history[k].LetThrough? ensures g2.history[k].id != id {
        if k < |g1.history| {
          assert g2.history[k] == g1.history[k];
        }
      }
    }
  }

  // ---------------------------------------------------------------- one call

  predicate Lawful(tools: seq<TC.Tool>, name: string, consumed: bool) {
    var tag := TC.Tag(tools, name);
    TC.Find(tools, name).Some? && tag.permit != Deny && (tag.permit == Ask ==> consumed)
  }

  /**
   Every record that the tool gate hands to its shadow is lawful, so the shadow agrees: with
   `ToolGateAgrees` no review outcome is ever recorded as different.
   */
  lemma GateRecordsAgree(g: Gate, agent: Agent, call: ToolCall, env: CallEnv, id: string, e: TC.Evidence, consumed: Option<string>)
    requires ReviewTool(g, agent, call, env).2.Some? && TC.Complete(e)
    requires consumed.Some? <==> ReviewTool(g, agent, call, env).2.value.consumed
    ensures TC.ToolGate(agent.tools, call.name, id, e, consumed, ReviewTool(g, agent, call, env).2.value.allowed) == TC.Agree
  {
    var record := ReviewTool(g, agent, call, env).2.value;
    assert record.allowed <==> Lawful(agent.tools, call.name, record.consumed) by {
      RecordsAreLawful(g, agent, call, env);
    }
    hide ReviewTool;
    TC.ToolGateAgrees(agent.tools, call.name, id, e, consumed, record.allowed);
  }

  lemma RecordsAreLawful(g: Gate, agent: Agent, call: ToolCall, env: CallEnv)
    ensures var (g', verdict, record) := ReviewTool(g, agent, call, env);
            && (record.Some? ==> (record.value.allowed <==> Lawful(agent.tools, call.name, record.value.consumed)))
            && (verdict == Free ==> TC.Tag(agent.tools, call.name).permit == Go && g' == g)
            && (verdict.Spent? ==> TC.Tag(agent.tools, call.name).permit == Ask && verdict.id !in g'.ledger.pending)
  {
    hide CheckCall, Retain, TC.FileFits, Allows;
  }

  /** The verdict that `resolve_review` hands to the ceiling's shadow is the ceiling's own, so that shadow agrees too. */
  lemma CeilingRecordsAgree(g: Gate, supervisor: Uuid, id: string, r: Resolution, env: JudgeEnv, check: string, e: TC.Evidence, childId: string)
    requires TC.Complete(e) && childId != "" && Judge(g, supervisor, id, r, env).2.Some?
    ensures var p := g.ledger.pending[id];
            TC.CeilingGate(env.agents[p.request.child].tools, env.agents[supervisor].tools, p.call.value.operation, check, childId, id,
                           e, p.request.tapeId, Judge(g, supervisor, id, r, env).2.value) == TC.Agree
  {
    var p := g.ledger.pending[id];
    hide CheckResolution, TC.ReviewCeiling, FactsCurrent;
    TC.CeilingAgrees(env.agents[p.request.child].tools, env.agents[supervisor].tools, p.call.value.operation, check, childId, id,
                     e, p.request.tapeId, Judge(g, supervisor, id, r, env).2.value);
  }

  lemma TheOnlyOne(l: Ledger, id: string, scope: ReviewScope, subject: string, call: bool)
    requires Ledgers.Valid(l) && id in l.pending && Waits(l.pending[id], scope, subject, call)
    ensures WaitingId(l, scope, subject, call) == Some(id) && l.pending[id].request.id == id
  {
    assert Ledgers.Filed(l, id);
    hide Relations, Ledgers.Filed;
  }
}
