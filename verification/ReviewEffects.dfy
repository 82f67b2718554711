/** What each call at the review boundary achieves: which calls go through, what a judgement leaves, and what ends a review. */
module ReviewEffects {
  import opened Basics
  import opened Semantics
  import opened Ledgers
  import opened LedgerLaws
  import opened LedgerEffects
  import opened Reviews
  import opened ReviewRuns
  import opened Charters
  import TC = ToolContracts

  // ---------------------------------------------------------------- judging

  /** The judgement gets past every check that comes before its first effect. */
  predicate Admits(g: Gate, supervisor: Uuid, id: string, r: Resolution, env: JudgeEnv) {
    && supervisor in env.agents && CheckResolution(g.ledger, supervisor, id, r) == None
    && env.generations.Some? && id in g.ledger.pending
    && FactsCurrent(env.generations.value, g.ledger.pending[id].request.attempt.facts)
    && g.ledger.pending[id].request.child in env.agents
  }

  /** A judgement that is not admitted changes nothing, or ends the review because its facts are no longer current. */
  lemma NotAdmitted(g: Gate, supervisor: Uuid, id: string, r: Resolution, env: JudgeEnv)
    requires !Admits(g, supervisor, id, r, env)
    ensures var (g', e, told) := Judge(g, supervisor, id, r, env);
            && e.Some? && told == None && g'.history == g.history
            && (supervisor in env.agents && CheckResolution(g.ledger, supervisor, id, r) == None && env.generations.Some?
                && !FactsCurrent(env.generations.value, g.ledger.pending[id].request.attempt.facts)
                ==> g'.ledger == Close(g.ledger, id) && e == Some(Refused(Stale)))
            && (g'.ledger == g.ledger || (g'.ledger == Close(g.ledger, id) && e == Some(Refused(Stale))))
  {
    ResolveMeans(g.ledger, supervisor, id, r, "");
    hide CheckResolution, FactsCurrent;
  }

  /**
   An admitted Consult, Retry or Reject takes effect at once, whatever becomes of its line and
   its mail: a consultation takes the approval back, a retry or a rejection ends the review.
   */
  lemma TakingBackMeans(g: Gate, supervisor: Uuid, id: string, r: Resolution, env: JudgeEnv)
    requires Admits(g, supervisor, id, r, env) && r != ApproveOnce
    ensures var (g', e, told) := Judge(g, supervisor, id, r, env);
            && (e == None <==> env.line == Landed && env.sent) && (e.Some? ==> e == Some(Io)) && told == None
            && g'.history == Noted(g.history + [TakenBack(id, r)], ResolutionLine(id, supervisor, r), env.line)
            && (if r == Consult then id in g'.ledger.pending && g'.ledger.pending[id] == g.ledger.pending[id].(approverCard := None)
                else id !in g'.ledger.pending)
            && OthersWait(g.ledger, g'.ledger, id) && g'.ledger.seen == g.ledger.seen && SameStanding(g.ledger, g'.ledger)
  {
    ResolveMeans(g.ledger, supervisor, id, r, env.agents[supervisor].card);
    hide CheckResolution, FactsCurrent, Resolve;
    assert r == Consult ==> Judge(g, supervisor, id, r, env).0.ledger.pending[id] == g.ledger.pending[id].(approverCard := None);
  }

  /**
   An admitted approval succeeds exactly when the ceiling lets this approver release this call,
   its check and its line are recorded, and the child is told. Only then is the card on the review.
   */
  lemma ApprovingMeans(g: Gate, supervisor: Uuid, id: string, env: JudgeEnv)
    requires Admits(g, supervisor, id, ApproveOnce, env)
    ensures g.ledger.pending[id].call.Some?
    ensures var (g', e, told) := Judge(g, supervisor, id, ApproveOnce, env);
            var p := g.ledger.pending[id];
            var (child, approver) := (env.agents[p.request.child], env.agents[supervisor]);
            var fits := TC.ReviewCeiling(child.tools, approver.tools, p.call.value.operation);
            && told == Some(fits)
            && (e == None <==> fits && env.recorded && env.line == Landed && env.sent)
            && (e == None ==>
                  && id in g'.ledger.pending && g'.ledger.pending[id] == p.(approverCard := Some(approver.card))
                  && OthersWait(g.ledger, g'.ledger, id) && g'.ledger.seen == g.ledger.seen && SameStanding(g.ledger, g'.ledger)
                  && supervisor in g.ledger.instances
                  && g'.history == g.history + [ResolutionLine(id, supervisor, ApproveOnce),
                                                Approved(id, g.ledger.instances[supervisor].instance, approver.card)])
            && (e.Some? ==> g'.ledger == g.ledger)
            && (e == Some(Refused(Ceiling)) <==> env.recorded && !fits)
  {
    var approver := env.agents[supervisor];
    ResolveMeans(g.ledger, supervisor, id, ApproveOnce, approver.card);
    Judgeable(g.ledger, supervisor, id);
    hide CheckResolution, FactsCurrent, Resolve, TC.ReviewCeiling;
  }

  lemma Judgeable(l: Ledger, supervisor: Uuid, id: string)
    requires CheckResolution(l, supervisor, id, ApproveOnce) == None
    ensures id in l.pending && l.pending[id].call.Some? && supervisor in l.instances
  {
    hide Current;
  }

  /** A retry or a rejection that was admitted is final: no later act, in any course, lets the call of that review through. */
  lemma RejectionIsFinal(g: Gate, supervisor: Uuid, id: string, r: Resolution, env: JudgeEnv, acts: seq<Act>)
    requires Sound(g) && Admits(g, supervisor, id, r, env) && r in {Retry, Reject}
    ensures var g' := Judge(g, supervisor, id, r, env).0;
            && Extends(g', Course(g', acts), id)
            && forall k | |g.history| <= k < |Course(g', acts).history| && Course(g', acts).history[k].LetThrough? ::
                 Course(g', acts).history[k].id != id
  {
    hide Judge, Sound, CheckResolution, OthersWait, SameStanding, FactsCurrent, Course;
    var g' := Judge(g, supervisor, id, r, env).0;
    TakingBackMeans(g, supervisor, id, r, env);
    SoundSeen(g, id);
    JudgeKeeps(g, supervisor, id, r, env);
    ClosedNeverAuthorizes(g', acts, id);
    NothingNew(g.history, g'.history, Course(g', acts).history, id);
  }

  lemma SoundSeen(g: Gate, id: string)
    requires Sound(g) && id in g.ledger.pending
    ensures id in g.ledger.seen
  {
    hide Explained;
    WasSeen(g.ledger, id);
  }

  lemma NothingNew(before: seq<Event>, told: seq<Event>, after: seq<Event>, id: string)
    requires before <= told <= after && forall k | |before| <= k < |told| :: !told[k].LetThrough?
    requires forall k | |told| <= k < |after| && after[k].LetThrough? :: after[k].id != id
    ensures forall k | |before| <= k < |after| && after[k].LetThrough? :: after[k].id != id
  {
    assert forall k | |before| <= k < |told| :: after[k] == told[k];
  }

  // ---------------------------------------------------------------- filing

  /**
   A request that nothing answers yet is filed for its supervisor once its line is written and the
   supervisor is told; without a supervisor it is only on the tape; one that waits already is
   answered with that one, and nothing is written.
   */
  lemma FilingMeans(g: Gate, agent: Agent, subject: string, attempt: Attempt, cause: ReviewCause,
                    call: Option<CallBinding>, env: FilingEnv)
    requires Valid(g.ledger) && MountOf(attempt.facts, env.parse).Ok?
    requires Scope(g.ledger, agent.id, MountOf(attempt.facts, env.parse).value).Ok?
    requires env.generations.Some? && FactsCurrent(env.generations.value, attempt.facts)
    ensures var scope := Scope(g.ledger, agent.id, MountOf(attempt.facts, env.parse).value).value;
            var (g', r) := Retain(g, agent, subject, attempt, cause, call, env);
            if SomeoneWaits(g.ledger, scope, subject, call.Some?)
            then r.Ok? && g' == g && r.value in g.ledger.pending && Waits(g.ledger.pending[r.value], scope, subject, call.Some?)
            else
              && (r == Ok(env.id) <==>
                    env.line == Landed && (scope.supervisor.Some? ==> env.sent && env.id !in g.ledger.seen))
              && (r.Ok? ==> r == Ok(env.id))
              && (r.Ok? && scope.supervisor.Some? ==>
                    && env.id in g'.ledger.pending && OthersWait(g.ledger, g'.ledger, env.id)
                    && var p := g'.ledger.pending[env.id];
                       && p.approverCard == None && p.call == call && p.request.attempt == attempt && p.request.cause == cause
                       && Waits(p, scope, subject, call.Some?) && p.request.id == env.id && p.request.tapeId == env.tapeId
                       && p.request.supervisor == Some(scope.supervisor.value.principal))
              && (r.Err? || scope.supervisor.None? ==> g'.ledger == g.ledger)
  {
    hide Valid, FactsCurrent, MountOf, Scope, Current, Insert, Waits, OthersWait, SameStanding;
    var mount := MountOf(attempt.facts, env.parse).value;
    var scope := Scope(g.ledger, agent.id, mount).value;
    ScopeAgain(g.ledger, agent.id, mount);
    if !SomeoneWaits(g.ledger, scope, subject, call.Some?) && scope.supervisor.Some? {
      var supervisor := Some(scope.supervisor.value.principal);
      NewIsFiled(g.ledger, ReviewRequest(env.id, agent.id, supervisor, subject, attempt, cause, env.tapeId, Some(scope)), call, scope);
    }
    hide SomeoneWaits;
  }

  /** A request in a scope of now, for which nothing waits, is filed exactly if its id is new. */
  lemma NewIsFiled(l: Ledger, request: ReviewRequest, call: Option<CallBinding>, scope: ReviewScope)
    requires request.scope == Some(scope) && Current(l, scope) && request.child == scope.child.principal
    requires scope.supervisor.Some? && request.supervisor == Some(scope.supervisor.value.principal)
    requires !SomeoneWaits(l, scope, request.subject, call.Some?)
    ensures var (l', e) := Insert(l, request, call);
            && (e == None <==> request.id !in l.seen)
            && (e.Some? ==> l' == l)
            && (e == None ==>
                  && request.id in l'.pending && l'.pending[request.id] == PendingReview(request, call, None) && OthersWait(l, l', request.id)
                  && Waits(l'.pending[request.id], scope, request.subject, call.Some?))
  {
    hide Current;
  }

  /** A request is refused, and nothing changes, exactly for a body it cannot read, a scope it cannot take, facts it cannot compare, or facts that are stale. */
  lemma FilingRefused(g: Gate, agent: Agent, subject: string, attempt: Attempt, cause: ReviewCause,
                      call: Option<CallBinding>, env: FilingEnv)
    ensures var (g', r) := Retain(g, agent, subject, attempt, cause, call, env);
            var mount := MountOf(attempt.facts, env.parse);
            && (mount.Err? ==> g' == g && r == Err(Invalid))
            && (mount.Ok? && Scope(g.ledger, agent.id, mount.value).Err? ==>
                  g' == g && r == Err(Refused(Scope(g.ledger, agent.id, mount.value).error)))
            && (mount.Ok? && Scope(g.ledger, agent.id, mount.value).Ok? && env.generations.None? ==> g' == g && r == Err(Io))
            && (mount.Ok? && Scope(g.ledger, agent.id, mount.value).Ok? && env.generations.Some? ==>
                  !FactsCurrent(env.generations.value, attempt.facts) ==> g' == g && r == Err(Refused(Stale)))
  {
    MountError(attempt.facts, env.parse);
    hide Scope, FactsCurrent, MountOf, WaitingId, Insert;
  }

  lemma {:induction false} MountError(facts: seq<FactRef>, parse: map<string, Uuid>)
    ensures MountOf(facts, parse).Err? ==> MountOf(facts, parse).error == Invalid
  {
    if facts != [] {
      MountError(facts[1..], parse);
    }
  }

  lemma ScopeAgain(l: Ledger, child: Uuid, mount: Option<Uuid>)
    requires Valid(l) && Scope(l, child, mount).Ok?
    ensures Current(l, Scope(l, child, mount).value) && Scope(l, child, mount).value.child.principal == child
  {
  }

  // ---------------------------------------------------------------- calling

  /** What the gate reads before it looks for a review: the scope of the caller and the facts of the call. */
  predicate Gathered(g: Gate, agent: Agent, env: CallEnv) {
    env.valid && Scope(g.ledger, agent.id, None).Ok? && env.facts.Some?
  }

  predicate RunsFreely(agent: Agent, call: ToolCall) {
    TC.Find(agent.tools, call.name).Some? && TC.Tag(agent.tools, call.name).permit == Go
  }

  /** A call runs without a review exactly if it is a granted tool under Go, of a live agent, whose check is recorded. */
  lemma FreeIff(g: Gate, agent: Agent, call: ToolCall, env: CallEnv)
    ensures var (g', v, record) := ReviewTool(g, agent, call, env);
            && (v == Free <==> env.valid && Scope(g.ledger, agent.id, None).Ok? && RunsFreely(agent, call) && env.recorded)
            && (RunsFreely(agent, call) || !Gathered(g, agent, env) ==> g' == g)
  {
    hide Spend, Retain, TC.Find, TC.Tag, Scope;
    var scoped := Scope(g.ledger, agent.id, None);
    if Gathered(g, agent, env) && !RunsFreely(agent, call) {
      var facts := CallFacts(agent, env.instance, env.facts.value);
      WaitingMeans(g.ledger, scoped.value, Subject(call.name), true);
      if SomeoneWaits(g.ledger, scoped.value, Subject(call.name), true) {
        SpendNeverFree(g, agent, call, scoped.value, facts, WaitingId(g.ledger, scoped.value, Subject(call.name), true).value, env);
      }
    }
  }

  /**
   An agent whose charter does not let calls run freely, and whose tools its charter allows, never runs one freely.
   A tool that declares no tag is under review.
   */
  lemma BoundedNeverFree(g: Gate, agent: Agent, call: ToolCall, env: CallEnv, bound: Charter)
    requires forall tool | tool in agent.tools && tool.seed.Some? :: Allows(bound, tool.seed.value)
    requires bound.tag.permit != Go
    ensures ReviewTool(g, agent, call, env).1 != Free
  {
    FreeIff(g, agent, call, env);
    FindIsIn(agent.tools, call.name);
    hide ReviewTool, TC.Find, Scope, FileWithin, MemoryAllows;
    if TC.Find(agent.tools, call.name).Some? && TC.Find(agent.tools, call.name).value.seed.Some? {
      PermitMeans(TC.Find(agent.tools, call.name).value.seed.value.permit, bound.tag.permit);
    }
  }

  lemma {:induction false} FindIsIn(tools: seq<TC.Tool>, name: string)
    ensures TC.Find(tools, name).Some? ==> TC.Find(tools, name).value in tools
  {
    if tools != [] && tools[0].name != name {
      FindIsIn(tools[1..], name);
    }
  }

  lemma WaitingMeans(l: Ledger, scope: ReviewScope, subject: string, call: bool)
    ensures WaitingId(l, scope, subject, call).Some? <==> SomeoneWaits(l, scope, subject, call)
    ensures SomeoneWaits(l, scope, subject, call) ==>
              var id := WaitingId(l, scope, subject, call).value; id in l.pending && Waits(l.pending[id], scope, subject, call)
  {
  }

  lemma SpendNeverFree(g: Gate, agent: Agent, call: ToolCall, scope: ReviewScope, facts: seq<FactRef>, id: string, env: CallEnv)
    requires id in g.ledger.pending
    ensures Spend(g, agent, call, scope, facts, id, env).1 != Free
  {
    hide CheckCall, TC.ReviewCeiling;
  }

  /** The review is approved for exactly this call, by a card that still is the approver's, and the ceiling still holds. */
  predicate Redeemable(g: Gate, agent: Agent, call: ToolCall, facts: seq<FactRef>, id: string, env: CallEnv) {
    && id in g.ledger.pending
    && var p := g.ledger.pending[id];
       && p.request.supervisor.Some? && p.request.supervisor.value in env.agents
       && var approver := env.agents[p.request.supervisor.value];
          && p.approverCard == Some(approver.card) && p.call == Some(CallBinding(call.name, call.text)) && p.request.attempt.facts == facts
          && TC.ReviewCeiling(agent.tools, approver.tools, call.name)
  }

  lemma CheckCallIff(l: Ledger, id: string, call: CallBinding, facts: seq<FactRef>, card: string)
    requires Valid(l)
    ensures var r := CheckCall(l, id, call, facts, card);
            && (r == Err(Missing) <==> id !in l.pending)
            && (r.Err? ==> r.error in {Missing, Stale})
            && (id in l.pending ==>
                  && var p := l.pending[id];
                     && (r.Ok? <==> p.call == Some(call) && p.request.attempt.facts == facts && (p.approverCard.Some? ==> p.approverCard == Some(card)))
                     && (r.Ok? ==> r.value == p.approverCard.Some?))
  {
    assert id in l.pending ==> Ledgers.Filed(l, id);
    hide Relations, OneWaits, Current;
  }

  /**
   What a call does with the review that waits for it: it is spent exactly if it is redeemable and
   its consumption and its check are recorded. A redeemable review is closed even if they are
   not; one that no longer fits the call is closed as stale; one that nobody has approved yet
   keeps waiting.
   */
  lemma SpendIff(g: Gate, agent: Agent, call: ToolCall, scope: ReviewScope, facts: seq<FactRef>, id: string, env: CallEnv)
    requires Valid(g.ledger) && id in g.ledger.pending
    ensures var (g', v, record) := Spend(g, agent, call, scope, facts, id, env);
            var p := g.ledger.pending[id];
            && (v == Spent(id) <==> Redeemable(g, agent, call, facts, id, env) && env.consumed == Landed && env.recorded)
            && (v.Spent? ==> v == Spent(id)) && v != Free
            && (Redeemable(g, agent, call, facts, id, env) ==> g'.ledger == Close(g.ledger, id))
            && (v == Spent(id) ==> g'.history == g.history + [ConsumedLine(id), LetThrough(id, scope, CallBinding(call.name, call.text), facts)])
            && (v == Denied(Refused(Stale)) ==> g' == g.(ledger := Close(g.ledger, id)))
            && (g'.ledger == g.ledger || g'.ledger == Close(g.ledger, id))
            && (p.request.supervisor.Some? && p.request.supervisor.value in env.agents
                && p.call == Some(CallBinding(call.name, call.text)) && p.request.attempt.facts == facts && p.approverCard == None
                ==> g' == g && v == Recorded(env, Required(id)))
  {
    var p := g.ledger.pending[id];
    if p.request.supervisor.Some? && p.request.supervisor.value in env.agents {
      CheckCallIff(g.ledger, id, CallBinding(call.name, call.text), facts, env.agents[p.request.supervisor.value].card);
    }
    hide CheckCall, TC.ReviewCeiling, Valid;
  }

  /** A call under Ask for which nothing waits is filed as a high-risk review of exactly that call, and held back. */
  lemma CallFiles(g: Gate, agent: Agent, call: ToolCall, env: CallEnv)
    requires Valid(g.ledger) && Gathered(g, agent, env)
    requires TC.Find(agent.tools, call.name).Some? && TC.Tag(agent.tools, call.name).permit == Ask
    requires !SomeoneWaits(g.ledger, Scope(g.ledger, agent.id, None).value, Subject(call.name), true)
    requires var facts := CallFacts(agent, env.instance, env.facts.value);
             && MountOf(facts, env.filing.parse) == Ok(None)
             && env.filing.generations.Some? && FactsCurrent(env.filing.generations.value, facts)
             && env.filing.line == Landed && env.filing.sent && env.filing.id !in g.ledger.seen && env.recorded
    ensures var scope := Scope(g.ledger, agent.id, None).value;
            var facts := CallFacts(agent, env.instance, env.facts.value);
            var (g', v, record) := ReviewTool(g, agent, call, env);
            && v == Denied(Required(env.filing.id))
            && (scope.supervisor.Some? ==> WaitsFor(g, g', scope, env.filing.id, call, facts))
  {
    var scope := Scope(g.ledger, agent.id, None).value;
    var facts := CallFacts(agent, env.instance, env.facts.value);
    WaitingMeans(g.ledger, scope, Subject(call.name), true);
    FilingMeans(g, agent, Subject(call.name), CallAttempt(call.name, env.attempt, facts), CallCause(agent.tools, call.name),
                Some(CallBinding(call.name, call.text)), env.filing);
    RetainStanding(g, agent, Subject(call.name), CallAttempt(call.name, env.attempt, facts), CallCause(agent.tools, call.name),
                   Some(CallBinding(call.name, call.text)), env.filing);
    hide Retain, Valid, Scope, FactsCurrent, MountOf, Spend, SomeoneWaits, TC.Find, CallFacts;
  }

  /** A call is high-risk exactly if its tool is on the card under Ask; an absent one and a denied one are told apart. */
  lemma CauseMeans(tools: seq<TC.Tool>, name: string)
    ensures var cause := CallCause(tools, name);
            && (cause.HighRisk? <==> TC.Find(tools, name).Some? && TC.Tag(tools, name).permit == Ask)
            && (!cause.HighRisk? ==>
                  cause == PermissionDenied(if TC.Find(tools, name).None? then "tool is not granted" else "tool permit denies execution"))
  {
    hide TC.Find;
  }

  /** A call of a tool that the card lacks or denies is filed all the same, but no judgement, by anybody, approves it. */
  lemma DeniedIsNeverApproved(g: Gate, agent: Agent, call: ToolCall, env: CallEnv, supervisor: Uuid, judge: JudgeEnv)
    requires Valid(g.ledger) && Gathered(g, agent, env)
    requires TC.Find(agent.tools, call.name).None? || TC.Tag(agent.tools, call.name).permit == Deny
    requires !SomeoneWaits(g.ledger, Scope(g.ledger, agent.id, None).value, Subject(call.name), true)
    requires var facts := CallFacts(agent, env.instance, env.facts.value);
             && MountOf(facts, env.filing.parse) == Ok(None)
             && env.filing.generations.Some? && FactsCurrent(env.filing.generations.value, facts)
             && env.filing.line == Landed && env.filing.sent && env.filing.id !in g.ledger.seen && env.recorded
    ensures var (g', v, _) := ReviewTool(g, agent, call, env);
            && v == Denied(Required(env.filing.id))
            && Judge(g', supervisor, env.filing.id, ApproveOnce, judge).1.Some?
  {
    var scope := Scope(g.ledger, agent.id, None).value;
    var facts := CallFacts(agent, env.instance, env.facts.value);
    var (attempt, cause) := (CallAttempt(call.name, env.attempt, facts), CallCause(agent.tools, call.name));
    var binding := Some(CallBinding(call.name, call.text));
    WaitingMeans(g.ledger, scope, Subject(call.name), true);
    FilingMeans(g, agent, Subject(call.name), attempt, cause, binding, env.filing);
    CauseMeans(agent.tools, call.name);
    hide Retain, Valid, Scope, FactsCurrent, MountOf, Spend, SomeoneWaits, TC.Find, TC.Tag, CallFacts, CallCause;
    var g' := Retain(g, agent, Subject(call.name), attempt, cause, binding, env.filing).0;
    assert ReviewTool(g, agent, call, env).0 == g';
    SeenIsFiled(g.ledger, env.filing.id);
    NotForApproval(g', supervisor, env.filing.id, judge);
  }

  lemma SeenIsFiled(l: Ledger, id: string)
    requires Valid(l) && id !in l.seen
    ensures id !in l.pending
  {
    assert id in l.pending ==> Ledgers.Filed(l, id);
  }

  lemma NotForApproval(g: Gate, supervisor: Uuid, id: string, judge: JudgeEnv)
    requires id in g.ledger.pending ==> !g.ledger.pending[id].request.cause.HighRisk?
    ensures Judge(g, supervisor, id, ApproveOnce, judge).1.Some?
  {
    hide Current, FactsCurrent, TC.ReviewCeiling, Resolve;
    assert CheckResolution(g.ledger, supervisor, id, ApproveOnce).Some?;
  }

  /** No answer of the gate is given without its check on record: none that lets a call through, and none that asks for a review. */
  lemma AnswersAreRecorded(g: Gate, agent: Agent, call: ToolCall, env: CallEnv)
    ensures var (_, v, record) := ReviewTool(g, agent, call, env);
            && (v == Free ==> env.recorded && record == Some(GateRecord(false, true)))
            && (v.Spent? ==> env.recorded && record == Some(GateRecord(true, true)))
            && (v.Denied? && v.failure.Required? ==> env.recorded && record == Some(GateRecord(false, false)))
  {
    hide Spend, Retain, TC.Find, TC.Tag, Scope;
    var scoped := Scope(g.ledger, agent.id, None);
    if Gathered(g, agent, env) && !RunsFreely(agent, call) {
      var facts := CallFacts(agent, env.instance, env.facts.value);
      WaitingMeans(g.ledger, scoped.value, Subject(call.name), true);
      if SomeoneWaits(g.ledger, scoped.value, Subject(call.name), true) {
        SpendRecorded(g, agent, call, scoped.value, facts, WaitingId(g.ledger, scoped.value, Subject(call.name), true).value, env);
      } else {
        FilingNeverRequires(g, agent, Subject(call.name), CallAttempt(call.name, env.attempt, facts), CallCause(agent.tools, call.name),
                            Some(CallBinding(call.name, call.text)), env.filing);
      }
    }
  }

  lemma SpendRecorded(g: Gate, agent: Agent, call: ToolCall, scope: ReviewScope, facts: seq<FactRef>, id: string, env: CallEnv)
    requires id in g.ledger.pending
    ensures var (_, v, record) := Spend(g, agent, call, scope, facts, id, env);
            && v != Free
            && (v.Spent? ==> env.recorded && record == Some(GateRecord(true, true)))
            && (v.Denied? && v.failure.Required? ==> env.recorded && record == Some(GateRecord(false, false)))
  {
    hide CheckCall, TC.ReviewCeiling;
  }

  lemma FilingNeverRequires(g: Gate, agent: Agent, subject: string, attempt: Attempt, cause: ReviewCause,
                            call: Option<CallBinding>, env: FilingEnv)
    ensures var r := Retain(g, agent, subject, attempt, cause, call, env).1; r.Err? ==> !r.error.Required?
  {
    MountError(attempt.facts, env.parse);
    hide Scope, FactsCurrent, MountOf, WaitingId, Insert;
  }

  lemma RetainStanding(g: Gate, agent: Agent, subject: string, attempt: Attempt, cause: ReviewCause,
                       call: Option<CallBinding>, env: FilingEnv)
    ensures SameStanding(g.ledger, Retain(g, agent, subject, attempt, cause, call, env).0.ledger)
  {
    hide FactsCurrent, MountOf, Scope, Current, SomeoneWaits;
  }

  /** The one new review: of this call on these facts, for the supervisor of this scope, high-risk, and not approved. */
  predicate WaitsFor(g: Gate, g': Gate, scope: ReviewScope, id: string, call: ToolCall, facts: seq<FactRef>) {
    && id in g'.ledger.pending && OthersWait(g.ledger, g'.ledger, id) && SameStanding(g.ledger, g'.ledger)
    && var p := g'.ledger.pending[id];
       && p.approverCard == None && p.call == Some(CallBinding(call.name, call.text)) && p.request.attempt.facts == facts
       && p.request.cause.HighRisk? && p.request.id == id && Waits(p, scope, Subject(call.name), true)
       && scope.supervisor.Some? && p.request.supervisor == Some(scope.supervisor.value.principal)
  }

  lemma ScopeSame(l: Ledger, l': Ledger, child: Uuid)
    requires SameStanding(l, l')
    ensures Scope(l', child, None) == Scope(l, child, None)
  {
  }

  lemma FiledIsJudged(g: Gate, filed: Gate, agent: Agent, supervisor: Uuid, scope: ReviewScope, id: string, call: ToolCall,
                      facts: seq<FactRef>, judge: JudgeEnv)
    requires Valid(g.ledger) && Valid(filed.ledger) && WaitsFor(g, filed, scope, id, call, facts) && Scope(g.ledger, agent.id, None) == Ok(scope)
    requires supervisor in g.ledger.instances && scope.supervisor == Some(g.ledger.instances[supervisor].instance)
    requires judge.generations.Some? && FactsCurrent(judge.generations.value, facts)
    requires agent.id in judge.agents && judge.agents[agent.id].tools == agent.tools && supervisor in judge.agents
    requires judge.recorded && judge.line == Landed && judge.sent
    requires TC.ReviewCeiling(agent.tools, judge.agents[supervisor].tools, call.name)
    ensures var (approved, e, told) := Judge(filed, supervisor, id, ApproveOnce, judge);
            && e == None && id in approved.ledger.pending
            && approved.ledger.pending[id] == filed.ledger.pending[id].(approverCard := Some(judge.agents[supervisor].card))
            && SameStanding(filed.ledger, approved.ledger) && approved.ledger.seen == filed.ledger.seen
  {
    ResolvesIff(filed.ledger, supervisor, id, ApproveOnce);
    ScopedChild(g.ledger, agent.id, scope);
    FiledChild(filed.ledger, id, agent.id, scope);
    hide Valid, FactsCurrent, TC.ReviewCeiling, CheckResolution, Judge, Scope;
    ApprovingMeans(filed, supervisor, id, judge);
  }

  lemma ScopedChild(l: Ledger, child: Uuid, scope: ReviewScope)
    requires Valid(l) && Scope(l, child, None) == Ok(scope)
    ensures scope.child.principal == child
  {
    ScopeIff(l, child, None);
  }

  lemma FiledChild(l: Ledger, id: string, child: Uuid, scope: ReviewScope)
    requires Valid(l) && id in l.pending && l.pending[id].request.scope == Some(scope) && scope.child.principal == child
    ensures l.pending[id].request.child == child
  {
    assert Ledgers.Filed(l, id);
  }

  /** A call that finds its approved review spends it. */
  lemma ApprovedIsSpent(g: Gate, agent: Agent, call: ToolCall, scope: ReviewScope, id: string, env: CallEnv)
    requires Valid(g.ledger) && Gathered(g, agent, env) && Scope(g.ledger, agent.id, None) == Ok(scope) && !RunsFreely(agent, call)
    requires id in g.ledger.pending && Waits(g.ledger.pending[id], scope, Subject(call.name), true)
    requires Redeemable(g, agent, call, CallFacts(agent, env.instance, env.facts.value), id, env)
    ensures ReviewTool(g, agent, call, env).0.ledger == Close(g.ledger, id)
    ensures ReviewTool(g, agent, call, env).1 == Spent(id) <==> env.consumed == Landed && env.recorded
  {
    TheOnlyOne(g.ledger, id, scope, Subject(call.name), true);
    SpendIff(g, agent, call, scope, CallFacts(agent, env.instance, env.facts.value), id, env);
    hide Spend, Valid, Redeemable, Scope, TC.Find, TC.Tag, WaitingId;
  }

  /** Nothing fails, and the facts, the cards and the incarnation do not change. */
  predicate Undisturbed(g: Gate, agent: Agent, call: ToolCall, supervisor: Uuid, env: CallEnv, judge: JudgeEnv) {
    && Gathered(g, agent, env) && env.consumed == Landed && env.recorded && supervisor in env.agents
    && judge.recorded && judge.line == Landed && judge.sent && judge.agents == env.agents
    && env.filing.line == Landed && env.filing.sent && env.filing.id !in g.ledger.seen
    && var facts := CallFacts(agent, env.instance, env.facts.value);
       && MountOf(facts, env.filing.parse) == Ok(None)
       && env.filing.generations.Some? && FactsCurrent(env.filing.generations.value, facts) && judge.generations == env.filing.generations
  }

  /**
   The whole way: a call under Ask is held back and filed; the supervisor it is bound to, whose own
   card runs it freely, approves it; the same call on the same facts then goes through and spends
   the review; and whatever is called next does not spend it again.
   */
  lemma ApprovedCallGoesThrough(g: Gate, agent: Agent, call: ToolCall, supervisor: Uuid, env: CallEnv, judge: JudgeEnv, next: Act)
    requires Sound(g) && Undisturbed(g, agent, call, supervisor, env, judge)
    requires agent.id in env.agents && env.agents[agent.id] == agent
    requires supervisor in g.ledger.instances
    requires Scope(g.ledger, agent.id, None).value.supervisor == Some(g.ledger.instances[supervisor].instance)
    requires !SomeoneWaits(g.ledger, Scope(g.ledger, agent.id, None).value, Subject(call.name), true)
    requires TC.ReviewCeiling(agent.tools, env.agents[supervisor].tools, call.name)
    ensures var id := env.filing.id;
            var (filed, held, _) := ReviewTool(g, agent, call, env);
            var (approved, e, _) := Judge(filed, supervisor, id, ApproveOnce, judge);
            var (spent, through, _) := ReviewTool(approved, agent, call, env);
            && held == Denied(Required(id)) && e == None && through == Spent(id)
            && Extends(spent, Do(spent, next), id)
  {
    var id := env.filing.id;
    var scope := Scope(g.ledger, agent.id, None).value;
    var facts := CallFacts(agent, env.instance, env.facts.value);
    CeilingAsks(agent, env.agents[supervisor].tools, call.name);
    var filed := ReviewTool(g, agent, call, env).0;
    CallFiles(g, agent, call, env);
    ReviewToolKeeps(g, agent, call, env);
    var approved := Judge(filed, supervisor, id, ApproveOnce, judge).0;
    hide ReviewTool, Judge, TC.ReviewCeiling, TC.Find, TC.Tag, FactsCurrent, MountOf, Scope, SomeoneWaits, Licensed, Explained;
    FiledIsJudged(g, filed, agent, supervisor, scope, id, call, facts, judge);
    JudgeKeeps(filed, supervisor, id, ApproveOnce, judge);
    ScopeSame(g.ledger, filed.ledger, agent.id);
    ScopeSame(filed.ledger, approved.ledger, agent.id);
    hide Valid, SameStanding;
    ApprovedIsSpent(approved, agent, call, scope, id, env);
    var spent := ReviewTool(approved, agent, call, env).0;
    WasSeen(filed.ledger, id);
    DoExtends(spent, next, id);
  }

  lemma CeilingAsks(agent: Agent, tools: seq<TC.Tool>, name: string)
    requires TC.ReviewCeiling(agent.tools, tools, name)
    ensures TC.Find(agent.tools, name).Some? && TC.Tag(agent.tools, name).permit == Ask
  {
    hide TC.Find, TC.FileFits, Allows;
  }

  /** A tool that the card lacks or denies runs on no review either, whatever was filed and approved before. */
  lemma DeniedNeverRuns(g: Gate, agent: Agent, call: ToolCall, env: CallEnv)
    requires Valid(g.ledger)
    requires TC.Find(agent.tools, call.name).None? || TC.Tag(agent.tools, call.name).permit == Deny
    ensures ReviewTool(g, agent, call, env).1.Denied?
  {
    FreeIff(g, agent, call, env);
    hide Valid, Spend, Retain, TC.Find, TC.Tag, Scope;
    var scoped := Scope(g.ledger, agent.id, None);
    if Gathered(g, agent, env) {
      var facts := CallFacts(agent, env.instance, env.facts.value);
      WaitingMeans(g.ledger, scoped.value, Subject(call.name), true);
      if SomeoneWaits(g.ledger, scoped.value, Subject(call.name), true) {
        var id := WaitingId(g.ledger, scoped.value, Subject(call.name), true).value;
        SpendIff(g, agent, call, scoped.value, facts, id, env);
        NoCeiling(g, agent, call, facts, id, env);
      }
    }
  }

  lemma NoCeiling(g: Gate, agent: Agent, call: ToolCall, facts: seq<FactRef>, id: string, env: CallEnv)
    requires TC.Find(agent.tools, call.name).None? || TC.Tag(agent.tools, call.name).permit == Deny
    ensures !Redeemable(g, agent, call, facts, id, env)
  {
    hide TC.Find, TC.FileFits, Allows;
  }

  // ---------------------------------------------------------------- facts

  /** Facts are current if no generation of now gives another revision of one of their kinds. */
  lemma FactsMean(generations: seq<FactRef>, facts: seq<FactRef>)
    ensures FactsCurrent(generations, facts) <==>
            forall f, now | f in facts && now in generations && f.kind == now.kind :: f.revision == now.revision
  {
    if FactsCurrent(generations, facts) {
      forall f, now | f in facts && now in generations && f.kind == now.kind ensures f.revision == now.revision {
        var i :| 0 <= i < |facts| && facts[i] == f;
        var j :| 0 <= j < |generations| && generations[j] == now;
      }
    } else {
      var j, i :| 0 <= j < |generations| && 0 <= i < |facts| && facts[i].kind == generations[j].kind && facts[i] != generations[j];
      assert facts[i] in facts && generations[j] in generations;
    }
  }

  /** The first fact that names a body. */
  predicate NamesFirst(facts: seq<FactRef>, i: nat) {
    i < |facts| && facts[i].kind == "spool.instance" && forall j | 0 <= j < i :: facts[j].kind != "spool.instance"
  }

  /** The first fact that names a body decides on which one a request is made; one that cannot be read refuses it. */
  lemma {:induction false} MountMeans(facts: seq<FactRef>, parse: map<string, Uuid>)
    ensures MountOf(facts, parse) == Ok(None) <==> forall f | f in facts :: f.kind != "spool.instance"
    ensures forall i: nat | NamesFirst(facts, i) ::
              MountOf(facts, parse) == if facts[i].revision in parse then Ok(Some(parse[facts[i].revision])) else Err(Invalid)
    ensures MountOf(facts, parse) != Ok(None) ==> exists i: nat :: NamesFirst(facts, i)
  {
    if facts != [] {
      if facts[0].kind == "spool.instance" {
        assert NamesFirst(facts, 0);
      } else {
        MountMeans(facts[1..], parse);
        assert forall f | f in facts :: f == facts[0] || f in facts[1..];
        forall i: nat ensures NamesFirst(facts, i) <==> i > 0 && NamesFirst(facts[1..], i - 1) {
          NamesLater(facts, i);
        }
        hide NamesFirst;
        if i: nat :| NamesFirst(facts[1..], i) {
          assert NamesFirst(facts, i + 1);
        }
      }
    }
  }

  lemma NamesLater(facts: seq<FactRef>, i: nat)
    requires facts != [] && facts[0].kind != "spool.instance"
    ensures NamesFirst(facts, i) <==> i > 0 && NamesFirst(facts[1..], i - 1)
  {
    if i > 0 && NamesFirst(facts[1..], i - 1) {
      assert forall j | 0 < j < i :: facts[j] == facts[1..][j - 1];
    }
    if i > 0 && NamesFirst(facts, i) {
      assert forall j | 0 <= j < i - 1 :: facts[1..][j] == facts[j + 1];
    }
  }

  /** The facts and the subject of a call tell its caller, its card, its incarnation and its tool apart, so no approval serves another. */
  lemma FactsBindTheCall(agent: Agent, other: Agent, instance: string, instance': string, gathered: seq<FactRef>, gathered': seq<FactRef>,
                         name: string, name': string)
    ensures CallFacts(agent, instance, gathered) == CallFacts(other, instance', gathered') <==>
            agent.card == other.card && instance == instance' && gathered == gathered'
    ensures Subject(name) == Subject(name') <==> name == name'
  {
    var (a, b) := (CallFacts(agent, instance, gathered), CallFacts(other, instance', gathered'));
    assert a[0].revision == agent.card && b[0].revision == other.card && a[1].revision == instance && b[1].revision == instance';
    assert a[2..] == gathered && b[2..] == gathered';
    assert Subject(name)[5..] == name && Subject(name')[5..] == name';
  }

  // ---------------------------------------------------------------- binding

  /** A supervisor is set exactly if the child is live, the ledger admits the binding and its line is written; only then is it bound. */
  lemma SetSupervisorMeans(g: Gate, child: Uuid, supervisor: Uuid, live: bool, line: Appended)
    requires Valid(g.ledger)
    ensures var (g', e) := SetSupervisor(g, child, supervisor, live, line);
            && (e == None <==> live && CheckBinding(g.ledger, child, supervisor) == None && line == Landed)
            && (e.Some? ==> g' == g)
            && (e == None ==>
                  && child in g.ledger.instances && supervisor in g.ledger.instances
                  && SupervisorOf(g'.ledger, g.ledger.instances[child].instance) == Some(g.ledger.instances[supervisor].instance)
                  && g'.ledger.pending == g.ledger.pending && g'.history == g.history)
  {
    BindIff(g.ledger, child, supervisor);
    hide Valid, Bind;
    BindingIsChecked(g.ledger, child, supervisor);
  }

  lemma BindingIsChecked(l: Ledger, child: Uuid, supervisor: Uuid)
    ensures Bind(l, child, supervisor).1 == CheckBinding(l, child, supervisor)
  {
  }

  lemma WasSeen(l: Ledger, id: string)
    requires Valid(l) && id in l.pending
    ensures id in l.seen
  {
    assert Ledgers.Filed(l, id);
  }
}
