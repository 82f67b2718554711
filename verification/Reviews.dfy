/** The boundary around the supervision ledger: what each call appends, sends, and lets through. */
module Reviews {
  import opened Basics
  import opened Semantics
  import opened Ledgers
  import opened Charters
  import TC = ToolContracts

  datatype Agent = Agent(id: Uuid, card: string, tools: seq<TC.Tool>)

  /** A call, with the text that its serialization gives. */
  datatype ToolCall = ToolCall(name: string, text: string)

  /** Audit lines, and the changes of authority between them, in one order. */
  datatype Event =
    | RequestLine(request: ReviewRequest)
    | Retained(request: ReviewRequest, call: Option<CallBinding>)
    | ResolutionLine(id: string, supervisor: Uuid, resolution: Resolution)
    | Approved(id: string, judge: InstanceRef, card: string)
    | TakenBack(id: string, resolution: Resolution)
    | ConsumedLine(id: string)
    | LetThrough(id: string, scope: ReviewScope, binding: CallBinding, facts: seq<FactRef>)

  datatype Gate = Gate(ledger: Ledger, history: seq<Event>)

  datatype Failure = Refused(error: ReviewError) | NotOpen | Required(id: string) | Io | Invalid

  /** What one call of `record_tool_gate` is told. */
  datatype GateRecord = GateRecord(consumed: bool, allowed: bool)

  datatype Verdict = Free | Spent(id: string) | Denied(failure: Failure)

  // ---------------------------------------------------------------- facts

  predicate FactsCurrent(generations: seq<FactRef>, facts: seq<FactRef>) {
    forall g, f | 0 <= g < |generations| && 0 <= f < |facts| ::
      facts[f].kind == generations[g].kind ==> facts[f] == generations[g]
  }

  /** `parse` stands for the reading of a mount id; it may fail. */
  function MountOf(facts: seq<FactRef>, parse: map<string, Uuid>): Result<Option<Uuid>, Failure> {
    if facts == [] then Ok(None)
    else if facts[0].kind == "spool.instance" then
      if facts[0].revision in parse then Ok(Some(parse[facts[0].revision])) else Err(Invalid)
    else MountOf(facts[1..], parse)
  }

  /** The ledger holds at most one such id; `find` returns it. */
  ghost function WaitingId(l: Ledger, scope: ReviewScope, subject: string, call: bool): Option<string> {
    if SomeoneWaits(l, scope, subject, call)
    then var id :| id in l.pending && Waits(l.pending[id], scope, subject, call); Some(id)
    else None
  }

  // ---------------------------------------------------------------- filing

  datatype FilingEnv = FilingEnv(id: string, tapeId: string, generations: Option<seq<FactRef>>, parse: map<string, Uuid>,
                                 line: Appended, sent: bool)

  /** `retain_review`: the id of the request that waits, new or old. */
  ghost function Retain(g: Gate, agent: Agent, subject: string, attempt: Attempt, cause: ReviewCause,
                        call: Option<CallBinding>, env: FilingEnv): (Gate, Result<string, Failure>)
  {
    match MountOf(attempt.facts, env.parse)
    case Err(e) => (g, Err(e))
    case Ok(mount) =>
      match Scope(g.ledger, agent.id, mount)
      case Err(e) => (g, Err(Refused(e)))
      case Ok(scope) =>
        if env.generations.None? then (g, Err(Io))
        else if !FactsCurrent(env.generations.value, attempt.facts) then (g, Err(Refused(Stale)))
        else
          match WaitingId(g.ledger, scope, subject, call.Some?)
          case Some(id) => (g, Ok(id))
          case None =>
            var supervisor := if scope.supervisor.Some? then Some(scope.supervisor.value.principal) else None;
            var draft := ReviewRequest(env.id, agent.id, supervisor, subject, attempt, cause, "", Some(scope));
            var lined := g.(history := Noted(g.history, RequestLine(draft), env.line));
            if env.line != Landed then (lined, Err(Io))
            else if supervisor.None? then (lined, Ok(env.id))
            else if !env.sent then (lined, Err(Io))
            else
              var request := draft.(tapeId := env.tapeId);
              var (l', e) := Insert(g.ledger, request, call);
              if e.Some? then (lined, Err(Refused(e.value)))
              else (Gate(l', lined.history + [Retained(request, call)]), Ok(env.id))
  }

  // ---------------------------------------------------------------- resolving

  datatype JudgeEnv = JudgeEnv(agents: map<Uuid, Agent>, generations: Option<seq<FactRef>>, recorded: bool, line: Appended, sent: bool)

  /** `resolve_review`; the flag is the ceiling verdict handed to `record_review_ceiling`, if it was called. */
  function Judge(g: Gate, supervisor: Uuid, id: string, r: Resolution, env: JudgeEnv): (Gate, Option<Failure>, Option<bool>) {
    if supervisor !in env.agents then (g, Some(NotOpen), None)
    else
      match CheckResolution(g.ledger, supervisor, id, r)
      case Some(e) => (g, Some(Refused(e)), None)
      case None =>
        var p := g.ledger.pending[id];
        var approver := env.agents[supervisor];
        if env.generations.None? then (g, Some(Io), None)
        else if !FactsCurrent(env.generations.value, p.request.attempt.facts)
        then (g.(ledger := Close(g.ledger, id)), Some(Refused(Stale)), None)
        else if p.request.child !in env.agents then (g, Some(NotOpen), None)
        else
          var child := env.agents[p.request.child];
          var line := ResolutionLine(id, supervisor, r);
          if r == ApproveOnce then
            if p.call.None? then (g, Some(Refused(Ceiling)), None)
            else
              var fits := TC.ReviewCeiling(child.tools, approver.tools, p.call.value.operation);
              if !env.recorded then (g, Some(Io), Some(fits))
              else if !fits then (g, Some(Refused(Ceiling)), Some(fits))
              else
                var lined := g.(history := Noted(g.history, line, env.line));
                if env.line != Landed || !env.sent then (lined, Some(Io), Some(fits))
                else
                  var judge := g.ledger.instances[supervisor].instance;
                  (Gate(Resolve(g.ledger, supervisor, id, r, approver.card).0,
                        lined.history + [Approved(id, judge, approver.card)]), None, Some(fits))
          else
            var told := g.history + [TakenBack(id, r)];
            var lined := Gate(Resolve(g.ledger, supervisor, id, r, approver.card).0, Noted(told, line, env.line));
            (lined, if env.line != Landed || !env.sent then Some(Io) else None, None)
  }

  // ---------------------------------------------------------------- calling

  /** `facts` are the snapshot and the workspace facts gathered for this call, if that succeeds; `instance` is the incarnation as text. */
  datatype CallEnv = CallEnv(valid: bool, agents: map<Uuid, Agent>, instance: string, facts: Option<seq<FactRef>>, attempt: string,
                             filing: FilingEnv, consumed: Appended, recorded: bool)

  function CallFacts(agent: Agent, instance: string, gathered: seq<FactRef>): seq<FactRef> {
    [FactRef("agent.card", agent.card), FactRef("agent.instance", instance)] + gathered
  }

  function Subject(name: string): string {
    "tool:" + name
  }

  function CallAttempt(name: string, id: string, facts: seq<FactRef>): Attempt {
    Attempt(SCHEMA_VERSION, "tool:" + id, Subject(name), Exact(Effect, "tool.invoke", Resource("tool", [name])), facts, [])
  }

  function CallCause(tools: seq<TC.Tool>, name: string): ReviewCause {
    var tool := TC.Find(tools, name);
    if tool.Some? && TC.TagOf(tool).permit == Ask then HighRisk("tool permit requires review")
    else if tool.None? then PermissionDenied("tool is not granted")
    else PermissionDenied("tool permit denies execution")
  }

  function Recorded(env: CallEnv, failure: Failure): Verdict {
    Denied(if env.recorded then failure else Io)
  }

  /** The waiting review of this very call: stale, not yet approved, or spent now. */
  function Spend(g: Gate, agent: Agent, call: ToolCall, scope: ReviewScope, facts: seq<FactRef>, id: string, env: CallEnv)
    : (Gate, Verdict, Option<GateRecord>)
    requires id in g.ledger.pending
  {
    var p := g.ledger.pending[id];
    var binding := CallBinding(call.name, call.text);
    if p.request.supervisor.None? then (g, Denied(Refused(Authority)), None)
    else if p.request.supervisor.value !in env.agents then (g, Denied(NotOpen), None)
    else
      var approver := env.agents[p.request.supervisor.value];
      match CheckCall(g.ledger, id, binding, facts, approver.card)
      case Err(e) => (if e == Stale then g.(ledger := Close(g.ledger, id)) else g, Denied(Refused(e)), None)
      case Ok(approved) =>
        if !approved then (g, Recorded(env, Required(id)), Some(GateRecord(false, false)))
        else if !TC.ReviewCeiling(agent.tools, approver.tools, call.name) then (g, Denied(Refused(Ceiling)), None)
        else
          var closed := Gate(Close(g.ledger, id), Noted(g.history, ConsumedLine(id), env.consumed));
          if env.consumed != Landed then (closed, Denied(Io), None)
          else if !env.recorded then (closed, Denied(Io), Some(GateRecord(true, true)))
          else (closed.(history := closed.history + [LetThrough(id, scope, binding, facts)]), Spent(id), Some(GateRecord(true, true)))
  }

  /** `review_tool`. */
  ghost function ReviewTool(g: Gate, agent: Agent, call: ToolCall, env: CallEnv): (Gate, Verdict, Option<GateRecord>) {
    if !env.valid then (g, Denied(Invalid), None)
    else
      match Scope(g.ledger, agent.id, None)
      case Err(e) => (g, Denied(Refused(e)), None)
      case Ok(scope) =>
        if TC.Find(agent.tools, call.name).Some? && TC.Tag(agent.tools, call.name).permit == Go
        then (g, if env.recorded then Free else Denied(Io), Some(GateRecord(false, true)))
        else if env.facts.None? then (g, Denied(Io), None)
        else
          var facts := CallFacts(agent, env.instance, env.facts.value);
          match WaitingId(g.ledger, scope, Subject(call.name), true)
          case Some(id) => Spend(g, agent, call, scope, facts, id, env)
          case None =>
            var (g', r) := Retain(g, agent, Subject(call.name), CallAttempt(call.name, env.attempt, facts),
                                  CallCause(agent.tools, call.name), Some(CallBinding(call.name, call.text)), env.filing);
            match r
            case Err(e) => (g', Denied(e), None)
            case Ok(id) => (g', Recorded(env, Required(id)), Some(GateRecord(false, false)))
  }

  // ---------------------------------------------------------------- the rest of the boundary

  /** `set_supervisor`: evidence first. */
  ghost function SetSupervisor(g: Gate, child: Uuid, supervisor: Uuid, live: bool, line: Appended): (Gate, Option<Failure>) {
    if !live then (g, Some(NotOpen))
    else
      match CheckBinding(g.ledger, child, supervisor)
      case Some(e) => (g, Some(Refused(e)))
      case None =>
        if line != Landed then (g, Some(Io))
        else (g.(ledger := Bind(g.ledger, child, supervisor).0), None)
  }
}
