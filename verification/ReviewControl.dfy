/** The review boundary as the object that owns the ledger and writes the evidence. */
module ReviewControls {
  import opened Basics
  import opened Semantics
  import opened Ledgers
  import opened Supervisions
  import opened Charters
  import opened Reviews
  import opened ReviewRuns
  import TC = ToolContracts

  /** The waiting review that `find` meets is the only one. */
  class ReviewControl {
    const supervision: Supervision
    var history: seq<Event>

    function View(): Gate
      reads this, supervision
    {
      Gate(supervision.View(), history)
    }

    constructor ()
      ensures View() == START && fresh(supervision)
    {
      supervision := new Supervision();
      history := [];
    }

    method Append(line: Event, write: Appended) returns (ok: bool)
      modifies this
      ensures history == Noted(old(history), line, write)
      ensures ok == (write == Landed)
    {
      if write != Lost {
        history := history + [line];
      }
      ok := write == Landed;
    }

    method MountFact(facts: seq<FactRef>, parse: map<string, Uuid>) returns (r: Result<Option<Uuid>, Failure>)
      ensures r == MountOf(facts, parse)
    {
      for i := 0 to |facts|
        invariant MountOf(facts, parse) == MountOf(facts[i..], parse)
      {
        if facts[i].kind == "spool.instance" {
          if facts[i].revision in parse {
            return Ok(Some(parse[facts[i].revision]));
          }
          return Err(Invalid);
        }
      }
      return Ok(None);
    }

    method RetainReview(agent: Agent, subject: string, attempt: Attempt, cause: ReviewCause, call: Option<CallBinding>, env: FilingEnv)
      returns (r: Result<string, Failure>)
      requires Ledgers.Valid(supervision.View())
      modifies this, supervision
      ensures (View(), r) == Retain(old(View()), agent, subject, attempt, cause, call, env)
      ensures Ledgers.Valid(supervision.View())
    {
      hide Ledgers.Valid, Ledgers.Insert;
      assert Relations(supervision.View()) by { ValidRelates(supervision.View()); }
      var mount := MountFact(attempt.facts, env.parse);
      if mount.Err? {
        return Err(mount.error);
      }
      var scoped := supervision.Scope(agent.id, mount.value);
      if scoped.Err? {
        return Err(Refused(scoped.error));
      }
      var scope := scoped.value;
      if env.generations.None? {
        return Err(Io);
      }
      if !FactsCurrent(env.generations.value, attempt.facts) {
        return Err(Refused(Stale));
      }
      var waiting := supervision.Waiting(scope, subject, call.Some?);
      if waiting.Some? {
        WaitingIs(waiting.value, scope, subject, call.Some?);
        return Ok(waiting.value.request.id);
      }
      var parent := if scope.supervisor.Some? then Some(scope.supervisor.value.principal) else None;
      var request := ReviewRequest(env.id, agent.id, parent, subject, attempt, cause, "", Some(scope));
      var lined := Append(RequestLine(request), env.line);
      if !lined {
        return Err(Io);
      }
      if parent.Some? {
        if !env.sent {
          return Err(Io);
        }
        request := request.(tapeId := env.tapeId);
        RefusedUnchanged(supervision.View(), request, call);
        var error := supervision.Insert(request, call);
        if error.Some? {
          return Err(Refused(error.value));
        }
        history := history + [Retained(request, call)];
      }
      return Ok(env.id);
    }

    lemma WaitingIs(p: PendingReview, scope: ReviewScope, subject: string, call: bool)
      requires Ledgers.Valid(supervision.View()) && p in supervision.pending.Values && Waits(p, scope, subject, call)
      ensures WaitingId(supervision.View(), scope, subject, call) == Some(p.request.id)
      ensures p.request.id in supervision.pending && supervision.pending[p.request.id] == p
    {
      var id :| id in supervision.pending && supervision.pending[id] == p;
      TheOnlyOne(supervision.View(), id, scope, subject, call);
    }

    method ResolveReview(parent: Uuid, id: string, r: Resolution, env: JudgeEnv) returns (failure: Option<Failure>, ghost told: Option<bool>)
      requires Ledgers.Valid(supervision.View())
      modifies this, supervision
      ensures (View(), failure, told) == Judge(old(View()), parent, id, r, env)
      ensures Ledgers.Valid(supervision.View())
    {
      hide Ledgers.Valid, Relations, TC.ReviewCeiling, FactsCurrent, Ledgers.Resolve, Ledgers.CheckResolution;
      ValidRelates(supervision.View());
      told := None;
      if parent !in env.agents {
        return Some(NotOpen), None;
      }
      var approver := env.agents[parent];
      var error := supervision.CheckResolution(parent, id, r);
      if error.Some? {
        return Some(Refused(error.value)), None;
      }
      CheckedMeans(supervision.View(), parent, id, r);
      var p := supervision.pending[id];
      if env.generations.None? {
        return Some(Io), None;
      }
      if !FactsCurrent(env.generations.value, p.request.attempt.facts) {
        var _ := supervision.Close(id);
        return Some(Refused(Stale)), None;
      }
      if p.request.child !in env.agents {
        return Some(NotOpen), None;
      }
      var child := env.agents[p.request.child];
      if r == ApproveOnce {
        if p.call.None? {
          return Some(Refused(Ceiling)), None;
        }
        var fits := TC.ReviewCeiling(child.tools, approver.tools, p.call.value.operation);
        told := Some(fits);
        if !env.recorded {
          return Some(Io), told;
        }
        if !fits {
          return Some(Refused(Ceiling)), told;
        }
      } else {
        var _ := supervision.Resolve(parent, id, r, approver.card);
        history := history + [TakenBack(id, r)];
      }
      var lined := Append(ResolutionLine(id, parent, r), env.line);
      if !lined || !env.sent {
        return Some(Io), told;
      }
      if r == ApproveOnce {
        var judge := supervision.instances[parent].instance;
        var _ := supervision.Resolve(parent, id, r, approver.card);
        history := history + [Approved(id, judge, approver.card)];
      }
      return None, told;
    }

    method SpendReview(agent: Agent, call: ToolCall, scope: ReviewScope, facts: seq<FactRef>, p: PendingReview, env: CallEnv)
      returns (v: Verdict, ghost record: Option<GateRecord>)
      requires Ledgers.Valid(supervision.View())
      requires p.request.id in supervision.pending && supervision.pending[p.request.id] == p
      modifies this, supervision
      ensures (View(), v, record) == Spend(old(View()), agent, call, scope, facts, p.request.id, env)
      ensures Ledgers.Valid(supervision.View())
    {
      hide Ledgers.Valid, Relations, TC.ReviewCeiling, Ledgers.CheckCall;
      ValidRelates(supervision.View());
      var id := p.request.id;
      var binding := CallBinding(call.name, call.text);
      if p.request.supervisor.None? {
        return Denied(Refused(Authority)), None;
      }
      if p.request.supervisor.value !in env.agents {
        return Denied(NotOpen), None;
      }
      var approver := env.agents[p.request.supervisor.value];
      var checked := supervision.CheckCall(id, binding, facts, approver.card);
      if checked.Err? {
        if checked.error == Stale {
          var _ := supervision.Close(id);
        }
        return Denied(Refused(checked.error)), None;
      }
      if !checked.value {
        return Recorded(env, Required(id)), Some(GateRecord(false, false));
      }
      if !TC.ReviewCeiling(agent.tools, approver.tools, call.name) {
        return Denied(Refused(Ceiling)), None;
      }
      var _ := supervision.Close(id);
      var lined := Append(ConsumedLine(id), env.consumed);
      if !lined {
        return Denied(Io), None;
      }
      record := Some(GateRecord(true, true));
      if !env.recorded {
        return Denied(Io), record;
      }
      history := history + [LetThrough(id, scope, binding, facts)];
      v := Spent(id);
    }

    method ReviewTool(agent: Agent, call: ToolCall, env: CallEnv) returns (v: Verdict, ghost record: Option<GateRecord>)
      requires Ledgers.Valid(supervision.View())
      modifies this, supervision
      ensures (View(), v, record) == Reviews.ReviewTool(old(View()), agent, call, env)
      ensures Ledgers.Valid(supervision.View())
    {
      ValidRelates(supervision.View());
      hide Ledgers.Valid, Relations, Retain, Spend, Ledgers.Scope, Waits;
      record := None;
      if !env.valid {
        return Denied(Invalid), None;
      }
      var scoped := supervision.Scope(agent.id, None);
      if scoped.Err? {
        return Denied(Refused(scoped.error)), None;
      }
      var scope := scoped.value;
      var tool := TC.Find(agent.tools, call.name);
      if tool.Some? && TC.TagOf(tool).permit == Go {
        return if env.recorded then Free else Denied(Io), Some(GateRecord(false, true));
      }
      if env.facts.None? {
        return Denied(Io), None;
      }
      var facts := CallFacts(agent, env.instance, env.facts.value);
      var waiting := supervision.Waiting(scope, Subject(call.name), true);
      if waiting.Some? {
        WaitingIs(waiting.value, scope, Subject(call.name), true);
        v, record := SpendReview(agent, call, scope, facts, waiting.value, env);
        return;
      }
      var kept := RetainReview(agent, Subject(call.name), CallAttempt(call.name, env.attempt, facts),
                               CallCause(agent.tools, call.name), Some(CallBinding(call.name, call.text)), env.filing);
      if kept.Err? {
        return Denied(kept.error), None;
      }
      return Recorded(env, Required(kept.value)), Some(GateRecord(false, false));
    }
  }

  lemma RefusedUnchanged(l: Ledger, request: ReviewRequest, call: Option<CallBinding>)
    ensures Ledgers.Insert(l, request, call).1.Some? ==> Ledgers.Insert(l, request, call).0 == l
  {
  }

  lemma ValidRelates(l: Ledger)
    requires Ledgers.Valid(l)
    ensures Relations(l)
  {
  }
}
