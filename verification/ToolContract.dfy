/** The shadow projections of the tool gate and of the review ceiling. */
module ToolContracts {
  import opened Basics
  import opened Charters
  import S = Semantics
  import C = Contracts

  /** A tool of a card, with the tag it declares, if it declares one. */
  datatype Tool = Tool(name: string, seed: Option<ToolTag>)

  function Find(tools: seq<Tool>, name: string): Option<Tool> {
    if tools == [] then None
    else if tools[0].name == name then Some(tools[0])
    else Find(tools[1..], name)
  }

  /** `tag_of`: an absent tool, or one without a tag, counts as unbounded under review. */
  function TagOf(tool: Option<Tool>): ToolTag {
    if tool.Some? && tool.value.seed.Some? then tool.value.seed.value else UNBOUNDED_TAG
  }

  // ---------------------------------------------------------------- the gates themselves

  function Tag(tools: seq<Tool>, name: string): ToolTag {
    TagOf(Find(tools, name))
  }

  predicate FileFits(child: FileFacet, approver: FileFacet) {
    child == approver || child.NoFile? || approver.Unbounded?
  }

  /** `check_review_ceiling`: an approver may release only what its own card runs freely. */
  predicate ReviewCeiling(child: seq<Tool>, approver: seq<Tool>, operation: string) {
    && Find(child, operation).Some?
    && Find(approver, operation).Some?
    && var (mine, theirs) := (Tag(child, operation), Tag(approver, operation));
       && mine.permit == Ask
       && theirs.permit == Go
       && FileFits(mine.file, theirs.file)
       && Allows(NewCharter(theirs), mine)
  }

  // ---------------------------------------------------------------- their projections

  function Projected(a: S.Attempt, role: string, allowed: bool, evidence: seq<S.FactRef>): C.ContractClaim {
    C.ContractClaim(role, S.Claim(a.subject, if allowed then [a.capability] else []), evidence)
  }

  const INVOKE := C.BoundaryProfile(
    "core.tool.v1", ["bound_tool_grant", "review_gate"],
    [S.Capability(S.Effect, "tool.invoke", S.Resource("tool", []), true)],
    ["local admission only"])

  const REVIEW_CEILING := C.BoundaryProfile(
    "core.review_ceiling.v1", ["child_ask_grant", "supervisor_go_grant", "charter_fit"],
    [S.Capability(S.Effect, "review.approve_once", S.Resource("review", []), true)],
    ["eligibility only"])

  datatype Comparison = Agree | Different | Incomplete

  function Compare(d: C.Disposition, allowed: bool): Comparison {
    match d
    case Unknown => Incomplete
    case Allow => if allowed then Agree else Different
    case Refuse => if !allowed then Agree else Different
  }

  /** The recorded evidence: a card hash and the digests of three snapshots. */
  datatype Evidence = Evidence(card: string, grant: string, review: string, request: string)

  predicate Complete(e: Evidence) {
    e.card != "" && e.grant != "" && e.review != "" && e.request != ""
  }

  function GateAttempt(id: string, name: string, e: Evidence, consumed: Option<string>): S.Attempt {
    S.Attempt(S.SCHEMA_VERSION, "tool-check:" + id, "tool:" + name,
              S.Exact(S.Effect, "tool.invoke", S.Resource("tool", [name])),
              [S.FactRef("agent.card", e.card), S.FactRef("tool.grant", e.grant),
               S.FactRef("tool.review_gate", e.review), S.FactRef("tool.request", e.request)],
              if consumed.Some? then [consumed.value] else [])
  }

  function GateClaims(tools: seq<Tool>, name: string, a: S.Attempt, e: Evidence, consumed: Option<string>): seq<C.ContractClaim> {
    var grantFits := Find(tools, name).Some? && Tag(tools, name).permit != Deny;
    var reviewFits := Tag(tools, name).permit != Ask || consumed.Some?;
    [Projected(a, "bound_tool_grant", grantFits, [S.FactRef("agent.card", e.card), S.FactRef("tool.grant", e.grant)]),
     Projected(a, "review_gate", reviewFits, [S.FactRef("tool.review_gate", e.review)])]
  }

  /** `record_tool_gate`: how the shadow verdict compares with the gate's own. */
  method RecordToolGate(tools: seq<Tool>, name: string, id: string, e: Evidence, consumed: Option<string>, allowed: bool)
    returns (c: Comparison, refs: seq<string>)
    ensures c == ToolGate(tools, name, id, e, consumed, allowed)
    ensures refs == if consumed.Some? then [consumed.value] else []
  {
    var attempt := GateAttempt(id, name, e, consumed);
    var claims := GateClaims(tools, name, attempt, e, consumed);
    var assessment := C.AssessContract(attempt, INVOKE, claims);
    c := Compare(assessment.disposition, allowed);
    refs := attempt.refs;
  }

  function ToolGate(tools: seq<Tool>, name: string, id: string, e: Evidence, consumed: Option<string>, allowed: bool): Comparison {
    var a := GateAttempt(id, name, e, consumed);
    Compare(C.Assess(a, INVOKE, GateClaims(tools, name, a, e, consumed)).disposition, allowed)
  }

  function CeilingAttempt(id: string, child: string, operation: string, review: string, e: Evidence, tapeId: string): S.Attempt {
    S.Attempt(S.SCHEMA_VERSION, "review-check:" + id, child,
              S.Exact(S.Effect, "review.approve_once", S.Resource("review", [review, operation])),
              [S.FactRef("review.child_grant", e.grant), S.FactRef("review.supervisor_grant", e.request),
               S.FactRef("review.scope", e.review)], [tapeId])
  }

  function CeilingClaims(child: seq<Tool>, approver: seq<Tool>, operation: string, a: S.Attempt, e: Evidence): seq<C.ContractClaim> {
    var mine := if Find(child, operation).Some? then Some(Tag(child, operation)) else None;
    var theirs := if Find(approver, operation).Some? then Some(Tag(approver, operation)) else None;
    var fits := mine.Some? && theirs.Some? && FileFits(mine.value.file, theirs.value.file) && Allows(NewCharter(theirs.value), mine.value);
    var childFact, approverFact := S.FactRef("review.child_grant", e.grant), S.FactRef("review.supervisor_grant", e.request);
    [Projected(a, "child_ask_grant", mine.Some? && mine.value.permit == Ask, [childFact]),
     Projected(a, "supervisor_go_grant", theirs.Some? && theirs.value.permit == Go, [approverFact]),
     Projected(a, "charter_fit", fits, [childFact, approverFact])]
  }

  function CeilingGate(child: seq<Tool>, approver: seq<Tool>, operation: string, id: string, childId: string, review: string,
                       e: Evidence, tapeId: string, allowed: bool): Comparison
  {
    var a := CeilingAttempt(id, childId, operation, review, e, tapeId);
    Compare(C.Assess(a, REVIEW_CEILING, CeilingClaims(child, approver, operation, a, e)).disposition, allowed)
  }

  // ---------------------------------------------------------------- agreement

  /** A list of projected claims with a well-formed attempt is decided by its flags alone. */
  lemma ProjectedDecision(a: S.Attempt, p: C.BoundaryProfile, claims: seq<C.ContractClaim>, flags: seq<bool>)
    requires !S.Malformed(a) && |claims| == |flags| && claims != []
    requires !C.BadProfile(p) && C.Covered(a, p)
    requires forall i | 0 <= i < |p.requiredRoles| :: C.HasRole(claims, p.requiredRoles[i])
    requires forall i | 0 <= i < |claims| ::
               && claims[i] == Projected(a, claims[i].role, flags[i], claims[i].evidence)
               && C.Grounded(a, claims, i)
    ensures var d := C.Assess(a, p, claims).disposition;
            if forall i | 0 <= i < |flags| :: flags[i] then d == C.Allow else d == C.Refuse
  {
    var plain := C.Plain(claims);
    forall i | 0 <= i < |claims| ensures plain[i].subject == a.subject && (S.ClaimAllows(plain[i], a) <==> flags[i]) {
      assert plain[i] == claims[i].claim;
      if flags[i] {
        assert S.Covers(plain[i].capabilities[0], a.capability);
      }
    }
    C.AllowMeans(a, p, claims);
    C.NeverContradicts(a, p, claims);
    S.DecideIsIntersection(a, plain);
  }

  lemma InvokeProfile(name: string, id: string, e: Evidence, consumed: Option<string>)
    ensures !C.BadProfile(INVOKE) && C.Covered(GateAttempt(id, name, e, consumed), INVOKE)
  {
    assert INVOKE.id[0] == 'c' && INVOKE.requiredRoles[0][0] == 'b' && INVOKE.requiredRoles[1][0] == 'r';
    assert S.Covers(INVOKE.checked[0], GateAttempt(id, name, e, consumed).capability);
  }

  lemma InvokeGrounded(tools: seq<Tool>, name: string, id: string, e: Evidence, consumed: Option<string>)
    requires Complete(e)
    ensures var a := GateAttempt(id, name, e, consumed);
            var claims := GateClaims(tools, name, a, e, consumed);
            && !S.Malformed(a)
            && C.Grounded(a, claims, 0) && C.Grounded(a, claims, 1)
            && claims[0].role == INVOKE.requiredRoles[0] && claims[1].role == INVOKE.requiredRoles[1]
  {
    var a := GateAttempt(id, name, e, consumed);
    var claims := GateClaims(tools, name, a, e, consumed);
    assert INVOKE.requiredRoles[0][0] == 'b' && INVOKE.requiredRoles[1][0] == 'r';
    assert a.facts[0] in a.facts && a.facts[1] in a.facts && a.facts[2] in a.facts;
    assert claims[..0] == [] && claims[..1] == [claims[0]];
  }

  /**
   The shadow of the tool gate agrees exactly with the rule the gate states: the tool is on the
   card, its permit is not Deny, and under Ask an approval was consumed. For no tag, call or
   review outcome is the comparison left incomplete.
   */
  lemma ToolGateAgrees(tools: seq<Tool>, name: string, id: string, e: Evidence, consumed: Option<string>, allowed: bool)
    requires Complete(e)
    ensures var tag := Tag(tools, name);
            var lawful := Find(tools, name).Some? && tag.permit != Deny && (tag.permit == Ask ==> consumed.Some?);
            ToolGate(tools, name, id, e, consumed, allowed) == if allowed == lawful then Agree else Different
  {
    hide C.Grounded, C.Assess, C.Covered, C.BadProfile, S.Covers, S.Malformed;
    var a := GateAttempt(id, name, e, consumed);
    var claims := GateClaims(tools, name, a, e, consumed);
    var flags := [Find(tools, name).Some? && Tag(tools, name).permit != Deny, Tag(tools, name).permit != Ask || consumed.Some?];
    InvokeProfile(name, id, e, consumed);
    InvokeGrounded(tools, name, id, e, consumed);
    ProjectedDecision(a, INVOKE, claims, flags);
    assert (forall i | 0 <= i < |flags| :: flags[i]) <==> flags[0] && flags[1];
  }

  lemma CeilingProfile(id: string, childId: string, operation: string, review: string, e: Evidence, tapeId: string)
    ensures !C.BadProfile(REVIEW_CEILING) && C.Covered(CeilingAttempt(id, childId, operation, review, e, tapeId), REVIEW_CEILING)
  {
    var roles := REVIEW_CEILING.requiredRoles;
    assert REVIEW_CEILING.id[0] == 'c' && roles[0][0] == 'c' && roles[1][0] == 's' && roles[2][0] == 'c';
    assert roles[0] != roles[1] && roles[0] != roles[2] by {
      assert roles[0][1] == 'h' && roles[2][2] == 'a' && roles[0][2] == 'i';
    }
    assert S.Covers(REVIEW_CEILING.checked[0], CeilingAttempt(id, childId, operation, review, e, tapeId).capability);
  }

  lemma CeilingGrounded(child: seq<Tool>, approver: seq<Tool>, operation: string, a: S.Attempt, e: Evidence)
    requires |a.facts| >= 2 && a.facts[..2] == [S.FactRef("review.child_grant", e.grant), S.FactRef("review.supervisor_grant", e.request)]
    ensures var claims := CeilingClaims(child, approver, operation, a, e);
            forall i | 0 <= i < 3 :: C.Grounded(a, claims, i) && claims[i].role == REVIEW_CEILING.requiredRoles[i]
  {
    hide Find, Tag, FileFits, Allows;
    var claims := CeilingClaims(child, approver, operation, a, e);
    assert a.facts[..2][0] in a.facts && a.facts[..2][1] in a.facts;
    assert claims[0].role[1] == 'h' && claims[1].role[1] == 'u' && claims[2].role[2] == 'a' && claims[0].role[2] == 'i';
    assert claims[..0] == [] && claims[..1] == [claims[0]] && claims[..2] == [claims[0], claims[1]];
  }

  lemma CeilingFormed(id: string, childId: string, operation: string, review: string, e: Evidence, tapeId: string)
    requires Complete(e) && childId != ""
    ensures !S.Malformed(CeilingAttempt(id, childId, operation, review, e, tapeId))
  {
  }

  /** The shadow of the review ceiling agrees exactly when the recorded verdict is the ceiling's own. */
  lemma CeilingAgrees(child: seq<Tool>, approver: seq<Tool>, operation: string, id: string, childId: string, review: string,
                      e: Evidence, tapeId: string, allowed: bool)
    requires Complete(e) && childId != ""
    ensures CeilingGate(child, approver, operation, id, childId, review, e, tapeId, allowed)
            == if allowed == ReviewCeiling(child, approver, operation) then Agree else Different
  {
    hide C.Grounded, C.Assess, C.Covered, C.BadProfile, S.Covers, S.Malformed, Allows, FileFits, Find, Tag;
    var a := CeilingAttempt(id, childId, operation, review, e, tapeId);
    var claims := CeilingClaims(child, approver, operation, a, e);
    var flags := [claims[0].claim.capabilities != [], claims[1].claim.capabilities != [], claims[2].claim.capabilities != []];
    CeilingProfile(id, childId, operation, review, e, tapeId);
    CeilingGrounded(child, approver, operation, a, e);
    CeilingFormed(id, childId, operation, review, e, tapeId);
    ProjectedDecision(a, REVIEW_CEILING, claims, flags);
    assert (forall i | 0 <= i < |flags| :: flags[i]) <==> flags[0] && flags[1] && flags[2];
  }
}
