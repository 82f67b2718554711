/** Capabilities, claims, and the default-deny decision over independent claims. */
module Semantics {
  import opened Basics

  const SCHEMA_VERSION := 1

  datatype Polarity = Coeffect | Effect

  datatype Resource = Resource(space: string, segments: seq<string>)

  datatype Capability = Capability(polarity: Polarity, operation: string, resource: Resource, recursive: bool)

  datatype FactRef = FactRef(kind: string, revision: string)

  datatype Attempt = Attempt(v: nat, id: string, subject: string, capability: Capability, facts: seq<FactRef>, refs: seq<string>)

  datatype Claim = Claim(subject: string, capabilities: seq<Capability>)

  datatype Grant = Grant(attemptId: string, subject: string, capability: Capability, facts: seq<FactRef>, refs: seq<string>)

  datatype DenyReason = InvalidAttempt | MissingClaim | SubjectMismatch | CapabilityNotClaimed

  datatype Decision = Decision(attemptId: string, reason: Option<DenyReason>, grant: Option<Grant>)

  predicate Allowed(d: Decision) {
    d.reason == None
  }

  function Exact(polarity: Polarity, operation: string, resource: Resource): Capability {
    Capability(polarity, operation, resource, false)
  }

  predicate Covers(c: Capability, attempted: Capability) {
    if c.polarity != attempted.polarity
       || c.operation != attempted.operation
       || c.resource.space != attempted.resource.space
       || (attempted.recursive && !c.recursive)
    then false
    else c.resource.segments == attempted.resource.segments
         || (c.recursive && c.resource.segments <= attempted.resource.segments)
  }

  predicate ClaimAllows(c: Claim, a: Attempt) {
    c.subject == a.subject && exists i | 0 <= i < |c.capabilities| :: Covers(c.capabilities[i], a.capability)
  }

  predicate Malformed(a: Attempt) {
    || a.v != SCHEMA_VERSION
    || a.id == "" || a.subject == "" || a.capability.operation == "" || a.capability.resource.space == ""
    || exists i | 0 <= i < |a.facts| :: a.facts[i].kind == "" || a.facts[i].revision == ""
  }

  function DenialOf(a: Attempt, claims: seq<Claim>): Option<DenyReason> {
    if Malformed(a) then Some(InvalidAttempt)
    else if claims == [] then Some(MissingClaim)
    else if exists i | 0 <= i < |claims| :: claims[i].subject != a.subject then Some(SubjectMismatch)
    else if exists i | 0 <= i < |claims| :: !ClaimAllows(claims[i], a) then Some(CapabilityNotClaimed)
    else None
  }

  function Decide(a: Attempt, claims: seq<Claim>): Decision {
    var reason := DenialOf(a, claims);
    Decision(a.id, reason, if reason.None? then Some(Grant(a.id, a.subject, a.capability, a.facts, a.refs)) else None)
  }

  predicate Matches(g: Grant, a: Attempt) {
    && a.v == SCHEMA_VERSION
    && g.attemptId == a.id && g.subject == a.subject && g.capability == a.capability
    && g.facts == a.facts && g.refs == a.refs
  }

  // ---------------------------------------------------------------- what coverage means

  /** The targets a capability stands for: one path, or a path and everything below it. */
  predicate Reaches(c: Capability, path: seq<string>) {
    if c.recursive then c.resource.segments <= path else c.resource.segments == path
  }

  /** Coverage is inclusion of targets under one operation: never more, never less. */
  lemma CoversIsInclusion(c: Capability, a: Capability)
    ensures Covers(c, a) <==>
            && c.polarity == a.polarity && c.operation == a.operation && c.resource.space == a.resource.space
            && forall path | Reaches(a, path) :: Reaches(c, path)
  {
    assert Reaches(a, a.resource.segments);
    if a.recursive && !c.recursive {
      assert Reaches(a, a.resource.segments + ["x"]);
    }
  }

  /** A decision allows exactly the well-formed attempts that every claim, and at least one, covers. */
  lemma DecideIsIntersection(a: Attempt, claims: seq<Claim>)
    ensures Allowed(Decide(a, claims)) <==>
            !Malformed(a) && claims != [] && forall i | 0 <= i < |claims| :: ClaimAllows(claims[i], a)
    ensures Allowed(Decide(a, claims)) <==> Decide(a, claims).grant.Some?
  {
  }

  /** More claims never allow more. */
  lemma DecideIsAntitone(a: Attempt, claims: seq<Claim>, more: seq<Claim>)
    requires claims != [] && Allowed(Decide(a, claims + more))
    ensures Allowed(Decide(a, claims))
  {
    DecideIsIntersection(a, claims + more);
    forall i | 0 <= i < |claims| ensures ClaimAllows(claims[i], a) {
      assert (claims + more)[i] == claims[i];
    }
    DecideIsIntersection(a, claims);
  }

  /** A grant matches the attempt it was decided for, and no other. */
  lemma GrantBindsOneAttempt(a: Attempt, claims: seq<Claim>, b: Attempt)
    requires Allowed(Decide(a, claims))
    ensures Matches(Decide(a, claims).grant.value, b) <==> b == a
  {
  }
}
