/** The shadow contract checker, and its agreement with the decision it shadows. */
module Contracts {
  import opened Basics
  import opened Semantics

  datatype BoundaryProfile = BoundaryProfile(id: string, requiredRoles: seq<string>, checked: seq<Capability>, limitations: seq<string>)

  datatype ContractClaim = ContractClaim(role: string, claim: Claim, evidence: seq<FactRef>)

  datatype Disposition = Allow | Refuse | Unknown

  datatype FindingCode =
    | InvalidProfile | MissingRole | DuplicateRole | MissingEvidence | UnboundEvidence | UncoveredOperation
    | BadAttempt | WrongSubject | NotClaimed

  datatype Finding = Finding(code: FindingCode, role: Option<string>)

  datatype Assessment = Assessment(attemptId: string, profile: string, disposition: Disposition, findings: seq<Finding>, limitations: seq<string>)

  predicate IsSpace(c: char) {
    '\t' <= c <= '\r' || c == ' ' || c == '\U{85}' || c == '\U{A0}' || c == '\U{1680}' || '\U{2000}' <= c <= '\U{200A}'
    || c == '\U{2028}' || c == '\U{2029}' || c == '\U{202F}' || c == '\U{205F}' || c == '\U{3000}'
  }

  predicate IsBlank(s: string) {
    forall i | 0 <= i < |s| :: IsSpace(s[i])
  }

  // ---------------------------------------------------------------- the findings, one source at a time

  predicate BadProfile(p: BoundaryProfile) {
    || IsBlank(p.id)
    || p.requiredRoles == []
    || exists i | 0 <= i < |p.requiredRoles| :: IsBlank(p.requiredRoles[i]) || p.requiredRoles[i] in p.requiredRoles[..i]
  }

  predicate HasRole(claims: seq<ContractClaim>, role: string) {
    exists i | 0 <= i < |claims| :: claims[i].role == role
  }

  function RoleFindings(claims: seq<ContractClaim>, roles: seq<string>): seq<Finding> {
    if roles == [] then []
    else
      var n := |roles| - 1;
      RoleFindings(claims, roles[..n]) + if HasRole(claims, roles[n]) then [] else [Finding(MissingRole, Some(roles[n]))]
  }

  predicate Bound(a: Attempt, evidence: seq<FactRef>) {
    forall i | 0 <= i < |evidence| :: evidence[i] in a.facts
  }

  function FindingsOf(a: Attempt, claims: seq<ContractClaim>, i: nat): seq<Finding>
    requires i < |claims|
  {
    var source := claims[i];
    (if IsBlank(source.role) then [Finding(InvalidProfile, Some(source.role))] else [])
    + (if HasRole(claims[..i], source.role) then [Finding(DuplicateRole, Some(source.role))] else [])
    + (if source.evidence == [] then [Finding(MissingEvidence, Some(source.role))]
       else if !Bound(a, source.evidence) then [Finding(UnboundEvidence, Some(source.role))] else [])
  }

  function SourceFindings(a: Attempt, claims: seq<ContractClaim>, n: nat): seq<Finding>
    requires n <= |claims|
  {
    if n == 0 then [] else SourceFindings(a, claims, n - 1) + FindingsOf(a, claims, n - 1)
  }

  predicate Covered(a: Attempt, p: BoundaryProfile) {
    exists i | 0 <= i < |p.checked| :: Covers(p.checked[i], a.capability)
  }

  function Plain(claims: seq<ContractClaim>): seq<Claim> {
    seq(|claims|, i requires 0 <= i < |claims| => claims[i].claim)
  }

  function Violation(d: Decision): Option<FindingCode> {
    match d.reason
    case Some(InvalidAttempt) => Some(BadAttempt)
    case Some(SubjectMismatch) => Some(WrongSubject)
    case Some(CapabilityNotClaimed) => Some(NotClaimed)
    case Some(MissingClaim) => None
    case None => None
  }

  /** Everything but the violation itself. */
  function Gaps(a: Attempt, p: BoundaryProfile, claims: seq<ContractClaim>): seq<Finding> {
    (if BadProfile(p) then [Finding(InvalidProfile, None)] else [])
    + RoleFindings(claims, p.requiredRoles)
    + SourceFindings(a, claims, |claims|)
    + (if Covered(a, p) then [] else [Finding(UncoveredOperation, None)])
  }

  function Assess(a: Attempt, p: BoundaryProfile, claims: seq<ContractClaim>): Assessment {
    var decision := Decide(a, Plain(claims));
    var violation := Violation(decision);
    var gaps := Gaps(a, p, claims);
    Assessment(a.id, p.id,
               if violation.Some? then Refuse else if gaps == [] && Allowed(decision) then Allow else Unknown,
               gaps + if violation.Some? then [Finding(violation.value, None)] else [], p.limitations)
  }

  method CheckRoles(claims: seq<ContractClaim>, roles: seq<string>) returns (findings: seq<Finding>)
    ensures findings == RoleFindings(claims, roles)
  {
    findings := [];
    for i := 0 to |roles|
      invariant findings == RoleFindings(claims, roles[..i])
    {
      assert roles[..i + 1][..i] == roles[..i];
      if !HasRole(claims, roles[i]) {
        findings := findings + [Finding(MissingRole, Some(roles[i]))];
      }
    }
    assert roles[..|roles|] == roles;
  }

  method CheckSources(a: Attempt, claims: seq<ContractClaim>) returns (findings: seq<Finding>)
    ensures findings == SourceFindings(a, claims, |claims|)
  {
    findings := [];
    for i := 0 to |claims|
      invariant findings == SourceFindings(a, claims, i)
    {
      ghost var before := findings;
      var source := claims[i];
      if IsBlank(source.role) {
        findings := findings + [Finding(InvalidProfile, Some(source.role))];
      }
      if HasRole(claims[..i], source.role) {
        findings := findings + [Finding(DuplicateRole, Some(source.role))];
      }
      if source.evidence == [] {
        findings := findings + [Finding(MissingEvidence, Some(source.role))];
      } else if !Bound(a, source.evidence) {
        findings := findings + [Finding(UnboundEvidence, Some(source.role))];
      }
      assert findings == before + FindingsOf(a, claims, i);
    }
  }

  /** `assess_contract`, filling its list of findings in the order of its checks. */
  method AssessContract(a: Attempt, p: BoundaryProfile, claims: seq<ContractClaim>) returns (r: Assessment)
    ensures r == Assess(a, p, claims)
  {
    var findings: seq<Finding> := [];
    if BadProfile(p) {
      findings := findings + [Finding(InvalidProfile, None)];
    }
    var roles := CheckRoles(claims, p.requiredRoles);
    findings := findings + roles;
    var sources := CheckSources(a, claims);
    findings := findings + sources;
    if !Covered(a, p) {
      findings := findings + [Finding(UncoveredOperation, None)];
    }
    assert findings == Gaps(a, p, claims);
    var decision := Decide(a, Plain(claims));
    var violation := Violation(decision);
    if violation.Some? {
      findings := findings + [Finding(violation.value, None)];
    }
    var disposition :=
      if violation.Some? then Refuse
      else if findings == [] && Allowed(decision) then Allow
      else Unknown;
    r := Assessment(a.id, p.id, disposition, findings, p.limitations);
  }

  // ---------------------------------------------------------------- agreement

  lemma {:induction false} NoRoleFindings(claims: seq<ContractClaim>, roles: seq<string>)
    ensures RoleFindings(claims, roles) == [] <==> forall i | 0 <= i < |roles| :: HasRole(claims, roles[i])
  {
    if roles != [] {
      NoRoleFindings(claims, roles[..|roles| - 1]);
    }
  }

  /** A source that is named, not repeated, and backed by evidence the attempt carries. */
  predicate Grounded(a: Attempt, claims: seq<ContractClaim>, i: nat)
    requires i < |claims|
  {
    !IsBlank(claims[i].role) && !HasRole(claims[..i], claims[i].role) && claims[i].evidence != [] && Bound(a, claims[i].evidence)
  }

  lemma NoFindingsOf(a: Attempt, claims: seq<ContractClaim>, i: nat)
    requires i < |claims|
    ensures FindingsOf(a, claims, i) == [] <==> Grounded(a, claims, i)
  {
  }

  lemma {:induction false} NoSourceFindings(a: Attempt, claims: seq<ContractClaim>, n: nat)
    requires n <= |claims|
    ensures SourceFindings(a, claims, n) == [] <==> forall i | 0 <= i < n :: Grounded(a, claims, i)
  {
    if n > 0 {
      NoSourceFindings(a, claims, n - 1);
      NoFindingsOf(a, claims, n - 1);
    }
  }

  /**
   Exactly when the checker allows: a sound profile whose roles are all filled, once, by
   grounded sources, an operation it checks, and a decision that allows.
   */
  lemma AllowMeans(a: Attempt, p: BoundaryProfile, claims: seq<ContractClaim>)
    ensures Assess(a, p, claims).disposition == Allow <==>
            && !BadProfile(p) && Covered(a, p)
            && (forall i | 0 <= i < |p.requiredRoles| :: HasRole(claims, p.requiredRoles[i]))
            && (forall i | 0 <= i < |claims| :: Grounded(a, claims, i))
            && Allowed(Decide(a, Plain(claims)))
    ensures Assess(a, p, claims).disposition == Allow <==> Assess(a, p, claims).findings == [] && Allowed(Decide(a, Plain(claims)))
  {
    NoRoleFindings(claims, p.requiredRoles);
    NoSourceFindings(a, claims, |claims|);
  }

  /**
   The checker never contradicts the decision on its own claims: what it allows is allowed,
   what it refuses is denied, and a denial it does not repeat is a missing claim.
   */
  lemma NeverContradicts(a: Attempt, p: BoundaryProfile, claims: seq<ContractClaim>)
    ensures var (d, s) := (Decide(a, Plain(claims)), Assess(a, p, claims).disposition);
            && (s == Allow ==> Allowed(d))
            && (s == Refuse <==> !Allowed(d) && d.reason != Some(MissingClaim))
            && (d.reason == Some(MissingClaim) ==> s == Unknown && claims == [])
  {
  }
}
