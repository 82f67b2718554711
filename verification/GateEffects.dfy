/** What a decision, a finding of the contract checker and the two gates say, in terms of what an attempt, a profile and a card hold. */
module GateEffects {
  import opened Basics
  import opened Charters
  import S = Semantics
  import C = Contracts
  import TC = ToolContracts

  // ---------------------------------------------------------------- the decision

  /** Version, names and facts are all there. */
  predicate WellFormed(a: S.Attempt) {
    && a.v == 1 && |a.id| > 0 && |a.subject| > 0 && |a.capability.operation| > 0 && |a.capability.resource.space| > 0
    && forall f | f in a.facts :: |f.kind| > 0 && |f.revision| > 0
  }

  /** A claim of the same subject reaches, under the same operation, everything the attempt does. */
  ghost predicate Reached(c: S.Claim, a: S.Attempt) {
    && c.subject == a.subject
    && exists i | 0 <= i < |c.capabilities| ::
         var own := c.capabilities[i];
         && own.polarity == a.capability.polarity && own.operation == a.capability.operation
         && own.resource.space == a.capability.resource.space
         && forall path | S.Reaches(a.capability, path) :: S.Reaches(own, path)
  }

  lemma ClaimReaches(c: S.Claim, a: S.Attempt)
    ensures S.ClaimAllows(c, a) <==> Reached(c, a)
  {
    forall i | 0 <= i < |c.capabilities| {
      S.CoversIsInclusion(c.capabilities[i], a.capability);
    }
    hide S.Covers, S.Reaches;
  }

  lemma FormMeans(a: S.Attempt)
    ensures S.Malformed(a) <==> !WellFormed(a)
  {
    forall i | 0 <= i < |a.facts| ensures a.facts[i] in a.facts {
    }
  }

  /** The whole decision: the reason of every refusal, and the attempts that are allowed. */
  lemma DecisionMeans(a: S.Attempt, claims: seq<S.Claim>)
    ensures var d := S.Decide(a, claims);
            var own := forall c | c in claims :: c.subject == a.subject;
            && (d.reason == Some(S.InvalidAttempt) <==> !WellFormed(a))
            && (d.reason == Some(S.MissingClaim) <==> WellFormed(a) && |claims| == 0)
            && (d.reason == Some(S.SubjectMismatch) <==> WellFormed(a) && |claims| > 0 && !own)
            && (d.reason == Some(S.CapabilityNotClaimed) <==> WellFormed(a) && |claims| > 0 && own && exists c | c in claims :: !Reached(c, a))
            && (d.grant.Some? <==> WellFormed(a) && |claims| > 0 && forall c | c in claims :: Reached(c, a))
            && d.attemptId == a.id
            && (d.grant.Some? ==> d.grant.value == S.Grant(a.id, a.subject, a.capability, a.facts, a.refs))
  {
    FormMeans(a);
    forall c | c in claims {
      ClaimReaches(c, a);
    }
    assert forall c | c in claims && Reached(c, a) :: c.subject == a.subject;
    hide S.Malformed, S.ClaimAllows, Reached, WellFormed;
    assert forall i | 0 <= i < |claims| :: claims[i] in claims;
  }

  // ---------------------------------------------------------------- the findings

  lemma {:induction false} RoleFindingIff(claims: seq<C.ContractClaim>, roles: seq<string>, f: C.Finding)
    ensures f in C.RoleFindings(claims, roles) <==>
            f.code == C.MissingRole && f.role.Some? && f.role.value in roles && forall c | c in claims :: c.role != f.role.value
    decreases |roles|
  {
    if roles != [] {
      var n := |roles| - 1;
      RoleFindingIff(claims, roles[..n], f);
      assert roles == roles[..n] + [roles[n]];
      assert C.HasRole(claims, roles[n]) <==> exists c | c in claims :: c.role == roles[n];
    }
  }

  /** What is wrong with a source, by the code that says so. */
  predicate Wrong(a: S.Attempt, claims: seq<C.ContractClaim>, i: nat, code: C.FindingCode)
    requires i < |claims|
  {
    match code
    case InvalidProfile => C.IsBlank(claims[i].role)
    case DuplicateRole => exists j | 0 <= j < i :: claims[j].role == claims[i].role
    case MissingEvidence => |claims[i].evidence| == 0
    case UnboundEvidence => exists fact | fact in claims[i].evidence :: fact !in a.facts
    case _ => false
  }

  lemma SourceFindingIff(a: S.Attempt, claims: seq<C.ContractClaim>, i: nat, f: C.Finding)
    requires i < |claims|
    ensures f in C.FindingsOf(a, claims, i) <==> f.role == Some(claims[i].role) && Wrong(a, claims, i, f.code)
  {
    assert C.HasRole(claims[..i], claims[i].role) <==> exists j | 0 <= j < i :: claims[j].role == claims[i].role by {
      assert forall j | 0 <= j < i :: claims[..i][j] == claims[j];
    }
    assert C.Bound(a, claims[i].evidence) <==> forall fact | fact in claims[i].evidence :: fact in a.facts;
    hide C.IsBlank, C.HasRole, C.Bound;
  }

  /** Some source is wrong in the way the finding says. */
  predicate SomeSource(a: S.Attempt, claims: seq<C.ContractClaim>, n: nat, f: C.Finding)
    requires n <= |claims|
  {
    exists i | 0 <= i < n :: f.role == Some(claims[i].role) && Wrong(a, claims, i, f.code)
  }

  lemma {:induction false} SourceFindingsIff(a: S.Attempt, claims: seq<C.ContractClaim>, n: nat, f: C.Finding)
    requires n <= |claims|
    ensures f in C.SourceFindings(a, claims, n) <==> SomeSource(a, claims, n, f)
  {
    hide C.FindingsOf, Wrong;
    if n > 0 {
      SourceFindingsIff(a, claims, n - 1, f);
      SourceFindingIff(a, claims, n - 1, f);
      SourceSnoc(a, claims, n, f);
      hide SomeSource;
    }
  }

  lemma SourceSnoc(a: S.Attempt, claims: seq<C.ContractClaim>, n: nat, f: C.Finding)
    requires 0 < n <= |claims|
    ensures SomeSource(a, claims, n, f) <==>
            SomeSource(a, claims, n - 1, f) || (f.role == Some(claims[n - 1].role) && Wrong(a, claims, n - 1, f.code))
  {
    hide Wrong;
  }

  /** The profile names itself and its roles, at least one and none twice. */
  predicate Sound(p: C.BoundaryProfile) {
    && !C.IsBlank(p.id) && |p.requiredRoles| > 0
    && (forall role | role in p.requiredRoles :: !C.IsBlank(role))
    && forall i, j | 0 <= i < j < |p.requiredRoles| :: p.requiredRoles[i] != p.requiredRoles[j]
  }

  lemma ProfileMeans(p: C.BoundaryProfile)
    ensures C.BadProfile(p) <==> !Sound(p)
  {
    hide C.IsBlank;
    var roles := p.requiredRoles;
    forall i, j | 0 <= i < j < |roles| && roles[i] == roles[j] ensures roles[j] in roles[..j] {
      assert roles[..j][i] == roles[j];
    }
    forall j | 0 <= j < |roles| && roles[j] in roles[..j] ensures exists i :: 0 <= i < j && roles[i] == roles[j] {
      var i :| 0 <= i < j && roles[..j][i] == roles[j];
      assert roles[i] == roles[j];
    }
  }

  /** A gap: the profile is unsound, no source fills a role, a source is wrong, or the operation is not checked. */
  predicate Gap(a: S.Attempt, p: C.BoundaryProfile, claims: seq<C.ContractClaim>, f: C.Finding) {
    || (f == C.Finding(C.InvalidProfile, None) && !Sound(p))
    || (f.code == C.MissingRole && f.role.Some? && f.role.value in p.requiredRoles && forall c | c in claims :: c.role != f.role.value)
    || SomeSource(a, claims, |claims|, f)
    || (f == C.Finding(C.UncoveredOperation, None) && forall c | c in p.checked :: !S.Covers(c, a.capability))
  }

  lemma GapsIff(a: S.Attempt, p: C.BoundaryProfile, claims: seq<C.ContractClaim>, f: C.Finding)
    ensures f in C.Gaps(a, p, claims) <==> Gap(a, p, claims, f)
  {
    assert C.Covered(a, p) <==> exists c | c in p.checked :: S.Covers(c, a.capability);
    hide S.Covers, SomeSource, Sound, C.RoleFindings, C.SourceFindings, C.BadProfile, C.Covered;
    ProfileMeans(p);
    RoleFindingIff(claims, p.requiredRoles, f);
    SourceFindingsIff(a, claims, |claims|, f);
  }

  /**
   Every finding, and nothing else: a gap, and the violation the decision names. A refusal is a violation; an
   allowance has no finding and a grant.
   */
  lemma FindingsMean(a: S.Attempt, p: C.BoundaryProfile, claims: seq<C.ContractClaim>, f: C.Finding)
    ensures var r := C.Assess(a, p, claims);
            var d := S.Decide(a, C.Plain(claims));
            && (f in r.findings <==>
                  || Gap(a, p, claims, f)
                  || (f == C.Finding(C.BadAttempt, None) && d.reason == Some(S.InvalidAttempt))
                  || (f == C.Finding(C.WrongSubject, None) && d.reason == Some(S.SubjectMismatch))
                  || (f == C.Finding(C.NotClaimed, None) && d.reason == Some(S.CapabilityNotClaimed)))
            && (r.disposition == C.Refuse <==> d.reason.Some? && d.reason != Some(S.MissingClaim))
            && (r.disposition == C.Allow <==> r.findings == [] && d.grant.Some?)
            && r.attemptId == a.id && r.profile == p.id && r.limitations == p.limitations
  {
    hide C.Gaps, Gap, C.Plain, S.DenialOf;
    GapsIff(a, p, claims, f);
  }

  /** White space, character by character: the property of that name in Unicode. */
  const WHITE := "\t\n\U{B}\U{C}\r \U{85}\U{A0}\U{1680}"
                 + "\U{2000}\U{2001}\U{2002}\U{2003}\U{2004}\U{2005}\U{2006}\U{2007}\U{2008}\U{2009}\U{200A}"
                 + "\U{2028}\U{2029}\U{202F}\U{205F}\U{3000}"

  lemma SpaceIff(c: char)
    ensures C.IsSpace(c) <==> c in WHITE
  {
  }

  /** A name counts as blank exactly if it has white space only. */
  lemma BlankMeans(s: string)
    ensures C.IsBlank(s) <==> forall c | c in s :: c in WHITE
  {
    forall i | 0 <= i < |s| ensures C.IsSpace(s[i]) <==> s[i] in WHITE {
      SpaceIff(s[i]);
    }
    hide C.IsSpace;
    assert forall i | 0 <= i < |s| :: s[i] in s;
  }

  // ---------------------------------------------------------------- the gates

  /** The first tool of that name counts. */
  lemma {:induction false} FindMeans(tools: seq<TC.Tool>, name: string)
    ensures TC.Find(tools, name).None? <==> forall tool | tool in tools :: tool.name != name
    ensures TC.Find(tools, name).Some? ==>
            exists i | 0 <= i < |tools| ::
              TC.Find(tools, name) == Some(tools[i]) && tools[i].name == name && forall j | 0 <= j < i :: tools[j].name != name
  {
    if tools != [] && tools[0].name != name {
      FindMeans(tools[1..], name);
      if TC.Find(tools, name).Some? {
        var i :| 0 <= i < |tools[1..]| && TC.Find(tools[1..], name) == Some(tools[1..][i]) && tools[1..][i].name == name
                 && forall j | 0 <= j < i :: tools[1..][j].name != name;
        assert tools[i + 1] == tools[1..][i];
        assert forall j | 0 < j < i + 1 :: tools[j] == tools[1..][j - 1];
      } else {
        assert forall tool | tool in tools :: tool == tools[0] || tool in tools[1..];
      }
    }
  }

  /** The tag of a call is the one that the first tool of its name declares; without a declared one it is unbounded under review. */
  lemma TagMeans(tools: seq<TC.Tool>, name: string, i: nat)
    requires i < |tools| && tools[i].name == name && forall j | 0 <= j < i :: tools[j].name != name
    ensures TC.Find(tools, name) == Some(tools[i])
    ensures TC.Tag(tools, name) == match tools[i].seed case Some(tag) => tag case None => ToolTag(Unbounded, Ask, Ignore)
  {
    FindMeans(tools, name);
    var k :| 0 <= k < |tools| && TC.Find(tools, name) == Some(tools[k]) && tools[k].name == name && forall j | 0 <= j < k :: tools[j].name != name;
    hide TC.Find;
    assert k == i;
  }

  /** A record agrees with the gate exactly if the shadow allowed what the gate allowed or refused what it refused; an unknown verdict is incomplete, never agreement. */
  lemma AgreementMeans(d: C.Disposition, allowed: bool)
    ensures TC.Compare(d, allowed) == TC.Agree <==> d == if allowed then C.Allow else C.Refuse
    ensures TC.Compare(d, allowed) == TC.Incomplete <==> d == C.Unknown
  {
  }

  /**
   An approver may release a call exactly if both cards hold the tool, the child only under review and
   the approver freely, and the approver's own tag allows the child's: it opens every read and write that
   the child's opens, in the same form unless one of the two is nothing or everything, and remembers as much.
   */
  lemma CeilingMeans(child: seq<TC.Tool>, approver: seq<TC.Tool>, operation: string)
    ensures TC.ReviewCeiling(child, approver, operation) <==>
            && TC.Find(child, operation).Some? && TC.Find(approver, operation).Some?
            && var (mine, theirs) := (TC.Tag(child, operation), TC.Tag(approver, operation));
               && mine.permit == Ask && theirs.permit == Go && MemoryAllows(theirs.memory, mine.memory)
               && (forall writes, path | Opens(mine.file, writes, path) :: Opens(theirs.file, writes, path))
               && (mine.file == theirs.file || mine.file.NoFile? || theirs.file.Unbounded?)
  {
    hide TC.Find, Opens, FileWithin, MemoryAllows, PermitFits;
    AllowsMeans(NewCharter(TC.Tag(approver, operation)), TC.Tag(child, operation));
    hide Allows, TC.Tag;
  }

  /** A tool whose card declares no tag counts as one that may touch every file, but only under review, so no approver without a tag releases anything. */
  lemma UntaggedAsks(tools: seq<TC.Tool>, name: string, child: seq<TC.Tool>)
    requires TC.Find(tools, name).Some? && TC.Find(tools, name).value.seed.None?
    ensures TC.Tag(tools, name).permit == Ask && !TC.ReviewCeiling(child, tools, name)
    ensures forall writes, path :: Opens(TC.Tag(tools, name).file, writes, path)
  {
    hide TC.Find, TC.FileFits, Allows;
  }
}
