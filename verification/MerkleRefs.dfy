/** HEAD, the refs and the current branch: who may move them, where each operation leaves them, and what a branch keeps. */
module MerkleRefs {
  import opened Basics
  import opened ObjectIds
  import opened Merkle
  import opened MerkleLaws
  import opened MerkleReads
  import opened MerkleRuns

  /** HEAD is `id`, and so is the ref of the current branch, which is the same branch; no other ref moved. */
  predicate Moved(r: Repo, r': Repo, id: ObjectId) {
    && r'.head == id && r'.branch == r.branch
    && r'.refs == if r.branch.Some? then r.refs[r.branch.value := id] else r.refs
  }

  predicate SamePlace(r: Repo, r': Repo) {
    r'.head == r.head && r'.refs == r.refs && r'.branch == r.branch
  }

  // ---------------------------------------------------------------- one operation

  /** A completed write takes the current branch along, and nothing else; a refused one moves nothing. */
  lemma WriteMovesBranch(p: Platform, r: Repo, path: Path, bytes: Bytes)
    ensures var (r', result) := WriteFile(p, r, true, path, bytes, Completes);
            && (result.Ok? ==> Moved(r, r', result.value))
            && (result.Err? ==> SamePlace(r, r'))
            && (path == [] ==> result == Err(EmptyPath) && r' == r)
  {
    hide Commit;
  }

  /** A completed reset, to any object that parses as a directory, takes the current branch along. */
  lemma ResetMovesBranch(p: Platform, r: Repo, id: ObjectId)
    ensures var (r', result) := Reset(p, r, true, id, Completes);
            && (result.Ok? <==> GetTree(p, r.objects, id).Ok?)
            && (if result.Ok? then result.value == id && Moved(r, r', id) && r'.objects == r.objects else r' == r && result.error == NotATree)
  {
  }

  /** A completed checkout goes to where its ref is, makes that branch the current one, and moves no ref. */
  lemma CheckoutSwitches(p: Platform, r: Repo, name: string)
    ensures var (r', result) := Checkout(p, r, true, name, Completes);
            && (result.Ok? <==> name in r.refs && GetTree(p, r.objects, r.refs[name]).Ok?)
            && (if result.Ok? then result.value == r.refs[name] && r' == r.(head := r.refs[name], branch := Some(name)) else r' == r)
            && (result.Err? ==> result.error == if name in r.refs then NotATree else UnknownRef)
  {
    assert name in r.refs ==> r.refs[name := r.refs[name]] == r.refs;
  }

  /** A completed merge takes HEAD and the current branch to where another ref is, which stays there. */
  lemma MergeMovesBranch(p: Platform, r: Repo, name: string)
    ensures var (r', result) := MergeFf(p, r, true, name, Completes);
            && (result.Ok? <==> name in r.refs && GetTree(p, r.objects, r.refs[name]).Ok?)
            && (if result.Ok? then result.value == r.refs[name] && Moved(r, r', r.refs[name]) && r'.objects == r.objects && r'.refs[name] == r.refs[name]
                else r' == r)
            && (result.Err? ==> result.error == if name in r.refs then NotATree else UnknownRef)
  {
  }

  /** A new branch is at HEAD; it takes over neither HEAD nor the current branch. */
  lemma BranchIsHead(r: Repo, name: string)
    ensures var (r', result) := Branch(r, true, name);
            && (result.Ok? <==> IsRefName(name))
            && (if result.Ok? then result.value == r.head && name in r'.refs && r'.refs[name] == r.head else r' == r && result.error == BadRef)
            && r' == r.(refs := r'.refs)
            && (forall other | other != name :: other in r'.refs <==> other in r.refs)
            && (forall other | other != name && other in r.refs :: r'.refs[other] == r.refs[other])
  {
  }

  /** Nobody but the lead changes a byte. */
  lemma OnlyTheLead(p: Platform, r: Repo, path: Path, bytes: Bytes, name: string, id: ObjectId, stop: Stop)
    ensures WriteFile(p, r, false, path, bytes, stop) == (r, Err(NotLead))
    ensures Branch(r, false, name) == (r, Err(NotLead))
    ensures Checkout(p, r, false, name, stop) == (r, Err(NotLead))
    ensures Reset(p, r, false, id, stop) == (r, Err(NotLead))
    ensures MergeFf(p, r, false, name, stop) == (r, Err(NotLead))
  {
  }

  // ---------------------------------------------------------------- runs on one branch

  predicate OnBranch(r: Repo, name: string) {
    r.branch == Some(name) && name in r.refs && r.refs[name] == r.head
  }

  /** An operation that completes and checks out nothing else. */
  predicate StaysOn(op: Op, name: string) {
    Uninterrupted(op) && (op.DoCheckout? ==> op.name == name)
  }

  lemma StepOnBranch(p: Platform, w: World, op: Op, name: string)
    requires OnBranch(w.repo, name) && StaysOn(op, name)
    ensures OnBranch(Step(p, w, op).repo, name)
  {
    hide Commit, GetTree, Put;
  }

  /**
   Once a branch is checked out, any completed writes, resets, merges and branch calls leave it
   the current one, and its ref at HEAD: what was done on it is what its ref names.
   */
  lemma {:induction false} BranchCarriesWork(p: Platform, w: World, ops: seq<Op>, name: string)
    requires OnBranch(w.repo, name) && forall i | 0 <= i < |ops| :: StaysOn(ops[i], name)
    ensures OnBranch(Run(p, w, ops).repo, name)
    decreases |ops|
  {
    if ops != [] {
      StepOnBranch(p, w, ops[0], name);
      hide Step, OnBranch;
      BranchCarriesWork(p, Step(p, w, ops[0]), ops[1..], name);
    }
  }

  lemma CheckoutStarts(p: Platform, r: Repo, name: string)
    requires Checkout(p, r, true, name, Completes).1.Ok?
    ensures OnBranch(Checkout(p, r, true, name, Completes).0, name)
  {
    CheckoutSwitches(p, r, name);
  }

  /** An operation that neither works on this ref nor points it elsewhere. */
  predicate LeavesRef(op: Op, name: string) {
    && (op.DoBranch? ==> op.name != name)
    && (op.DoCheckout? ==> op.name != name)
  }

  lemma StepLeavesRef(p: Platform, w: World, op: Op, name: string)
    requires name in w.repo.refs && w.repo.branch != Some(name) && LeavesRef(op, name)
    ensures var r := Step(p, w, op).repo; name in r.refs && r.refs[name] == w.repo.refs[name] && r.branch != Some(name)
  {
    hide Commit, GetTree, Put;
  }

  /** A ref that is not the current branch stays where it is, whatever else runs, stopped half-way or not. */
  lemma {:induction false} OtherRefsStay(p: Platform, w: World, ops: seq<Op>, name: string)
    requires name in w.repo.refs && w.repo.branch != Some(name) && forall i | 0 <= i < |ops| :: LeavesRef(ops[i], name)
    ensures var r := Run(p, w, ops).repo; name in r.refs && r.refs[name] == w.repo.refs[name] && r.branch != Some(name)
    decreases |ops|
  {
    if ops != [] {
      StepLeavesRef(p, w, ops[0], name);
      hide Step;
      OtherRefsStay(p, Step(p, w, ops[0]), ops[1..], name);
    }
  }

  /**
   Switching away and back loses nothing: after any completed work on a branch, a checkout of
   another one, and any operations there that leave the first ref alone, stopped or not, a
   checkout of the first branch succeeds, HEAD is where its work ended, and every path reads as
   it did then.
   */
  lemma {:induction false} SwitchingLosesNothing(p: Platform, w: World, work: seq<Op>, name: string, other: string, there: seq<Op>, path: Path)
    requires TreeCodec(p) && Sound(p, w) && OnBranch(w.repo, name) && name != other
    requires forall i | 0 <= i < |work| :: StaysOn(work[i], name)
    requires forall i | 0 <= i < |there| :: LeavesRef(there[i], name)
    requires var done := Run(p, w, work);
             var moved := Step(p, done, DoCheckout(true, other, Completes));
             && Whole(p, done.repo.objects, done.repo.head)
             && Checkout(p, done.repo, true, other, Completes).1.Ok?
             && CollisionFree(p, Run(p, moved, there).repo.objects)
    ensures var done := Run(p, w, work);
            var away := Run(p, Step(p, done, DoCheckout(true, other, Completes)), there);
            var (back, result) := Checkout(p, away.repo, true, name, Completes);
            && result == Ok(done.repo.head) && back.head == done.repo.head && back.branch == Some(name)
            && Read(p, back.objects, back.head, path) == Read(p, done.repo.objects, done.repo.head, path)
  {
    var done := Run(p, w, work);
    var moved := Step(p, done, DoCheckout(true, other, Completes));
    var away := Run(p, moved, there);
    BranchCarriesWork(p, w, work, name);
    CheckoutSwitches(p, done.repo, other);
    assert moved.repo == Checkout(p, done.repo, true, other, Completes).0;
    OtherRefsStay(p, moved, there, name);
    RunHashes(p, moved, there);
    FewerFree(p, moved.repo.objects, away.repo.objects);
    RunHashes(p, w, work);
    assert moved.repo.objects == done.repo.objects;
    hide Run, Step, Read, Sound, Whole, Grows, Honest, CollisionFree, TreeCodec;
    RunSound(p, w, work);
    StepSound(p, done, DoCheckout(true, other, Completes));
    RunSound(p, moved, there);
    WholeStable(p, done.repo.objects, away.repo.objects, done.repo.head, path);
    CheckoutSwitches(p, away.repo, name);
  }

  // ---------------------------------------------------------------- names of refs

  const LOWER := "abcdefghijklmnopqrstuvwxyz"
  const UPPER := "ABCDEFGHIJKLMNOPQRSTUVWXYZ"
  const OTHERS := "0123456789-_"
  const LETTERS := LOWER + UPPER + OTHERS

  lemma LetterIff(c: char)
    ensures IsRefChar(c) <==> c in LETTERS
  {
    LowerIff(c);
    UpperIff(c);
    assert '0' <= c <= '9' || c == '-' || c == '_' <==> c in OTHERS;
  }

  lemma LowerIff(c: char)
    ensures 'a' <= c <= 'z' <==> c in LOWER
  {
  }

  lemma UpperIff(c: char)
    ensures 'A' <= c <= 'Z' <==> c in UPPER
  {
  }

  predicate PlainName(name: string) {
    |name| > 0 && forall c | c in name :: c in LETTERS
  }

  lemma PlainIff(name: string)
    ensures IsRefName(name) <==> PlainName(name)
  {
    forall i | 0 <= i < |name| ensures IsRefChar(name[i]) <==> name[i] in LETTERS {
      LetterIff(name[i]);
    }
    hide IsRefChar;
    assert forall i | 0 <= i < |name| :: name[i] in name;
  }

  predicate PlainRefs(r: Repo) {
    (forall name | name in r.refs :: IsRefName(name)) && (r.branch.Some? ==> IsRefName(r.branch.value))
  }

  lemma StepPlain(p: Platform, w: World, op: Op)
    requires PlainRefs(w.repo)
    ensures PlainRefs(Step(p, w, op).repo)
  {
    hide Commit, GetTree, Put, IsRefName;
  }

  lemma {:induction false} RunPlain(p: Platform, w: World, ops: seq<Op>)
    requires PlainRefs(w.repo)
    ensures PlainRefs(Run(p, w, ops).repo)
    decreases |ops|
  {
    hide Step, PlainRefs;
    if ops != [] {
      StepPlain(p, w, ops[0]);
      RunPlain(p, Step(p, w, ops[0]), ops[1..]);
    }
  }

  /** After every run each ref has a name of letters, digits, dashes and underscores, one at least; so no ref is a path to anywhere else. */
  lemma RefsArePlain(p: Platform, ops: seq<Op>, name: string)
    requires name in Run(p, Start(p), ops).repo.refs
    ensures PlainName(name) && '/' !in name && '.' !in name
  {
    RunPlain(p, Start(p), ops);
    PlainIff(name);
    hide Run;
    LetterIff('/');
    LetterIff('.');
  }
}
