/** The workspace over whole runs: one commit, former HEADs, refs and the current branch. */
module MerkleRuns {
  import opened Basics
  import opened ObjectIds
  import opened Merkle
  import opened MerkleLaws
  import opened MerkleReads

  // ---------------------------------------------------------------- one commit

  lemma CommitCloses(p: Platform, o: Objects, root: ObjectId, path: Path, bytes: Bytes, trees: set<ObjectId>)
    returns (trees': set<ObjectId>)
    requires TreeCodec(p) && Honest(p, o) && Closed(p, o, trees) && root in trees && path != []
    requires CollisionFree(p, Commit(p, o, root, path, bytes).0)
    ensures var (o', r) := Commit(p, o, root, path, bytes);
            && Grows(o, o') && Honest(p, o') && trees <= trees' && Closed(p, o', trees')
            && (r.Ok? ==> r.value in trees')
    ensures Identify(p, BLOB, bytes) in Put(p, o, BLOB, bytes).files
    ensures Put(p, o, BLOB, bytes).files[Identify(p, BLOB, bytes)] == bytes
    ensures Grows(o, Put(p, o, BLOB, bytes)) && Honest(p, Put(p, o, BLOB, bytes))
  {
    hide Upsert, Put;
    var o1, blob := Put(p, o, BLOB, bytes), Identify(p, BLOB, bytes);
    var t := GetTree(p, o, root).value;
    var (o2, r) := Upsert(p, o1, t, path, File, blob);
    CommitUnfolds(p, o, root, path, bytes, trees);
    PutStores(p, o, BLOB, bytes);
    ClosedGrows(p, o, o1, trees);
    trees' := UpsertCloses(p, o1, t, path, blob, trees);
    if r.Ok? {
      var o' := Put(p, o2, TREE, p.encode(r.value));
      PutStores(p, o2, TREE, p.encode(r.value));
      ClosedGrows(p, o2, o', trees');
      trees' := AddTree(p, o', trees', r.value);
    }
  }

  /** The steps of a commit, with the collision-freedom each of them inherits. */
  lemma CommitUnfolds(p: Platform, o: Objects, root: ObjectId, path: Path, bytes: Bytes, trees: set<ObjectId>)
    requires Honest(p, o) && Closed(p, o, trees) && root in trees && path != []
    requires CollisionFree(p, Commit(p, o, root, path, bytes).0)
    ensures GetTree(p, o, root).Ok?
    ensures var o1 := Put(p, o, BLOB, bytes);
            var (o2, r) := Upsert(p, o1, GetTree(p, o, root).value, path, File, Identify(p, BLOB, bytes));
            && CollisionFree(p, o1) && CollisionFree(p, o2)
            && Commit(p, o, root, path, bytes) ==
               if r.Err? then (o2, Err(r.error))
               else (Put(p, o2, TREE, p.encode(r.value)), Ok(Identify(p, TREE, p.encode(r.value))))
  {
    var o1 := Put(p, o, BLOB, bytes);
    var t := GetTree(p, o, root).value;
    assert GetTree(p, o1, root) == Ok(t);
    UpsertHashes(p, o1, t, path, Identify(p, BLOB, bytes));
  }

  lemma {:induction false} UpsertHashes(p: Platform, o: Objects, t: Directory, path: Path, id: ObjectId)
    requires path != []
    ensures o.hashed <= Upsert(p, o, t, path, File, id).0.hashed
    decreases |path|
  {
    if |path| > 1 && ChildOf(p, o, t, path[0]).Ok? {
      UpsertHashes(p, o, ChildOf(p, o, t, path[0]).value, path[1..], id);
    }
  }

  /**
   A commit refines one update of the path map: the written path has the written bytes, what
   lay below it is gone, and every other file is as it was.
   */
  lemma CommitRefines(p: Platform, o: Objects, root: ObjectId, path: Path, bytes: Bytes, trees: set<ObjectId>, q: Path)
    requires TreeCodec(p) && Honest(p, o) && Closed(p, o, trees) && root in trees && path != []
    requires CollisionFree(p, Commit(p, o, root, path, bytes).0) && Commit(p, o, root, path, bytes).1.Ok?
    ensures var (o', r) := Commit(p, o, root, path, bytes);
            && ContentAt(p, o', r.value, q) == Written(ContentAt(p, o, root, q), path, bytes, q)
            && (!(path <= q) && !(q <= path) ==> Read(p, o', r.value, q) == Read(p, o, root, q))
  {
    hide Upsert, Put, Content, Walk;
    var o1, blob := Put(p, o, BLOB, bytes), Identify(p, BLOB, bytes);
    var t := GetTree(p, o, root).value;
    var (o2, r) := Upsert(p, o1, t, path, File, blob);
    CommitUnfolds(p, o, root, path, bytes, trees);
    PutStores(p, o, BLOB, bytes);
    ClosedGrows(p, o, o1, trees);
    var trees' := UpsertCloses(p, o1, t, path, blob, trees);
    var o' := Put(p, o2, TREE, p.encode(r.value));
    PutStores(p, o2, TREE, p.encode(r.value));
    assert GetTree(p, o', Identify(p, TREE, p.encode(r.value))) == Ok(r.value);
    UpsertContent(p, o1, t, path, blob, trees, q);
    ReadsStable(p, o, o1, trees, t, q);
    ReadsStable(p, o2, o', trees', r.value, q);
    if !(path <= q) && !(q <= path) {
      UpsertWalk(p, o1, t, path, blob, trees, q);
      WalkMeaning(p, o, trees, t, q);
    }
  }

  /** A write is refused exactly when reading its path already meets a file on the way. */
  lemma CommitRefused(p: Platform, o: Objects, root: ObjectId, path: Path, bytes: Bytes, trees: set<ObjectId>)
    requires TreeCodec(p) && Honest(p, o) && Closed(p, o, trees) && root in trees && path != []
    requires CollisionFree(p, Commit(p, o, root, path, bytes).0)
    ensures var r := Commit(p, o, root, path, bytes).1;
            && (r.Err? <==> exists k :: 0 < k < |path| && ContentAt(p, o, root, path[..k]).Some?)
            && (r.Err? ==> r.error == NestUnderFile)
  {
    hide Upsert, Put, Content, Walk;
    var o1, blob := Put(p, o, BLOB, bytes), Identify(p, BLOB, bytes);
    var t := GetTree(p, o, root).value;
    CommitUnfolds(p, o, root, path, bytes, trees);
    PutStores(p, o, BLOB, bytes);
    ClosedGrows(p, o, o1, trees);
    UpsertRefused(p, o1, t, path, blob, trees);
    WalkMeaning(p, o, trees, t, path);
    ReadsStable(p, o, o1, trees, t, path);
  }

  /** In a closed store a read fails only because a file lies on the way. */
  lemma ReadMeaning(p: Platform, o: Objects, root: ObjectId, trees: set<ObjectId>, path: Path)
    requires Closed(p, o, trees) && root in trees
    ensures match Read(p, o, root, path)
            case Err(e) => e == PrefixNotTree && ContentAt(p, o, root, path) == None
            case Ok(None) => ContentAt(p, o, root, path) == None
            case Ok(Some(bytes)) => p.decode(bytes).Some? || ContentAt(p, o, root, path) == Some(bytes)
    ensures ContentAt(p, o, root, path).Some? ==> Read(p, o, root, path) == Ok(ContentAt(p, o, root, path))
    ensures path == [] ==> Read(p, o, root, path) == Ok(Some(o.files[root]))
  {
    hide Content, Walk;
    var t := GetTree(p, o, root).value;
    if path != [] {
      WalkMeaning(p, o, trees, t, path);
    } else {
      EmptyContent(p, o, t);
    }
  }

  lemma EmptyContent(p: Platform, o: Objects, t: Directory)
    ensures Content(p, o, t, []) == None
  {
  }

  // ---------------------------------------------------------------- runs

  /** `PutBlob` and `PutTree` are also what an interrupted write leaves behind. */
  datatype Op =
    | DoPutBlob(payload: Bytes)
    | DoPutTree(tree: Directory)
    | DoWrite(isLead: bool, path: Path, bytes: Bytes, stop: Stop)
    | DoBranch(isLead: bool, name: string)
    | DoCheckout(isLead: bool, name: string, stop: Stop)
    | DoReset(isLead: bool, id: ObjectId, stop: Stop)
    | DoMerge(isLead: bool, name: string, stop: Stop)

  function Apply(p: Platform, r: Repo, op: Op): Repo {
    match op
    case DoPutBlob(payload) => r.(objects := Put(p, r.objects, BLOB, payload))
    case DoPutTree(tree) => r.(objects := Put(p, r.objects, TREE, p.encode(tree)))
    case DoWrite(isLead, path, bytes, stop) => WriteFile(p, r, isLead, path, bytes, stop).0
    case DoBranch(isLead, name) => Branch(r, isLead, name).0
    case DoCheckout(isLead, name, stop) => Checkout(p, r, isLead, name, stop).0
    case DoReset(isLead, id, stop) => Reset(p, r, isLead, id, stop).0
    case DoMerge(isLead, name, stop) => MergeFf(p, r, isLead, name, stop).0
  }

  /**
   The repository, every id HEAD has had, and the snapshots: the first HEAD, and every root
   that a write built from a snapshot.
   */
  datatype World = World(repo: Repo, heads: set<ObjectId>, snapshots: set<ObjectId>)

  function Built(p: Platform, w: World, op: Op): set<ObjectId> {
    if op.DoWrite? && op.isLead && op.path != [] && w.repo.head in w.snapshots then
      match Commit(p, w.repo.objects, w.repo.head, op.path, op.bytes).1
      case Ok(id) => {id}
      case Err(_) => {}
    else {}
  }

  function Step(p: Platform, w: World, op: Op): World {
    var r := Apply(p, w.repo, op);
    World(r, w.heads + {r.head}, w.snapshots + Built(p, w, op))
  }

  function Run(p: Platform, w: World, ops: seq<Op>): World
    decreases |ops|
  {
    if ops == [] then w else Run(p, Step(p, w, ops[0]), ops[1..])
  }

  function Start(p: Platform): World {
    var r := Create(p);
    World(r, {r.head}, {r.head})
  }

  ghost predicate Sound(p: Platform, w: World) {
    && Honest(p, w.repo.objects)
    && (forall name | name in w.repo.refs :: w.repo.refs[name] in w.heads)
    && w.repo.head in w.heads
    && exists trees :: Closed(p, w.repo.objects, trees) && w.snapshots <= trees
  }

  lemma StepHashes(p: Platform, w: World, op: Op)
    ensures w.repo.objects.hashed <= Step(p, w, op).repo.objects.hashed
  {
    hide Commit;
    if op.DoWrite? && op.isLead && op.path != [] {
      CommitHashes(p, w.repo.objects, w.repo.head, op.path, op.bytes);
    }
  }

  lemma CommitHashes(p: Platform, o: Objects, root: ObjectId, path: Path, bytes: Bytes)
    requires path != []
    ensures o.hashed <= Commit(p, o, root, path, bytes).0.hashed
  {
    hide Upsert;
    var o1 := Put(p, o, BLOB, bytes);
    if GetTree(p, o1, root).Ok? {
      UpsertHashes(p, o1, GetTree(p, o1, root).value, path, Identify(p, BLOB, bytes));
    }
  }

  lemma {:induction false} RunHashes(p: Platform, w: World, ops: seq<Op>)
    ensures w.repo.objects.hashed <= Run(p, w, ops).repo.objects.hashed
    decreases |ops|
  {
    hide Step;
    if ops != [] {
      StepHashes(p, w, ops[0]);
      RunHashes(p, Step(p, w, ops[0]), ops[1..]);
    }
  }

  lemma {:induction false} UpsertGrows(p: Platform, o: Objects, t: Directory, path: Path, id: ObjectId)
    requires Honest(p, o) && path != [] && CollisionFree(p, Upsert(p, o, t, path, File, id).0)
    ensures Grows(o, Upsert(p, o, t, path, File, id).0) && Honest(p, Upsert(p, o, t, path, File, id).0)
    decreases |path|
  {
    if |path| > 1 && ChildOf(p, o, t, path[0]).Ok? {
      var child := ChildOf(p, o, t, path[0]).value;
      UpsertGrows(p, o, child, path[1..], id);
      var (o1, r1) := Upsert(p, o, child, path[1..], File, id);
      if r1.Ok? {
        PutStores(p, o1, TREE, p.encode(r1.value));
      }
    }
  }

  lemma CommitGrows(p: Platform, o: Objects, root: ObjectId, path: Path, bytes: Bytes)
    requires Honest(p, o) && path != [] && CollisionFree(p, Commit(p, o, root, path, bytes).0)
    ensures Grows(o, Commit(p, o, root, path, bytes).0) && Honest(p, Commit(p, o, root, path, bytes).0)
  {
    hide Upsert;
    var o1, blob := Put(p, o, BLOB, bytes), Identify(p, BLOB, bytes);
    if GetTree(p, o1, root).Ok? {
      var t := GetTree(p, o1, root).value;
      UpsertHashes(p, o1, t, path, blob);
      PutStores(p, o, BLOB, bytes);
      UpsertGrows(p, o1, t, path, blob);
      var (o2, r) := Upsert(p, o1, t, path, File, blob);
      if r.Ok? {
        PutStores(p, o2, TREE, p.encode(r.value));
      }
    } else {
      PutStores(p, o, BLOB, bytes);
    }
  }

  lemma StepGrows(p: Platform, w: World, op: Op)
    requires Honest(p, w.repo.objects) && CollisionFree(p, Step(p, w, op).repo.objects)
    ensures Grows(w.repo.objects, Step(p, w, op).repo.objects) && Honest(p, Step(p, w, op).repo.objects)
  {
    hide Commit, Put, Honest, CollisionFree, Identify;
    match op {
      case DoPutBlob(payload) => PutStores(p, w.repo.objects, BLOB, payload);
      case DoPutTree(tree) => PutStores(p, w.repo.objects, TREE, p.encode(tree));
      case DoWrite(isLead, path, bytes, stop) =>
        if isLead && path != [] {
          CommitGrows(p, w.repo.objects, w.repo.head, path, bytes);
        }
      case _ =>
    }
  }

  /** Every operation, interrupted or not, keeps refs among former HEADs and snapshots closed. */
  lemma StepSound(p: Platform, w: World, op: Op)
    requires TreeCodec(p) && Sound(p, w) && CollisionFree(p, Step(p, w, op).repo.objects)
    ensures Sound(p, Step(p, w, op))
  {
    hide Apply, Built;
    var trees :| Closed(p, w.repo.objects, trees) && w.snapshots <= trees;
    StepGrows(p, w, op);
    StepRefs(p, w, op);
    var trees' := StepCloses(p, w, op, trees);
    assert Closed(p, Step(p, w, op).repo.objects, trees') && Step(p, w, op).snapshots <= trees';
  }

  lemma StepCloses(p: Platform, w: World, op: Op, trees: set<ObjectId>) returns (trees': set<ObjectId>)
    requires TreeCodec(p) && Honest(p, w.repo.objects) && CollisionFree(p, Step(p, w, op).repo.objects)
    requires Closed(p, w.repo.objects, trees) && w.snapshots <= trees
    ensures Closed(p, Step(p, w, op).repo.objects, trees') && Step(p, w, op).snapshots <= trees'
  {
    hide Commit, Put, Closed, Honest, CollisionFree, TreeCodec;
    if Built(p, w, op) != {} {
      StepWrites(p, w, op);
      trees' := CommitCloses(p, w.repo.objects, w.repo.head, op.path, op.bytes, trees);
    } else {
      StepGrows(p, w, op);
      ClosedGrows(p, w.repo.objects, Step(p, w, op).repo.objects, trees);
      trees' := trees;
    }
  }

  lemma {:induction false} RunSound(p: Platform, w: World, ops: seq<Op>)
    requires TreeCodec(p) && Sound(p, w) && CollisionFree(p, Run(p, w, ops).repo.objects)
    ensures Sound(p, Run(p, w, ops)) && Grows(w.repo.objects, Run(p, w, ops).repo.objects)
    ensures w.snapshots <= Run(p, w, ops).snapshots
    decreases |ops|
  {
    hide Step;
    if ops != [] {
      var mid := Step(p, w, ops[0]);
      RunHashes(p, mid, ops[1..]);
      StepSound(p, w, ops[0]);
      StepGrows(p, w, ops[0]);
      SnapshotsGrow(p, w, ops[0]);
      RunSound(p, mid, ops[1..]);
    }
  }

  lemma SnapshotsGrow(p: Platform, w: World, op: Op)
    ensures w.snapshots <= Step(p, w, op).snapshots
  {
  }

  lemma StartSound(p: Platform)
    requires TreeCodec(p)
    ensures Sound(p, Start(p))
  {
    var w := Start(p);
    var trees := {w.repo.head};
    assert GetTree(p, w.repo.objects, w.repo.head) == Ok(Directory(map[]));
    assert Closed(p, w.repo.objects, trees) && w.snapshots <= trees;
  }

  /**
   Snapshots never change: whatever runs after one exists, also with writes that stop half-way
   and resets to anything, every path reads from it as before.
   */
  lemma {:induction false} SnapshotsNeverChange(p: Platform, ops: seq<Op>, more: seq<Op>, id: ObjectId, path: Path)
    requires TreeCodec(p)
    requires var w := Run(p, Start(p), ops); id in w.snapshots && CollisionFree(p, Run(p, w, more).repo.objects)
    ensures var w := Run(p, Start(p), ops);
            var w' := Run(p, w, more);
            && id in w'.snapshots
            && Read(p, w'.repo.objects, id, path) == Read(p, w.repo.objects, id, path)
            && ContentAt(p, w'.repo.objects, id, path) == ContentAt(p, w.repo.objects, id, path)
  {
    hide Run, Start, Content, Walk;
    var w := Run(p, Start(p), ops);
    RunHashes(p, w, more);
    StartSound(p);
    RunSound(p, Start(p), ops);
    RunSound(p, w, more);
    var trees :| Closed(p, w.repo.objects, trees) && w.snapshots <= trees;
    ReadsStable(p, w.repo.objects, Run(p, w, more).repo.objects, trees, GetTree(p, w.repo.objects, id).value, path);
  }

  // ---------------------------------------------------------------- HEAD stays whole

  /** A reset that moves HEAD. */
  predicate Resets(p: Platform, r: Repo, op: Op) {
    op.DoReset? && op.isLead && op.stop != BeforeHead && GetTree(p, r.objects, op.id).Ok?
  }

  ghost predicate Guarded(p: Platform, w: World, op: Op) {
    Resets(p, w.repo, op) ==> Whole(p, w.repo.objects, op.id)
  }

  /** A run whose resets go to whole targets. Nothing else is asked of its operations. */
  ghost predicate ResetsToWhole(p: Platform, w: World, ops: seq<Op>)
    decreases |ops|
  {
    ops == [] || (Guarded(p, w, ops[0]) && ResetsToWhole(p, Step(p, w, ops[0]), ops[1..]))
  }

  /** HEAD and every ref lead only to what is there. */
  ghost predicate WholeRefs(p: Platform, r: Repo) {
    Whole(p, r.objects, r.head) && forall name | name in r.refs :: Whole(p, r.objects, r.refs[name])
  }

  /** Every operation leaves HEAD and the refs where they were, or at one of them, a reset target or a new commit. */
  lemma StepPoints(p: Platform, w: World, op: Op, id: ObjectId)
    requires id == Step(p, w, op).repo.head || id in Step(p, w, op).repo.refs.Values
    ensures || id == w.repo.head || id in w.repo.refs.Values
            || (Resets(p, w.repo, op) && id == op.id)
            || (op.DoWrite? && op.isLead && op.path != [] && Commit(p, w.repo.objects, w.repo.head, op.path, op.bytes).1 == Ok(id))
  {
    hide Commit, GetTree, Put;
    var refs, refs' := w.repo.refs, Step(p, w, op).repo.refs;
    if id in refs'.Values {
      var name :| name in refs' && refs'[name] == id;
      assert name in refs ==> refs[name] in refs.Values;
    }
    if op.DoCheckout? || op.DoMerge? {
      assert op.name in refs ==> refs[op.name] in refs.Values;
    }
  }

  lemma StepWhole(p: Platform, w: World, op: Op)
    requires TreeCodec(p) && Honest(p, w.repo.objects) && CollisionFree(p, Step(p, w, op).repo.objects)
    requires WholeRefs(p, w.repo) && Guarded(p, w, op)
    ensures WholeRefs(p, Step(p, w, op).repo)
  {
    var r' := Step(p, w, op).repo;
    StepGrows(p, w, op);
    forall id | id == r'.head || id in r'.refs.Values ensures Whole(p, r'.objects, id) {
      StepPoints(p, w, op, id);
      if op.DoWrite? && op.isLead && op.path != [] && Commit(p, w.repo.objects, w.repo.head, op.path, op.bytes).1 == Ok(id) {
        CommitWhole(p, w, op);
      } else {
        if id in w.repo.refs.Values {
          var name :| name in w.repo.refs && w.repo.refs[name] == id;
        }
        hide Whole, Step, Resets;
        WholeGrows(p, w.repo.objects, r'.objects, id);
      }
    }
    hide Whole, Step;
    forall name | name in r'.refs ensures r'.refs[name] in r'.refs.Values {
    }
  }

  lemma CommitWhole(p: Platform, w: World, op: Op)
    requires TreeCodec(p) && Honest(p, w.repo.objects) && CollisionFree(p, Step(p, w, op).repo.objects)
    requires Whole(p, w.repo.objects, w.repo.head)
    requires op.DoWrite? && op.isLead && op.path != [] && Commit(p, w.repo.objects, w.repo.head, op.path, op.bytes).1.Ok?
    ensures Whole(p, Step(p, w, op).repo.objects, Commit(p, w.repo.objects, w.repo.head, op.path, op.bytes).1.value)
  {
    hide Commit, Closed, Honest, CollisionFree, TreeCodec;
    StepWrites(p, w, op);
    hide Step;
    var trees :| Closed(p, w.repo.objects, trees) && w.repo.head in trees;
    var trees' := CommitCloses(p, w.repo.objects, w.repo.head, op.path, op.bytes, trees);
  }

  lemma StepWrites(p: Platform, w: World, op: Op)
    requires op.DoWrite? && op.isLead && op.path != []
    ensures Step(p, w, op).repo.objects == Commit(p, w.repo.objects, w.repo.head, op.path, op.bytes).0
  {
    hide Commit;
  }

  lemma {:induction false} RunWhole(p: Platform, w: World, ops: seq<Op>)
    requires TreeCodec(p) && Honest(p, w.repo.objects) && CollisionFree(p, Run(p, w, ops).repo.objects)
    requires WholeRefs(p, w.repo) && ResetsToWhole(p, w, ops)
    ensures WholeRefs(p, Run(p, w, ops).repo)
    decreases |ops|
  {
    hide Step, WholeRefs, Guarded;
    if ops != [] {
      RunHashes(p, Step(p, w, ops[0]), ops[1..]);
      StepWhole(p, w, ops[0]);
      StepGrows(p, w, ops[0]);
      RunWhole(p, Step(p, w, ops[0]), ops[1..]);
    }
  }

  lemma StartWhole(p: Platform)
    requires TreeCodec(p)
    ensures WholeRefs(p, Start(p).repo) && Honest(p, Start(p).repo.objects)
  {
    StartSound(p);
    var w := Start(p);
    var trees :| Closed(p, w.repo.objects, trees) && w.snapshots <= trees;
    hide Closed;
    assert w.repo.head in trees;
  }

  /**
   As long as each reset goes to a whole target, every object reachable from HEAD or from any
   ref is present and decodes: a read answers, or stops at a file in the way, and nothing else.
   */
  lemma {:induction false} HeadIsReadable(p: Platform, ops: seq<Op>, path: Path)
    requires TreeCodec(p) && ResetsToWhole(p, Start(p), ops)
    requires CollisionFree(p, Run(p, Start(p), ops).repo.objects)
    ensures var r := Run(p, Start(p), ops).repo;
            && Answers(p, r.objects, r.head, path)
            && (forall name | name in r.refs :: Answers(p, r.objects, r.refs[name], path))
  {
    hide Run, Start, Answers, Whole;
    var r := Run(p, Start(p), ops).repo;
    StartWhole(p);
    RunWhole(p, Start(p), ops);
    ReadableIffWhole(p, r.objects, r.head);
    forall name | name in r.refs ensures Answers(p, r.objects, r.refs[name], path) {
      ReadableIffWhole(p, r.objects, r.refs[name]);
    }
  }

  /** After every operation of the run, every read from HEAD answers or stops at a file in the way. */
  ghost predicate StaysReadable(p: Platform, w: World, ops: seq<Op>)
    decreases |ops|
  {
    Readable(p, w.repo.objects, w.repo.head) && (ops == [] || StaysReadable(p, Step(p, w, ops[0]), ops[1..]))
  }

  /** What a reset leaves can be read exactly if its target was whole. */
  lemma ResetReadableIff(p: Platform, w: World, op: Op)
    requires Resets(p, w.repo, op)
    ensures var r := Step(p, w, op).repo; Readable(p, r.objects, r.head) <==> Whole(p, w.repo.objects, op.id)
  {
    hide Readable, Whole, GetTree;
    ReadableIffWhole(p, w.repo.objects, op.id);
  }

  lemma {:induction false} ReadableIffGuarded(p: Platform, w: World, ops: seq<Op>)
    requires TreeCodec(p) && Honest(p, w.repo.objects) && CollisionFree(p, Run(p, w, ops).repo.objects)
    requires WholeRefs(p, w.repo)
    ensures StaysReadable(p, w, ops) <==> ResetsToWhole(p, w, ops)
    decreases |ops|
  {
    ReadableIffWhole(p, w.repo.objects, w.repo.head);
    hide Step, Readable, Whole;
    if ops != [] {
      var mid := Step(p, w, ops[0]);
      RunHashes(p, mid, ops[1..]);
      StepGrows(p, w, ops[0]);
      if Guarded(p, w, ops[0]) {
        StepWhole(p, w, ops[0]);
        hide WholeRefs, Guarded;
        ReadableIffGuarded(p, mid, ops[1..]);
      } else {
        ResetReadableIff(p, w, ops[0]);
      }
    }
  }

  /**
   Over every run, interrupted or not: everything reachable from HEAD stays present and
   readable throughout if and only if each reset that moves HEAD goes to a whole target.
   */
  lemma {:induction false} HeadStaysReadableIff(p: Platform, ops: seq<Op>)
    requires TreeCodec(p) && CollisionFree(p, Run(p, Start(p), ops).repo.objects)
    ensures StaysReadable(p, Start(p), ops) <==> ResetsToWhole(p, Start(p), ops)
  {
    hide Run, Start, StaysReadable, ResetsToWhole;
    StartWhole(p);
    ReadableIffGuarded(p, Start(p), ops);
  }

  /** The easy guard: a run whose resets name snapshots, the first HEAD or what writes built from one. */
  predicate ResetsToSnapshots(p: Platform, w: World, ops: seq<Op>)
    decreases |ops|
  {
    ops == [] || ((ops[0].DoReset? ==> ops[0].id in w.snapshots) && ResetsToSnapshots(p, Step(p, w, ops[0]), ops[1..]))
  }

  lemma {:induction false} SnapshotsAreWhole(p: Platform, w: World, ops: seq<Op>)
    requires TreeCodec(p) && Sound(p, w) && CollisionFree(p, Run(p, w, ops).repo.objects) && ResetsToSnapshots(p, w, ops)
    ensures ResetsToWhole(p, w, ops)
    decreases |ops|
  {
    hide Step;
    if ops != [] {
      var trees :| Closed(p, w.repo.objects, trees) && w.snapshots <= trees;
      assert Guarded(p, w, ops[0]);
      RunHashes(p, Step(p, w, ops[0]), ops[1..]);
      StepSound(p, w, ops[0]);
      hide Sound, Guarded;
      SnapshotsAreWhole(p, Step(p, w, ops[0]), ops[1..]);
    }
  }

  /** A write through HEAD after any such run changes the path map at that path and nowhere else. */
  lemma {:induction false} WriteRefines(p: Platform, ops: seq<Op>, path: Path, bytes: Bytes, q: Path)
    requires TreeCodec(p) && ResetsToWhole(p, Start(p), ops) && path != []
    requires CollisionFree(p, WriteFile(p, Run(p, Start(p), ops).repo, true, path, bytes, Completes).0.objects)
    ensures var r := Run(p, Start(p), ops).repo;
            var (r', result) := WriteFile(p, r, true, path, bytes, Completes);
            && (result.Ok? ==> ContentAt(p, r'.objects, r'.head, q) == Written(ContentAt(p, r.objects, r.head, q), path, bytes, q))
            && (result.Ok? ==> Read(p, r'.objects, r'.head, path) == Ok(Some(bytes)))
            && (result.Ok? && !(path <= q) && !(q <= path) ==> Read(p, r'.objects, r'.head, q) == Read(p, r.objects, r.head, q))
            && (result.Err? ==> r'.head == r.head && ContentAt(p, r'.objects, r'.head, q) == ContentAt(p, r.objects, r.head, q))
            && (result.Err? <==> exists k :: 0 < k < |path| && ContentAt(p, r.objects, r.head, path[..k]).Some?)
  {
    hide Run, Start, Read, ContentAt, Commit;
    var w := Run(p, Start(p), ops);
    var o, root := w.repo.objects, w.repo.head;
    RunThenCommit(p, ops, path, bytes);
    var trees :| Closed(p, o, trees) && root in trees;
    var (o', r) := Commit(p, o, root, path, bytes);
    var trees' := CommitCloses(p, o, root, path, bytes, trees);
    CommitRefused(p, o, root, path, bytes, trees);
    if r.Ok? {
      CommitRefines(p, o, root, path, bytes, trees, q);
      CommitRefines(p, o, root, path, bytes, trees, path);
      ReadMeaning(p, o', r.value, trees', path);
    } else {
      ContentStable(p, o, o', trees, root, q);
    }
  }

  lemma ContentStable(p: Platform, o: Objects, o': Objects, trees: set<ObjectId>, root: ObjectId, q: Path)
    requires Closed(p, o, trees) && root in trees && Grows(o, o')
    ensures ContentAt(p, o', root, q) == ContentAt(p, o, root, q)
  {
    assert GetTree(p, o', root) == GetTree(p, o, root);
    ReadsStable(p, o, o', trees, GetTree(p, o, root).value, q);
  }

  lemma {:induction false} RunThenCommit(p: Platform, ops: seq<Op>, path: Path, bytes: Bytes)
    requires TreeCodec(p) && ResetsToWhole(p, Start(p), ops) && path != []
    requires CollisionFree(p, WriteFile(p, Run(p, Start(p), ops).repo, true, path, bytes, Completes).0.objects)
    ensures var w := Run(p, Start(p), ops);
            && Honest(p, w.repo.objects) && Whole(p, w.repo.objects, w.repo.head)
            && CollisionFree(p, Commit(p, w.repo.objects, w.repo.head, path, bytes).0)
  {
    hide Run, Start, Commit;
    var w := Run(p, Start(p), ops);
    StepHashes(p, w, DoWrite(true, path, bytes, Completes));
    assert w.repo.objects.hashed <= WriteFile(p, w.repo, true, path, bytes, Completes).0.objects.hashed;
    StartSound(p);
    RunSound(p, Start(p), ops);
    StartWhole(p);
    RunWhole(p, Start(p), ops);
    hide Whole;
  }

  /**
   A write is undone by a reset to the HEAD it started from, however much was done in between:
   every path reads as it did before the write.
   */
  lemma {:induction false} ResetUndoes(p: Platform, ops: seq<Op>, more: seq<Op>, path: Path)
    requires TreeCodec(p) && ResetsToWhole(p, Start(p), ops)
    requires CollisionFree(p, Run(p, Run(p, Start(p), ops), more).repo.objects)
    ensures var before := Run(p, Start(p), ops).repo;
            var (after, result) := Reset(p, Run(p, Run(p, Start(p), ops), more).repo, true, before.head, Completes);
            && result == Ok(before.head) && after.head == before.head
            && Read(p, after.objects, after.head, path) == Read(p, before.objects, before.head, path)
  {
    hide Run, Start, Read, Sound, WholeRefs, Whole, Grows, Honest, CollisionFree, ResetsToWhole;
    var w := Run(p, Start(p), ops);
    var w' := Run(p, w, more);
    RunHashes(p, w, more);
    FewerFree(p, w.repo.objects, w'.repo.objects);
    StartSound(p);
    RunSound(p, Start(p), ops);
    StartWhole(p);
    RunWhole(p, Start(p), ops);
    RunSound(p, w, more);
    HeadIsWhole(p, w.repo);
    WholeStable(p, w.repo.objects, w'.repo.objects, w.repo.head, path);
  }

  lemma HeadIsWhole(p: Platform, r: Repo)
    requires WholeRefs(p, r)
    ensures Whole(p, r.objects, r.head)
  {
  }

  lemma FewerFree(p: Platform, o: Objects, o': Objects)
    requires o.hashed <= o'.hashed && CollisionFree(p, o')
    ensures CollisionFree(p, o)
  {
  }

  /** What a whole root gives is not changed by objects added later. */
  lemma WholeStable(p: Platform, o: Objects, o': Objects, root: ObjectId, path: Path)
    requires Whole(p, o, root) && Grows(o, o')
    ensures GetTree(p, o', root) == GetTree(p, o, root) && GetTree(p, o', root).Ok?
    ensures Read(p, o', root, path) == Read(p, o, root, path)
  {
    var trees :| Closed(p, o, trees) && root in trees;
    hide Walk, Content;
    ReadsStable(p, o, o', trees, GetTree(p, o, root).value, path);
  }

  /** Without the guard it fails: `reset` accepts any object that parses as a directory. */
  lemma ResetAcceptsBroken(p: Platform)
    requires TreeCodec(p)
    requires var broken := Directory(map["d" := TreeEntry(Tree, [])]);
             CollisionFree(p, Apply(p, Create(p), DoPutTree(broken)).objects)
    ensures var broken := Directory(map["d" := TreeEntry(Tree, [])]);
            var id := Identify(p, TREE, p.encode(broken));
            var (r, result) := Reset(p, Apply(p, Create(p), DoPutTree(broken)), true, id, Completes);
            result == Ok(id) && Read(p, r.objects, r.head, ["d"]) == Err(BadHex)
  {
    var broken := Directory(map["d" := TreeEntry(Tree, [])]);
    StartSound(p);
    PutStores(p, Create(p).objects, TREE, p.encode(broken));
  }

  // ---------------------------------------------------------------- refs and the current branch

  /** Refs name former HEADs after every run, wherever its writes stopped. */
  lemma {:induction false} RefsNameFormerHeads(p: Platform, w: World, ops: seq<Op>)
    requires w.repo.head in w.heads && forall name | name in w.repo.refs :: w.repo.refs[name] in w.heads
    ensures var w' := Run(p, w, ops);
            w'.repo.head in w'.heads && forall name | name in w'.repo.refs :: w'.repo.refs[name] in w'.heads
    decreases |ops|
  {
    if ops != [] {
      StepRefs(p, w, ops[0]);
      hide Step;
      RefsNameFormerHeads(p, Step(p, w, ops[0]), ops[1..]);
    }
  }

  lemma StepRefs(p: Platform, w: World, op: Op)
    requires w.repo.head in w.heads && forall name | name in w.repo.refs :: w.repo.refs[name] in w.heads
    ensures var w' := Step(p, w, op);
            w'.repo.head in w'.heads && forall name | name in w'.repo.refs :: w'.repo.refs[name] in w'.heads
  {
    hide Commit, GetTree, Put;
  }

  /** The current branch's ref is HEAD. */
  predicate Synced(r: Repo) {
    r.branch.Some? ==> r.branch.value in r.refs && r.refs[r.branch.value] == r.head
  }

  /** Where the three writes stop decides exactly whether HEAD and the branch still agree. */
  lemma SyncedAfter(r: Repo, id: ObjectId, branch: Option<string>, stop: Stop)
    requires Synced(r)
    ensures var r' := SetHead(r, id, branch, stop).0;
            Synced(r') <==>
            match stop
            case Completes => true
            case BeforeHead => true
            case AfterHead => r.branch.None? || r.head == id
            case AfterRef => r.branch.None? || r.branch == branch || r.head == id
  {
  }

  predicate Uninterrupted(op: Op) {
    match op
    case DoWrite(_, _, _, stop) => stop == Completes
    case DoCheckout(_, _, stop) => stop == Completes
    case DoReset(_, _, stop) => stop == Completes
    case DoMerge(_, _, stop) => stop == Completes
    case _ => true
  }

  /** Over every run without an interrupted write, HEAD and the current branch agree. */
  lemma {:induction false} BranchFollowsHead(p: Platform, w: World, ops: seq<Op>)
    requires Synced(w.repo) && forall i | 0 <= i < |ops| :: Uninterrupted(ops[i])
    ensures Synced(Run(p, w, ops).repo)
    decreases |ops|
  {
    if ops != [] {
      StepSynced(p, w, ops[0]);
      hide Step;
      BranchFollowsHead(p, Step(p, w, ops[0]), ops[1..]);
    }
  }

  lemma StepSynced(p: Platform, w: World, op: Op)
    requires Synced(w.repo) && Uninterrupted(op)
    ensures Synced(Step(p, w, op).repo)
  {
    hide Commit, GetTree, Put;
  }
}
