/** The recorder as the object that appends to its tape and moves its seats, and the reader of that tape. */
module RecorderObjects {
  import opened Basics
  import opened Chains
  import opened Charters
  import opened Seats
  import opened SeatTrees
  import opened Recorders
  import opened TapeSeats
  import opened RecorderRuns
  import RestoreRuns

  // ---------------------------------------------------------------- reading a tape

  /** Everything at or below the root is listed. */
  ghost predicate Collects(up: map<Id, Id>, root: Id, drop: seq<Id>) {
    forall x | x in up :: x in drop <==> Above(up, x, root)
  }

  /** Collects a subtree by growing the list it walks. Without a cycle nothing is listed twice. */
  method CollectSubtree(m: map<Id, Id>, root: Id) returns (drop: seq<Id>)
    requires Acyclic(m)
    ensures Collects(m, root, drop)
  {
    drop := [root];
    var i := 0;
    DropStart(m, root);
    hide Dropping, Acyclic;
    while i < |drop|
      invariant i <= |drop| && Dropping(m, root, drop, i, {})
      decreases |m| + 1 - i
    {
      DropFits(m, root, drop, i);
      var id := drop[i];
      var children := set x | x in m && m[x] == id;
      drop := ListChildren(m, root, drop, i, children);
      DropAll(m, root, drop, i);
      i := i + 1;
    }
    Dropped(m, root, drop);
  }

  /** Lists the children of the seat at hand. */
  method ListChildren(m: map<Id, Id>, root: Id, before: seq<Id>, i: nat, children: set<Id>) returns (drop: seq<Id>)
    requires Acyclic(m) && i < |before| && Dropping(m, root, before, i, {})
    requires children == set x | x in m && m[x] == before[i]
    ensures i < |drop| && drop[i] == before[i] && Dropping(m, root, drop, i, children)
  {
    hide Dropping, Acyclic;
    drop := before;
    var rest := children;
    assert children - rest == {};
    while rest != {}
      invariant i < |drop| && drop[i] == before[i] && rest <= children
      invariant Dropping(m, root, drop, i, children - rest)
      decreases |rest|
    {
      var child :| child in rest;
      DropOne(m, root, drop, i, children - rest, child);
      assert children - rest + {child} == children - (rest - {child});
      rest := rest - {child};
      drop := drop + [child];
    }
    assert children - rest == children;
  }

  function Keep(m: Fold, drop: seq<Id>): Fold {
    map x | x in m && x !in drop :: m[x]
  }

  lemma KeepStep(m: Fold, drop: seq<Id>, x: Id)
    ensures Keep(m, drop + [x]) == Keep(m, drop) - {x}
  {
  }

  lemma KeepIsCut(m: Fold, root: Id, drop: seq<Id>)
    requires Collects(Parents(m), root, drop)
    ensures Keep(m, drop) == Cut(m, root)
  {
    assert Parents(m).Keys == m.Keys;
    hide Above;
  }

  method RemoveSubtree(m: Fold, root: Id) returns (kept: Fold)
    requires Acyclic(Parents(m))
    ensures kept == Cut(m, root)
  {
    assert Keep(m, []) == m;
    hide Acyclic, Keep, Cut, Collects;
    var drop := CollectSubtree(Parents(m), root);
    KeepIsCut(m, root, drop);
    kept := m;
    for j := 0 to |drop|
      invariant kept == Keep(m, drop[..j])
    {
      KeepStep(m, drop[..j], drop[j]);
      kept := kept - {drop[j]};
      assert drop[..j + 1] == drop[..j] + [drop[j]];
    }
    assert drop[..|drop|] == drop;
  }

  /** The links of the first `i` are followed, and these of the next; nobody is listed twice. */
  ghost predicate Dropping(m: map<Id, Id>, root: Id, drop: seq<Id>, i: nat, taken: set<Id>) {
    && |drop| > 0 && drop[0] == root && i <= |drop|
    && (forall k | 0 <= k < |drop| :: Above(m, drop[k], root))
    && (forall a, b | 0 <= a < b < |drop| :: drop[a] != drop[b])
    && (forall k | 0 < k < |drop| :: drop[k] in m && (drop[k] in taken || m[drop[k]] in drop[..i]))
    && (forall x | x in m && m[x] in drop[..i] :: x in drop)
    && (forall x | x in taken :: x in drop && i < |drop| && x in m && m[x] == drop[i])
  }

  lemma DropFits(m: map<Id, Id>, root: Id, drop: seq<Id>, i: nat)
    requires Dropping(m, root, drop, i, {})
    ensures |drop| <= |m| + 1
  {
    DistinctFits(drop[1..], m.Keys);
  }

  lemma DropStart(m: map<Id, Id>, root: Id)
    ensures Dropping(m, root, [root], 0, {})
  {
    AboveStep(m, root, root);
  }

  lemma DropOne(m: map<Id, Id>, root: Id, drop: seq<Id>, i: nat, taken: set<Id>, child: Id)
    requires Acyclic(m) && Dropping(m, root, drop, i, taken) && i < |drop|
    requires child in m && m[child] == drop[i] && child !in taken
    ensures Dropping(m, root, drop + [child], i, taken + {child})
  {
    AboveStep(m, child, root);
    assert drop[i] !in drop[..i];
    if child == root {
      var n: nat :| Up(m, drop[i], n) == Some(root);
      assert Up(m, root, n + 1) == Some(root);
      NobodyAboveItself(m, root, n + 1);
    }
    assert (drop + [child])[..i] == drop[..i];
  }

  lemma DropAll(m: map<Id, Id>, root: Id, drop: seq<Id>, i: nat)
    requires i < |drop| && Dropping(m, root, drop, i, set x | x in m && m[x] == drop[i])
    ensures Dropping(m, root, drop, i + 1, {})
  {
    assert drop[..i + 1] == drop[..i] + [drop[i]];
  }

  lemma Dropped(m: map<Id, Id>, root: Id, drop: seq<Id>)
    requires Dropping(m, root, drop, |drop|, {})
    ensures Collects(m, root, drop)
  {
    assert drop[..|drop|] == drop;
    forall x | x in m && Above(m, x, root) ensures x in drop {
      var n: nat :| Up(m, x, n) == Some(root);
      DroppedUp(m, root, drop, x, n);
    }
  }

  lemma {:induction false} DroppedUp(m: map<Id, Id>, root: Id, drop: seq<Id>, x: Id, n: nat)
    requires root in drop && (forall y | y in m && m[y] in drop :: y in drop) && Up(m, x, n) == Some(root)
    ensures x in drop
    decreases n
  {
    if n > 0 {
      DroppedUp(m, root, drop, m[x], n - 1);
    }
  }

  method ParentChainReaches(id: Id, m: map<Id, Id>, me: Id) returns (reaches: bool)
    ensures reaches == Reaches(m, id, me, |m| + 1)
  {
    var cursor := id;
    for k := 0 to |m| + 1
      invariant Reaches(m, id, me, |m| + 1) == Reaches(m, cursor, me, |m| + 1 - k)
    {
      if cursor !in m {
        return false;
      }
      if m[cursor] == me {
        return true;
      }
      cursor := m[cursor];
    }
    return false;
  }

  /** The seats whose chain of parents reaches the recorder. */
  method Reaching(m: Fold, me: Id) returns (live: set<Id>)
    ensures live == set x | x in m && Reaches(Parents(m), x, me, |m| + 1)
  {
    hide Reaches;
    var up := Parents(m);
    assert up.Keys == m.Keys && |up| == |m|;
    live := {};
    var rest := m.Keys;
    while rest != {}
      invariant rest <= m.Keys
      invariant live == set x | x in m && x !in rest && Reaches(up, x, me, |m| + 1)
      decreases |rest|
    {
      var id :| id in rest;
      var reaches := ParentChainReaches(id, up, me);
      if reaches {
        live := live + {id};
      }
      rest := rest - {id};
    }
  }

  /** `restore_seats` on a tape that some run could have written. */
  method RestoreSeats(tape: seq<Record>, me: Id) returns (restored: Fold)
    requires Replayable(tape)
    ensures restored == Restore(tape, me)
  {
    hide FoldOf, HasSpawn, Acyclic, Cut, Reaches;
    NothingFolded();
    var m: Fold := map[];
    var started := false;
    for i := 0 to |tape|
      invariant m == FoldOf(tape[..i])
      invariant started <==> HasSpawn(tape[..i])
    {
      FoldSnoc(tape[..i], tape[i]);
      assert tape[..i + 1] == tape[..i] + [tape[i]];
      match tape[i] {
        case Spawned(id, seat) =>
          started := true;
          m := m[id := seat];
        case Released(id) => m := RemoveSubtree(m, id);
        case ReleasePending(id, _) => m := RemoveSubtree(m, id);
        case Cancelled(id) => m := RemoveSubtree(m, id);
        case SpawnPending(_) =>
        case Unrelated =>
      }
    }
    assert tape[..|tape|] == tape;
    if !started {
      return map[];
    }
    var live := Reaching(m, me);
    restored := map x | x in m && x in live :: m[x];
  }

  lemma NothingFolded()
    ensures FoldOf([]) == map[] && !HasSpawn([])
  {
  }

  /** `pending_release`. */
  method PendingRelease(tape: seq<Record>) returns (pending: Option<(Id, set<Id>)>)
    ensures pending == Marker(tape)
  {
    pending := None;
    for i := 0 to |tape|
      invariant pending == Marker(tape[..i])
    {
      MarkerSnoc(tape[..i], tape[i]);
      assert tape[..i + 1] == tape[..i] + [tape[i]];
      match tape[i] {
        case SpawnPending(id) => pending := Some((id, {id}));
        case ReleasePending(id, workers) => pending := Some((id, workers));
        case Spawned(_, _) => pending := None;
        case Released(_) => pending := None;
        case _ =>
      }
    }
    assert tape[..|tape|] == tape;
  }

  // ---------------------------------------------------------------- the recorder

  lemma OnlySeatsMatter(t: Nodes, roots: set<Id>)
    requires Forest(t)
    ensures Pruned(t, roots * t.Keys) == Pruned(t, roots)
  {
    forall x | x in t ensures BelowOne(t, roots * t.Keys, x) <==> BelowOne(t, roots, x) {
      if BelowOne(t, roots, x) {
        var r :| r in roots && Above(Edges(t), x, r);
        AboveIsThere(t, x, r);
        assert r in roots * t.Keys;
      }
    }
    assert Under(t, roots * t.Keys) == Under(t, roots);
  }

  lemma NoRoots(t: Nodes)
    ensures Pruned(t, {}) == t
  {
    assert Under(t, {}) == {};
    forall x | x in t ensures Node(t[x].parent, t[x].children - {}) == t[x] {
    }
  }

  lemma SameWorkers(t: Nodes, id: Id, out: seq<Id>)
    requires Lists(t, id, out)
    ensures forall x :: x in out <==> x in Under(t, {id})
  {
  }

  lemma PrunedKeys(t: Nodes, id: Id)
    requires Forest(t) && id in t
    ensures Pruned(t, Under(t, {id})).Keys == t.Keys - Under(t, {id})
  {
    PrunedSubtree(t, id);
  }

  lemma SoundForest(r: Recorders.Recorder)
    requires Sound(r)
    ensures Forest(r.nodes)
    ensures Marker(r.tape).Some? ==>
              Pruned(r.nodes, Marker(r.tape).value.1).Keys == r.nodes.Keys - Marker(r.tape).value.1
  {
    if Marker(r.tape).Some? {
      WorkersClosed(r, Marker(r.tape).value.0, Marker(r.tape).value.1);
    }
  }

  lemma MountedSeats(t: Nodes, id: Id, parent: Id)
    ensures var (t', e) := Mount(t, id, Some(parent)); if e.None? then t'.Keys == t.Keys + {id} else t' == t
  {
  }

  lemma OpenedIsSound(me: Id)
    ensures Sound(Opened(me))
  {
    RestoreRuns.OpenedSound(me);
  }

  class Recorder {
    const me: Id
    const tree: Tree
    var tape: seq<Record>
    var seats: seq<Id>
    var bounds: map<Id, Charter>
    ghost var cards: map<Id, Card>
    ghost var cut: set<Id>

    ghost function View(): Recorders.Recorder
      reads this, tree
    {
      Recorders.Recorder(me, tape, tree.nodes, bounds, cards, cut)
    }

    /** The seats it holds are those of the tree. */
    ghost predicate Valid()
      reads this, tree
    {
      Sound(View()) && forall x :: x in tree.nodes <==> x in seats
    }

    constructor (me: Id)
      ensures Valid() && View() == Opened(me) && fresh(tree)
    {
      this.me := me;
      tree := new Tree();
      tape, seats, bounds, cards, cut := [], [me], map[], map[], {};
      new;
      var _ := tree.Mount(me, None);
      OpenedIsSound(me);
    }

    method Admit(parent: Id, tools: seq<ToolTag>, bound: Charter, f: SpawnFaults) returns (refusal: Option<RecorderError>)
      ensures refusal == Admission(View(), parent, tools, bound, f)
    {
      if !f.read {
        return Some(Io);
      }
      var pending := PendingRelease(tape);
      if pending.Some? {
        return Some(Pending(pending.value.0));
      }
      if parent !in tree.nodes {
        return Some(NotMounted);
      }
      if parent != me {
        if parent !in bounds {
          return Some(NotMounted);
        }
        if !Within(bound, bounds[parent]) {
          return Some(WiderThanParent);
        }
      }
      for i := 0 to |tools|
        invariant forall k | 0 <= k < i :: Allows(bound, tools[k])
      {
        if !Allows(bound, tools[i]) {
          return Some(OutsideBound);
        }
      }
      return if f.built then None else Some(SpawnFailed);
    }

    method SpawnChild(parent: Id, id: Id, tools: seq<ToolTag>, bound: Charter, withSub: bool, f: SpawnFaults)
      returns (error: Option<RecorderError>)
      requires Valid()
      modifies this, tree
      ensures Valid()
      ensures (View(), error) == Spawn(old(View()), parent, id, tools, bound, withSub, f)
    {
      hide Sound, Admission, Forest, Mount, SpawnRecords;
      SpawnKeeps(View(), parent, id, tools, bound, withSub, f);
      SoundForest(View());
      MountedSeats(tree.nodes, id, parent);
      var refusal := Admit(parent, tools, bound, f);
      if refusal.Some? {
        return refusal;
      }
      error := MountAndRecord(parent, id, withSub, f);
      if error.Some? {
        assert tree.nodes == old(tree.nodes);
        assert Sound(View());
        return;
      }
      bounds := bounds[id := bound];
      cards := cards[id := Card(tools, !withSub, SeatOf(parent, withSub, f).sub)];
      seats := seats + [id];
      assert Mount(old(tree.nodes), id, Some(parent)).1.None?;
      assert tree.nodes == Mount(old(tree.nodes), id, Some(parent)).0;
      assert Mount(old(tree.nodes), id, Some(parent)).0.Keys == old(tree.nodes).Keys + {id};
      assert View() == Spawn(old(View()), parent, id, tools, bound, withSub, f).0;
    }

    /** The seat is local until the spawn is on the tape; any failure before that drops it. */
    method MountAndRecord(parent: Id, id: Id, withSub: bool, f: SpawnFaults) returns (error: Option<RecorderError>)
      requires Forest(tree.nodes)
      modifies this`tape, tree
      ensures Forest(tree.nodes)
      ensures var (nodes, e) := Mount(old(tree.nodes), id, Some(parent));
              if e.Some? then error == Some(Mounting(e.value)) && tree.nodes == old(tree.nodes) && tape == old(tape)
              else (tape, error) == SpawnRecords(old(tape), parent, id, withSub, f)
                   && tree.nodes == if error.None? then nodes else old(tree.nodes)
    {
      ghost var before := tree.nodes;
      MountedSeats(before, id, parent);
      hide Forest, Mount, Pruned, SpawnRecords;
      var mounted := tree.Mount(id, Some(parent));
      if mounted.Some? {
        return Some(Mounting(mounted.value));
      }
      error := RecordSpawn(parent, id, withSub, f);
      if error.Some? {
        UnmountUndoesMount(before, id, Some(parent));
        var _ := tree.Remove(id);
      }
    }

    method Append(record: Record, w: Appended) returns (ok: bool)
      modifies this`tape
      ensures tape == Noted(old(tape), record, w) && ok == (w == Landed)
    {
      if w != Lost {
        tape := tape + [record];
      }
      return w == Landed;
    }

    method RecordSpawn(parent: Id, id: Id, withSub: bool, f: SpawnFaults) returns (error: Option<RecorderError>)
      modifies this`tape
      ensures (tape, error) == SpawnRecords(old(tape), parent, id, withSub, f)
    {
      var marked := Append(SpawnPending(id), f.pending);
      if !marked {
        return Some(Io);
      }
      if withSub && f.register.None? {
        return Some(Pending(id));
      }
      var spawned := Append(Spawned(id, SeatOf(parent, withSub, f)), f.spawned);
      if !spawned {
        if !f.abandon {
          return Some(Pending(id));
        }
        var released := Append(Released(id), f.released);
        return Some(if released then Io else Pending(id));
      }
      return None;
    }

    method SpawnLite(id: Id, tools: seq<ToolTag>, bound: Charter, f: SpawnFaults) returns (error: Option<RecorderError>)
      requires Valid()
      modifies this, tree
      ensures Valid()
      ensures (View(), error) == Recorders.SpawnLite(old(View()), id, tools, bound, f)
    {
      if !FileIsNone(bound) {
        return Some(LiteFile);
      }
      error := SpawnChild(me, id, tools, bound, false, f);
    }

    method Release(id: Id, f: ReleaseFaults) returns (error: Option<RecorderError>)
      requires Valid()
      modifies this, tree
      ensures Valid()
      ensures (View(), error) == Recorders.Release(old(View()), id, f)
    {
      hide Sound, Forest, Lists, Finish, Pruned, Under, Marker;
      ReleaseKeeps(View(), id, f);
      SoundForest(View());
      if !f.read {
        return Some(Io);
      }
      var pending := PendingRelease(tape);
      if pending.Some? {
        if pending.value.0 != id {
          return Some(Pending(pending.value.0));
        }
        error := FinishRelease(id, pending.value.1, f);
        return;
      }
      var listed := tree.Descendants(id);
      if listed.Err? {
        return Some(Mounting(NotFound));
      }
      var workers := set x | x in listed.value;
      SameWorkers(tree.nodes, id, listed.value);
      assert workers == Under(tree.nodes, {id});
      PrunedKeys(tree.nodes, id);
      var announced := Append(ReleasePending(id, workers), f.pending);
      if f.pending != Lost {
        cut := cut + Heads(tree.nodes, me, id);
      }
      if !announced {
        return Some(Io);
      }
      error := FinishRelease(id, workers, f);
    }

    method FinishRelease(id: Id, workers: set<Id>, f: ReleaseFaults) returns (error: Option<RecorderError>)
      requires Forest(tree.nodes) && (forall x :: x in tree.nodes <==> x in seats)
      requires Pruned(tree.nodes, workers).Keys == tree.nodes.Keys - workers
      modifies this, tree
      ensures (View(), error) == Finish(old(View()), id, workers, f)
      ensures forall x :: x in tree.nodes <==> x in seats
    {
      hide Forest, Pruned;
      bounds := bounds - workers;
      cards := cards - workers;
      DropSeats(workers);
      cut := cut * tree.nodes.Keys;
      if !f.abandon {
        return Some(Pending(id));
      }
      var released := Append(Released(id), f.released);
      return if released then None else Some(Pending(id));
    }

    /** Only a cancel of the recorder's own child is written on this tape. */
    method Cancel(parent: Id, child: Id, first: Appended, second: bool) returns (error: Option<RecorderError>)
      requires Valid()
      modifies this
      ensures Valid()
      ensures (View(), error) == Recorders.Cancel(old(View()), parent, child, first, second)
    {
      hide Sound;
      CancelKeeps(View(), parent, child, first, second);
      if child !in tree.nodes {
        return Some(Mounting(NotFound));
      }
      if tree.nodes[child].parent != Some(parent) {
        return Some(SignalDenied);
      }
      if parent == me {
        var told := Append(Cancelled(child), first);
        if first != Lost {
          cut := cut + {child};
        }
      }
      return if first == Landed && second then None else Some(Io);
    }

    /** Takes the seats of these workers out of the list, then unmounts them one by one. */
    method DropSeats(workers: set<Id>)
      requires Forest(tree.nodes) && forall x :: x in tree.nodes <==> x in seats
      modifies this`seats, tree
      ensures Forest(tree.nodes) && tree.nodes == Pruned(old(tree.nodes), workers)
      ensures forall x :: x in seats <==> x in old(seats) && x !in workers
    {
      ghost var t := tree.nodes;
      var keep: seq<Id> := [];
      var dropping: seq<Id> := [];
      for i := 0 to |seats|
        invariant seats == old(seats) && tree.nodes == t
        invariant forall x :: x in keep <==> x in seats[..i] && x !in workers
        invariant forall x :: x in dropping <==> x in seats[..i] && x in workers
      {
        if seats[i] in workers {
          dropping := dropping + [seats[i]];
        } else {
          keep := keep + [seats[i]];
        }
        assert seats[..i + 1] == seats[..i] + [seats[i]];
      }
      assert seats[..|seats|] == seats;
      seats := keep;
      NoRoots(t);
      ghost var done: set<Id> := {};
      for i := 0 to |dropping|
        invariant seats == keep && Forest(tree.nodes)
        invariant done == set x | x in dropping[..i]
        invariant tree.nodes == Pruned(t, done)
      {
        var _ := tree.Remove(dropping[i]);
        PrunedTwice(t, done, {dropping[i]});
        done := done + {dropping[i]};
        assert dropping[..i + 1] == dropping[..i] + [dropping[i]];
      }
      assert dropping[..|dropping|] == dropping;
      assert done == workers * t.Keys;
      OnlySeatsMatter(t, workers);
    }
  }
}
