/** When the restored seats are the live ones, over every run; and what bounds the workers of a run. */
module RestoreRuns {
  import opened Basics
  import opened Chains
  import opened Charters
  import opened Seats
  import opened Recorders
  import opened TapeSeats
  import opened RecorderRuns

  datatype Op =
    | DoSpawn(parent: Id, id: Id, grants: seq<ToolTag>, bound: Charter, withSub: bool, spawnFaults: SpawnFaults)
    | DoSpawnLite(id: Id, grants: seq<ToolTag>, bound: Charter, spawnFaults: SpawnFaults)
    | DoRelease(id: Id, releaseFaults: ReleaseFaults)
    | DoCancel(parent: Id, child: Id, first: Appended, second: bool)
    | DoNote

  ghost function Apply(r: Recorder, op: Op): Recorder {
    match op
    case DoSpawn(parent, id, grants, bound, withSub, f) => Spawn(r, parent, id, grants, bound, withSub, f).0
    case DoSpawnLite(id, grants, bound, f) => SpawnLite(r, id, grants, bound, f).0
    case DoRelease(id, f) => Release(r, id, f).0
    case DoCancel(parent, child, first, second) => Cancel(r, parent, child, first, second).0
    case DoNote => r.(tape := r.tape + [Unrelated])
  }

  ghost function Run(r: Recorder, ops: seq<Op>): Recorder
    decreases |ops|
  {
    if ops == [] then r else Run(Apply(r, ops[0]), ops[1..])
  }

  lemma NoteKeeps(r: Recorder)
    requires Sound(r)
    ensures Sound(Apply(r, DoNote)) && FoldOf(Apply(r, DoNote).tape) == FoldOf(r.tape)
  {
    FoldSnoc(r.tape, Unrelated);
    MarkerSnoc(r.tape, Unrelated);
    LastFold(r.tape);
    ReplayableSnoc(r.tape, Unrelated);
    hide FoldOf, Marker, Forest, Tracks, Cards, Narrow, Replayable, Fits, OneRoot;
  }

  lemma ApplyKeeps(r: Recorder, op: Op)
    requires Sound(r)
    ensures Sound(Apply(r, op)) && Apply(r, op).me == r.me
  {
    hide Sound;
    match op {
      case DoSpawn(parent, id, grants, bound, withSub, f) => SpawnKeeps(r, parent, id, grants, bound, withSub, f);
      case DoSpawnLite(id, grants, bound, f) => SpawnKeeps(r, r.me, id, grants, bound, false, f);
      case DoRelease(id, f) => ReleaseKeeps(r, id, f);
      case DoCancel(parent, child, first, second) => CancelKeeps(r, parent, child, first, second);
      case DoNote => NoteKeeps(r);
    }
  }

  lemma {:induction false} RunKeeps(r: Recorder, ops: seq<Op>)
    requires Sound(r)
    ensures Sound(Run(r, ops)) && Run(r, ops).me == r.me
    decreases |ops|
  {
    hide Sound, Apply;
    if ops != [] {
      ApplyKeeps(r, ops[0]);
      RunKeeps(Apply(r, ops[0]), ops[1..]);
    }
  }

  lemma OpenedSound(me: Id)
    ensures Sound(Opened(me)) && Clean(Parents(FoldOf(Opened(me).tape)), Opened(me).nodes, {})
  {
    var r := Opened(me);
    var none: map<Id, Id> := map[];
    assert Edges(r.nodes) == none && Parents(FoldOf(r.tape)) == none;
    assert Ranked(none, map[]);
    assert forall i | 0 <= i <= |r.tape| :: r.tape[..i] == [];
  }

  // ---------------------------------------------------------------- the bounded walk

  ghost predicate Near(m: map<Id, Id>, x: Id, y: Id, fuel: nat) {
    exists n: nat | n <= fuel :: Up(m, x, n) == Some(y)
  }

  lemma NearStep(m: map<Id, Id>, x: Id, y: Id, fuel: nat)
    requires x != y
    ensures Near(m, x, y, fuel) <==> fuel > 0 && x in m && Near(m, m[x], y, fuel - 1)
  {
    if Near(m, x, y, fuel) {
      var n: nat :| n <= fuel && Up(m, x, n) == Some(y);
      assert Up(m, m[x], n - 1) == Some(y);
    }
    if fuel > 0 && x in m && Near(m, m[x], y, fuel - 1) {
      var n: nat :| n <= fuel - 1 && Up(m, m[x], n) == Some(y);
      assert Up(m, x, n + 1) == Some(y);
    }
  }

  /** The bounded walk finds exactly what lies within its fuel. */
  lemma {:induction false} FuelMeaning(m: map<Id, Id>, x: Id, me: Id, fuel: nat)
    requires me !in m
    ensures Reaches(m, x, me, fuel) <==> x != me && Near(m, x, me, fuel)
    decreases fuel
  {
    if x in m && fuel > 0 {
      FuelMeaning(m, m[x], me, fuel - 1);
      NearStep(m, x, me, fuel);
      if m[x] == me {
        assert Up(m, me, 0) == Some(me);
      }
    } else if x != me {
      NearStep(m, x, me, fuel);
    }
  }

  /** In a map without cycles the fuel always suffices. */
  lemma ReachesIsAbove(m: map<Id, Id>, x: Id, me: Id)
    requires Acyclic(m) && me !in m && x in m
    ensures Reaches(m, x, me, |m| + 1) <==> Above(m, x, me)
  {
    FuelMeaning(m, x, me, |m| + 1);
    if Above(m, x, me) {
      var n: nat :| Up(m, x, n) == Some(me);
      ChainFits(m, x, n);
    }
  }

  lemma {:induction false} NoSpawnNoSeat(tape: seq<Record>)
    requires !HasSpawn(tape)
    ensures FoldOf(tape) == map[]
    decreases |tape|
  {
    if tape != [] {
      var init, last := tape[..|tape| - 1], tape[|tape| - 1];
      FoldSnoc(init, last);
      assert tape == init + [last];
      NoSpawnNoSeat(init);
    }
  }

  /** Without cycles, a seat is restored exactly when its chain on the tape ends at the recorder. */
  lemma RestoreMeaning(r: Recorder)
    requires Sound(r)
    ensures var m := FoldOf(r.tape); Restore(r.tape, r.me) == map x | x in m && Above(Parents(m), x, r.me) :: m[x]
  {
    hide FoldOf, HasSpawn, Above, Reaches, Acyclic, Sound;
    var m := FoldOf(r.tape);
    FoldIsAcyclic(r);
    if !HasSpawn(r.tape) {
      NoSpawnNoSeat(r.tape);
    }
    forall x | x in m ensures Reaches(Parents(m), x, r.me, |m| + 1) <==> Above(Parents(m), x, r.me) {
      assert Parents(m).Keys == m.Keys;
      assert |Parents(m)| == |m|;
      ReachesIsAbove(Parents(m), x, r.me);
    }
  }

  lemma FoldIsAcyclic(r: Recorder)
    requires Sound(r)
    ensures Acyclic(Parents(FoldOf(r.tape))) && r.me !in Parents(FoldOf(r.tape))
  {
    LastFold(r.tape);
    hide Acyclic, FoldOf, Forest, Cards, Bounded, MarkerFits;
  }

  // ---------------------------------------------------------------- restored against live

  lemma CutEmptyReaches(r: Recorder, x: Id)
    requires Sound(r) && r.cut == {} && x in r.nodes && x != r.me
    ensures x in FoldOf(r.tape) && Above(Parents(FoldOf(r.tape)), x, r.me)
  {
    var up := Parents(FoldOf(r.tape));
    assert Under(r.nodes, {}) == {};
    assert forall y | y in Edges(r.nodes) :: y in up && up[y] == Edges(r.nodes)[y];
    EveryoneUnderRoot(r.nodes, r.me, x);
    AboveInMore(Edges(r.nodes), up, x, r.me);
  }

  lemma LiveSeat(r: Recorder, x: Id)
    requires Sound(r)
    ensures x in Live(r) <==> x in r.nodes && x != r.me
    ensures x in FoldOf(r.tape) && x in r.nodes ==> x in Live(r) && FoldOf(r.tape)[x] == Live(r)[x]
  {
    hide Acyclic, Mirrored, Under, MarkerFits, Replayable;
    assert x in FoldOf(r.tape) ==> x in Parents(FoldOf(r.tape));
    assert Narrow(r.me, Edges(r.nodes), r.bounds);
  }

  lemma CutIsUnrestored(r: Recorder, x: Id)
    requires Sound(r) && x in r.cut
    ensures x in r.nodes && x != r.me && x !in FoldOf(r.tape)
  {
    hide Acyclic, Mirrored, Under, MarkerFits, Replayable, Bounded;
    assert x in Edges(r.nodes) && x !in Parents(FoldOf(r.tape));
  }

  /** In every reachable state: equality holds exactly if no cut worker is mounted and nothing else is restored. */
  lemma RestoredIff(r: Recorder)
    requires Sound(r)
    ensures var restored := Restore(r.tape, r.me);
            && (forall x | x in restored && x in r.nodes :: x in Live(r) && restored[x] == Live(r)[x])
            && (restored == Live(r) <==> r.cut == {} && restored.Keys <= r.nodes.Keys)
  {
    hide Sound, Above, Live, Restore, FoldOf, Parents;
    var restored, live := Restore(r.tape, r.me), Live(r);
    RestoreMeaning(r);
    forall x ensures (x in live <==> x in r.nodes && x != r.me)
                  && (x in restored && x in r.nodes ==> x in live && restored[x] == live[x])
                  && (r.cut == {} && x in live ==> x in restored)
    {
      LiveSeat(r, x);
      if r.cut == {} && x in live {
        CutEmptyReaches(r, x);
      }
    }
    forall x | x in r.cut ensures x in live && x !in restored {
      CutIsUnrestored(r, x);
    }
    assert forall x | x in r.cut :: x in live.Keys && x !in restored.Keys;
  }

  /**
   Over every run of spawns, releases and cancels, whatever failed and whatever lines a failed
   append kept: each restored seat that is mounted is restored exactly as it was spawned, and
   the restored seats are the live ones if and only if no worker named as gone is still
   mounted and no seat is restored that is not mounted. No cut of the replay meets a cycle.
   */
  lemma {:induction false} RestoredExactly(me: Id, ops: seq<Op>)
    ensures var r := Run(Opened(me), ops);
            var restored := Restore(r.tape, me);
            && (forall x | x in restored && x in r.nodes :: x in Live(r) && restored[x] == Live(r)[x])
            && (restored == Live(r) <==> r.cut == {} && restored.Keys <= r.nodes.Keys)
            && Replayable(r.tape)
            && (forall x :: x in Live(r) <==> x in r.nodes && x != me)
  {
    OpenedSound(me);
    RunKeeps(Opened(me), ops);
    hide Run;
    var r := Run(Opened(me), ops);
    RestoredIff(r);
    forall x ensures x in Live(r) <==> x in r.nodes && x != me {
      LiveSeat(r, x);
    }
    hide Forest, Tracks, Cards, MarkerFits, Bounded, Replayable, Live, Restore;
  }

  // ---------------------------------------------------------------- careful runs

  /** A spawn line that a failed append kept, and that no cleanup took back. */
  predicate Strays(r: Recorder, id: Id, withSub: bool, f: SpawnFaults) {
    && id !in r.nodes && f.pending == Landed && (withSub ==> f.register.Some?)
    && f.spawned == Kept && (!f.abandon || f.released == Lost)
  }

  /** Nothing is spawned below a worker named as gone, and no kept spawn line is left behind. */
  ghost predicate Careful(r: Recorder, op: Op) {
    match op
    case DoSpawn(parent, id, _, _, withSub, f) => parent !in Under(r.nodes, r.cut) && !Strays(r, id, withSub, f)
    case DoSpawnLite(id, _, _, f) => !Strays(r, id, false, f)
    case _ => true
  }

  ghost predicate CarefulRun(r: Recorder, ops: seq<Op>)
    decreases |ops|
  {
    ops == [] || (Careful(r, ops[0]) && CarefulRun(Apply(r, ops[0]), ops[1..]))
  }

  /** The tape holds exactly the live workers that lie below no cut one. */
  ghost predicate InStep(r: Recorder) {
    Clean(Parents(FoldOf(r.tape)), r.nodes, r.cut)
  }

  lemma RecorderNotUnder(r: Recorder)
    requires Sound(r)
    ensures r.me !in Under(r.nodes, r.cut)
  {
    if r.me in Under(r.nodes, r.cut) {
      UnderStep(r.nodes, r.cut, r.me);
    }
  }

  lemma StrayUndone(up: map<Id, Id>, t: Nodes, cut: set<Id>, me: Id, id: Id, parent: Id)
    requires Tracks(up[id := parent], t, cut, me) && Clean(up, t, cut) && Rooted(t) && OneRoot(t, me) && id !in t
    ensures CutUp(up[id := parent], id) == up
  {
    var more: map<Id, Id> := up[id := parent];
    AboveStep(more, id, id);
    forall x | x in up ensures !Above(more, x, id) {
      if Above(more, x, id) {
        LiveAbove(more, t, cut, me, x, id);
      }
    }
  }

  lemma ReleasedInStep(r: Recorder, id: Id)
    requires Sound(r) && InStep(r) && id !in r.nodes
    ensures InStep(r.(tape := r.tape + [Released(id)]))
  {
    ReleasedKeeps(r, id);
    AbsentClean(Parents(FoldOf(r.tape)), r.nodes, r.cut, r.me, id);
    hide FoldOf, CutUp, Clean;
  }

  /**
   A spawn below no cut worker keeps the tape in step if and only if it leaves no kept spawn
   line behind.
   */
  lemma SpawnInStepIff(r: Recorder, parent: Id, id: Id, grants: seq<ToolTag>, bound: Charter, withSub: bool, f: SpawnFaults)
    requires Sound(r) && InStep(r) && parent !in Under(r.nodes, r.cut)
    ensures InStep(Spawn(r, parent, id, grants, bound, withSub, f).0) <==>
            Admission(r, parent, grants, bound, f).Some? || !Strays(r, id, withSub, f)
  {
    hide Sound, Admission, Fits, Within, Marker, Clean, FoldOf, Parents, CutUp;
    if Admission(r, parent, grants, bound, f).None? && id !in r.nodes {
      AdmittedMeans(r, parent, grants, bound, f);
      var seat := SeatOf(parent, withSub, f);
      var marked := r.(tape := r.tape + [SpawnPending(id)]);
      var spawned := r.(tape := marked.tape + [Spawned(id, seat)]);
      var up := Parents(FoldOf(r.tape));
      PendingKeeps(r, id);
      StrayKeeps(marked, id, seat);
      ReleasedKeeps(spawned, id);
      assert InStep(marked);
      ReleasedInStep(marked, id);
      StrayClears(spawned, up, id, parent);
      StrayShows(r, up, id, parent);
      SpawnedInStep(r, up, id, parent);
      hide FoldOf;
    }
  }

  lemma StrayClears(r: Recorder, up: map<Id, Id>, id: Id, parent: Id)
    requires Sound(r) && Parents(FoldOf(r.tape)) == up[id := parent] && Clean(up, r.nodes, r.cut) && id !in r.nodes
    ensures CutUp(Parents(FoldOf(r.tape)), id) == up
  {
    StrayUndone(up, r.nodes, r.cut, r.me, id, parent);
  }

  lemma StrayShows(r: Recorder, up: map<Id, Id>, id: Id, parent: Id)
    requires id !in r.nodes
    ensures !Clean(up[id := parent], r.nodes, r.cut)
  {
    assert id in up[id := parent];
  }

  lemma SpawnedInStep(r: Recorder, up: map<Id, Id>, id: Id, parent: Id)
    requires Sound(r) && up == Parents(FoldOf(r.tape)) && Clean(up, r.nodes, r.cut)
    requires id !in r.nodes && parent in r.nodes && parent !in Under(r.nodes, r.cut)
    ensures Clean(up[id := parent], Mount(r.nodes, id, Some(parent)).0, r.cut)
  {
    MountClean(up, r.nodes, r.cut, r.me, id, parent);
  }

  lemma DroppedInStep(r: Recorder, id: Id, workers: set<Id>)
    requires Sound(r) && InStep(r) && Marker(r.tape) == Some((id, workers))
    requires forall x | x in FoldOf(r.tape) :: x !in workers || x !in r.nodes
    ensures InStep(Dropped(r, workers))
  {
    WorkersClosed(r, id, workers);
    hide Sound, Marker, FoldOf;
    var up := Parents(FoldOf(r.tape));
    assert forall x | x in up :: x in FoldOf(r.tape) && x in r.nodes && x !in Under(r.nodes, workers);
    SoundMeans(r);
    PruneClean(up, r.nodes, r.cut, workers);
  }

  lemma SoundMeans(r: Recorder)
    requires Sound(r)
    ensures Forest(r.nodes) && OneRoot(r.nodes, r.me) && Tracks(Parents(FoldOf(r.tape)), r.nodes, r.cut, r.me)
  {
  }

  lemma FinishInStep(r: Recorder, id: Id, workers: set<Id>, f: ReleaseFaults)
    requires Sound(r) && InStep(r) && Marker(r.tape) == Some((id, workers))
    requires forall x | x in FoldOf(r.tape) :: x !in workers || x !in r.nodes
    ensures InStep(Finish(r, id, workers, f).0)
  {
    hide Sound, InStep, Dropped, Marker, FoldOf;
    DroppedInStep(r, id, workers);
    DroppedKeeps(r, id, workers);
    ReleasedInStep(Dropped(r, workers), id);
  }

  lemma AnnouncedInStep(r: Recorder, id: Id)
    requires Sound(r) && InStep(r) && id in r.nodes
    ensures InStep(Announce(r, id, Under(r.nodes, {id})))
    ensures forall x | x in FoldOf(Announce(r, id, Under(r.nodes, {id})).tape) :: x !in Under(r.nodes, {id})
  {
    var r' := Announce(r, id, Under(r.nodes, {id}));
    AnnouncedKeeps(r, id);
    CutClean(Parents(FoldOf(r.tape)), r.nodes, r.cut, r.me, id);
    assert forall x | x in FoldOf(r'.tape) :: x in Parents(FoldOf(r'.tape));
    hide FoldOf, CutUp, Clean, Under, Heads;
  }

  lemma HeadsCover(t: Nodes, me: Id, id: Id, cut: set<Id>, x: Id)
    requires Forest(t) && OneRoot(t, me) && id in t && Heads(t, me, id) <= cut && x in Edges(t) && x in Under(t, {id})
    ensures x in Under(t, cut)
  {
    CutIsUnder(t, me, id, x);
    UnderMore(t, Heads(t, me, id), cut, x);
  }

  lemma NotOnTape(r: Recorder, id: Id, workers: set<Id>, x: Id)
    requires Sound(r) && InStep(r) && Marker(r.tape) == Some((id, workers)) && x in FoldOf(r.tape) && x in r.nodes
    ensures x !in workers
  {
    hide Mirrored, Acyclic, Rooted, Bounded, Cards, Replayable, Under, FoldOf, Marker;
    var up := Parents(FoldOf(r.tape));
    assert x in up && x !in Under(r.nodes, r.cut) && x in Edges(r.nodes);
    if id in r.nodes && x in workers {
      HeadsCover(r.nodes, r.me, id, r.cut, x);
    }
  }

  /** On the tape of a retried release nothing is left of its workers. */
  lemma RetriedInStep(r: Recorder, id: Id, workers: set<Id>)
    requires Sound(r) && InStep(r) && Marker(r.tape) == Some((id, workers))
    ensures forall x | x in FoldOf(r.tape) :: x !in workers || x !in r.nodes
  {
    forall x | x in FoldOf(r.tape) && x in r.nodes ensures x !in workers {
      NotOnTape(r, id, workers, x);
    }
    hide Sound, InStep, FoldOf;
  }

  lemma ReleaseInStep(r: Recorder, id: Id, f: ReleaseFaults)
    requires Sound(r) && InStep(r)
    ensures InStep(Release(r, id, f).0)
  {
    hide Sound, InStep, Under, Finish, FoldOf;
    var marker := Marker(r.tape);
    if f.read && marker.Some? && marker.value.0 == id {
      RetriedInStep(r, id, marker.value.1);
      FinishInStep(r, id, marker.value.1, f);
    } else if f.read && marker.None? && id in r.nodes && f.pending != Lost {
      var workers := Under(r.nodes, {id});
      AnnouncedKeeps(r, id);
      AnnouncedInStep(r, id);
      MarkerSnoc(r.tape, ReleasePending(id, workers));
      FinishInStep(Announce(r, id, workers), id, workers, f);
    }
  }

  lemma CancelInStep(r: Recorder, parent: Id, child: Id, first: Appended, second: bool)
    requires Sound(r) && InStep(r)
    ensures InStep(Cancel(r, parent, child, first, second).0)
  {
    if child in r.nodes && r.nodes[child].parent == Some(parent) && parent == r.me && first != Lost {
      CancelledKeeps(r, child);
      CutClean(Parents(FoldOf(r.tape)), r.nodes, r.cut, r.me, child);
    }
    hide FoldOf, CutUp, Clean, Heads;
  }

  lemma ApplyInStep(r: Recorder, op: Op)
    requires Sound(r) && InStep(r) && Careful(r, op)
    ensures InStep(Apply(r, op))
  {
    RecorderNotUnder(r);
    hide Sound, InStep, Under;
    match op {
      case DoSpawn(parent, id, grants, bound, withSub, f) => SpawnInStepIff(r, parent, id, grants, bound, withSub, f);
      case DoSpawnLite(id, grants, bound, f) => SpawnInStepIff(r, r.me, id, grants, bound, false, f);
      case DoRelease(id, f) => ReleaseInStep(r, id, f);
      case DoCancel(parent, child, first, second) => CancelInStep(r, parent, child, first, second);
      case DoNote =>
        NoteKeeps(r);
        NoteInStep(r);
    }
  }

  lemma NoteInStep(r: Recorder)
    requires InStep(r) && FoldOf(Apply(r, DoNote).tape) == FoldOf(r.tape)
    ensures InStep(Apply(r, DoNote))
  {
  }

  lemma {:induction false} CarefulKeeps(r: Recorder, ops: seq<Op>)
    requires Sound(r) && InStep(r) && CarefulRun(r, ops)
    ensures Sound(Run(r, ops)) && InStep(Run(r, ops)) && Run(r, ops).me == r.me
    decreases |ops|
  {
    hide Sound, InStep, Apply, Careful;
    if ops != [] {
      ApplyKeeps(r, ops[0]);
      ApplyInStep(r, ops[0]);
      CarefulKeeps(Apply(r, ops[0]), ops[1..]);
    }
  }

  lemma InStepIff(r: Recorder)
    requires Sound(r) && InStep(r)
    ensures Restore(r.tape, r.me) == Live(r) <==> r.cut == {}
  {
    RestoredIff(r);
    RestoreMeaning(r);
    assert forall x | x in Restore(r.tape, r.me) :: x in Parents(FoldOf(r.tape));
    hide Sound, Above, Live, Restore, FoldOf, Under;
  }

  /**
   Over every run that spawns nothing below a worker named as gone and leaves no kept spawn
   line behind, the restored seats are the live ones if and only if no worker named as gone is
   still mounted: not one that the recorder cancelled and has not released, and not one whose
   release was announced by a kept line and not carried out.
   */
  lemma {:induction false} RestoreIffNoneCut(me: Id, ops: seq<Op>)
    requires CarefulRun(Opened(me), ops)
    ensures var r := Run(Opened(me), ops); Restore(r.tape, me) == Live(r) <==> r.cut == {}
  {
    OpenedSound(me);
    CarefulKeeps(Opened(me), ops);
    hide Run;
    InStepIff(Run(Opened(me), ops));
  }

  // ---------------------------------------------------------------- runs without cancel

  /** No cancel by the recorder, no kept spawn line, no kept announcement. */
  predicate Quiet(me: Id, op: Op) {
    match op
    case DoSpawn(_, _, _, _, _, f) => f.spawned != Kept
    case DoSpawnLite(_, _, _, f) => f.spawned != Kept
    case DoRelease(_, f) => f.pending != Kept
    case DoCancel(parent, _, first, _) => parent != me || first == Lost
    case DoNote => true
  }

  lemma QuietStep(r: Recorder, op: Op)
    requires Sound(r) && r.cut == {} && Quiet(r.me, op)
    ensures Careful(r, op) && Apply(r, op).cut == {}
  {
    assert Under(r.nodes, {}) == {};
    if op.DoRelease? && op.releaseFaults.read && Marker(r.tape).None? && op.id in r.nodes && op.releaseFaults.pending == Landed {
      HeadsGo(r, op.id);
    }
    hide Sound, Under, Admission, SpawnRecords, Marker, Pruned;
  }

  /** A finished release leaves none of the workers that its announcement named. */
  lemma HeadsGo(r: Recorder, id: Id)
    requires Sound(r) && id in r.nodes
    ensures Heads(r.nodes, r.me, id) * Pruned(r.nodes, Under(r.nodes, {id})).Keys == {}
  {
    var workers := Under(r.nodes, {id});
    UnderSelf(r.nodes, id);
    forall x | x in Heads(r.nodes, r.me, id) ensures x !in Pruned(r.nodes, workers) {
      AboveStep(Edges(r.nodes), x, id);
      AboveStep(Edges(r.nodes), Edges(r.nodes)[x], id);
      assert x in workers;
    }
  }

  lemma {:induction false} QuietRun(r: Recorder, ops: seq<Op>)
    requires Sound(r) && r.cut == {} && forall i | 0 <= i < |ops| :: Quiet(r.me, ops[i])
    ensures CarefulRun(r, ops) && Run(r, ops).cut == {}
    decreases |ops|
  {
    if ops != [] {
      QuietStep(r, ops[0]);
      ApplyKeeps(r, ops[0]);
      hide Sound, Apply, Quiet, Careful;
      assert forall i | 0 <= i < |ops| - 1 :: ops[1..][i] == ops[i + 1];
      QuietRun(Apply(r, ops[0]), ops[1..]);
    }
  }

  /**
   After every run without a cancel by the recorder, with compensated spawns, releases left
   pending, any step failing and any release line kept, the seats restored from the tape are
   exactly the live seats other than the recorder, each with its parent and what it was
   spawned with.
   */
  lemma {:induction false} RestoreIsLive(me: Id, ops: seq<Op>)
    requires forall i | 0 <= i < |ops| :: Quiet(me, ops[i])
    ensures var r := Run(Opened(me), ops); Restore(r.tape, me) == Live(r)
  {
    OpenedSound(me);
    QuietRun(Opened(me), ops);
    RestoreIffNoneCut(me, ops);
    hide Run, CarefulRun;
  }

  // ---------------------------------------------------------------- what breaks it, what mends it

  /** Each cancel of a mounted worker that reaches the tape takes it out of step at once. */
  lemma {:induction false} CancelDiverges(me: Id, ops: seq<Op>, child: Id, first: Appended, second: bool)
    requires var r := Run(Opened(me), ops); child in r.nodes && r.nodes[child].parent == Some(me) && first != Lost
    ensures var r := Cancel(Run(Opened(me), ops), me, child, first, second).0; Restore(r.tape, me) != Live(r)
  {
    OpenedSound(me);
    RunKeeps(Opened(me), ops);
    hide Run;
    var r := Run(Opened(me), ops);
    CancelKeeps(r, me, child, first, second);
    RestoredIff(Cancel(r, me, child, first, second).0);
  }

  lemma CutLeft(r: Recorder, id: Id, f: ReleaseFaults)
    requires id in r.nodes && Marker(r.tape).None? && f.read && f.pending == Landed
    ensures Release(r, id, f).0.me == r.me
    ensures Release(r, id, f).0.cut == (r.cut + Heads(r.nodes, r.me, id)) * Pruned(r.nodes, Under(r.nodes, {id})).Keys
  {
    hide Under, Pruned, Heads, Marker;
  }

  /** A release that gets past its announcement leaves nothing cut that only its root had cut. */
  lemma ReleasedCut(r: Recorder, child: Id, f: ReleaseFaults)
    requires Sound(r) && r.cut == {child} && child in r.nodes && child != r.me
    requires Marker(r.tape).None? && f.read && f.pending == Landed
    ensures Release(r, child, f).0.cut == {} && Release(r, child, f).0.me == r.me
  {
    HeadsGo(r, child);
    assert child in Heads(r.nodes, r.me, child) by {
      assert child in Edges(r.nodes);
    }
    hide Sound;
    CutLeft(r, child, f);
    hide Under, Pruned, Heads, Release;
  }

  lemma CancelledAlone(r: Recorder, child: Id)
    requires Sound(r) && r.cut == {} && Marker(r.tape).None? && child in r.nodes && r.nodes[child].parent == Some(r.me)
    ensures var r1 := Cancel(r, r.me, child, Landed, true).0;
            && r1.cut == {child} && child in r1.nodes && child != r1.me && Marker(r1.tape).None? && r1.me == r.me
  {
    hide Sound, Marker;
    CancelledHeads(r, child);
    MarkerSnoc(r.tape, Cancelled(child));
  }

  /** Releasing the cancelled worker puts it back, if nothing was spawned in between. */
  lemma ReleaseMends(r: Recorder, child: Id, f: ReleaseFaults)
    requires Sound(r) && InStep(r) && r.cut == {} && Marker(r.tape).None?
    requires child in r.nodes && r.nodes[child].parent == Some(r.me) && f.read && f.pending == Landed
    ensures var r1 := Cancel(r, r.me, child, Landed, true).0;
            var r2 := Release(r1, child, f).0;
            Restore(r1.tape, r1.me) != Live(r1) && Restore(r2.tape, r2.me) == Live(r2)
  {
    var r1 := Cancel(r, r.me, child, Landed, true).0;
    var r2 := Release(r1, child, f).0;
    CancelledAlone(r, child);
    hide Sound, InStep, Restore, Live, Under, Marker, Pruned, Finish, FoldOf, Cancel, Release;
    CancelKeeps(r, r.me, child, Landed, true);
    CancelInStep(r, r.me, child, Landed, true);
    InStepIff(r1);
    ReleaseKeeps(r1, child, f);
    ReleaseInStep(r1, child, f);
    InStepIff(r2);
    ReleasedCut(r1, child, f);
  }

  /** With the tape in step and nothing cut, one spawn keeps it so exactly if it leaves no kept line behind. */
  lemma SpawnRestoresIff(r: Recorder, parent: Id, id: Id, grants: seq<ToolTag>, bound: Charter, withSub: bool, f: SpawnFaults)
    requires Sound(r) && InStep(r) && r.cut == {}
    ensures var r' := Spawn(r, parent, id, grants, bound, withSub, f).0;
            Restore(r'.tape, r'.me) == Live(r') <==> Admission(r, parent, grants, bound, f).Some? || !Strays(r, id, withSub, f)
  {
    hide Sound, InStep, Restore, Live, SpawnRecords, Admission;
    var r' := Spawn(r, parent, id, grants, bound, withSub, f).0;
    SpawnKeeps(r, parent, id, grants, bound, withSub, f);
    assert Under(r.nodes, {}) == {};
    SpawnInStepIff(r, parent, id, grants, bound, withSub, f);
    if Admission(r, parent, grants, bound, f).Some? || !Strays(r, id, withSub, f) {
      InStepIff(r');
    } else {
      StrayIsRestored(r, parent, id, grants, bound, withSub, f);
      RestoredIff(r');
    }
  }

  /** The kept line is restored, below a live parent. */
  lemma StrayIsRestored(r: Recorder, parent: Id, id: Id, grants: seq<ToolTag>, bound: Charter, withSub: bool, f: SpawnFaults)
    requires Sound(r) && r.cut == {} && Admission(r, parent, grants, bound, f).None? && Strays(r, id, withSub, f)
    ensures var r' := Spawn(r, parent, id, grants, bound, withSub, f).0; id in Restore(r'.tape, r'.me) && id !in r'.nodes
  {
    var r' := Spawn(r, parent, id, grants, bound, withSub, f).0;
    var seat := SeatOf(parent, withSub, f);
    AdmittedMeans(r, parent, grants, bound, f);
    var marked := r.(tape := r.tape + [SpawnPending(id)]);
    PendingKeeps(r, id);
    StrayKeeps(marked, id, seat);
    hide Admission;
    assert r' == r.(tape := marked.tape + [Spawned(id, seat)]);
    StrayReaches(r', id, parent);
    RestoreMeaning(r');
    hide Sound, FoldOf, Restore, Above;
    assert id in Parents(FoldOf(r'.tape));
  }

  lemma StrayReaches(r: Recorder, id: Id, parent: Id)
    requires Sound(r) && r.cut == {} && parent in r.nodes && id in Parents(FoldOf(r.tape)) && Parents(FoldOf(r.tape))[id] == parent
    ensures Above(Parents(FoldOf(r.tape)), id, r.me)
  {
    var up := Parents(FoldOf(r.tape));
    AboveStep(up, id, r.me);
    AboveStep(up, r.me, r.me);
    if parent != r.me {
      CutEmptyReaches(r, parent);
    }
  }

  // ---------------------------------------------------------------- a run that is not careful

  const PLAIN := NewCharter(ToolTag(NoFile, Go, Ignore))
  const FINE := SpawnFaults(true, true, Landed, Some("sub"), Landed, true, Landed)
  const DONE := ReleaseFaults(true, Landed, true, Landed)

  function Under1(parent: Id): Restored {
    Restored(parent, false, Some("sub"))
  }

  function SpawnOf(parent: Id, id: Id): Op {
    DoSpawn(parent, id, [], PLAIN, true, FINE)
  }

  lemma FineSpawn(r: Recorder, parent: Id, id: Id)
    requires Marker(r.tape).None? && parent in r.nodes && id !in r.nodes
    requires parent == r.me || (parent in r.bounds && r.bounds[parent] == PLAIN)
    ensures var r' := Apply(r, SpawnOf(parent, id));
            && r'.nodes == Mount(r.nodes, id, Some(parent)).0 && r'.bounds == r.bounds[id := PLAIN]
            && r'.me == r.me && r'.cut == r.cut
            && Marker(r'.tape).None? && FoldOf(r'.tape) == FoldOf(r.tape)[id := Under1(parent)]
            && HasSpawn(r'.tape)
  {
    var marked := r.tape + [SpawnPending(id)];
    FoldSnoc(r.tape, SpawnPending(id));
    FoldSnoc(marked, Spawned(id, Under1(parent)));
    MarkerSnoc(marked, Spawned(id, Under1(parent)));
    hide FoldOf, Marker, HasSpawn;
  }

  /** Two seats below one another; the upper one is cancelled; a third is spawned below the lower one; then a release. */
  const STORY := [SpawnOf(0, 1), SpawnOf(1, 2), DoCancel(0, 1, Landed, true), SpawnOf(2, 3), DoRelease(1, DONE), SpawnOf(0, 2)]

  ghost function At(k: nat): Recorder
    requires k <= 6
  {
    Run(Opened(0), STORY[..k])
  }

  lemma {:induction false} RunSnoc(r: Recorder, ops: seq<Op>, op: Op)
    ensures Run(r, ops + [op]) == Apply(Run(r, ops), op)
    decreases |ops|
  {
    hide Apply;
    if ops == [] {
      assert [op][1..] == [];
      assert Run(r, [op]) == Run(Apply(r, op), []);
    } else {
      assert (ops + [op])[1..] == ops[1..] + [op];
      RunSnoc(Apply(r, ops[0]), ops[1..], op);
    }
  }

  lemma AtNext(k: nat)
    requires k < 6
    ensures At(k + 1) == Apply(At(k), STORY[k])
  {
    hide Apply, Run;
    assert STORY[..k + 1] == STORY[..k] + [STORY[k]];
    RunSnoc(Opened(0), STORY[..k], STORY[k]);
  }

  ghost predicate Scene(r: Recorder, nodes: Nodes, m: Fold) {
    r.me == 0 && r.nodes == nodes && FoldOf(r.tape) == m && Marker(r.tape).None?
  }

  lemma AtStart()
    ensures Scene(At(0), map[0 := Node(None, {})], map[]) && At(0) == Opened(0)
  {
  }

  lemma AtOne()
    ensures Scene(At(1), map[0 := Node(None, {1}), 1 := Node(Some(0), {})], map[1 := Under1(0)])
    ensures 1 in At(1).bounds && At(1).bounds[1] == PLAIN
  {
    hide Apply, Run, FoldOf, Marker, HasSpawn, At;
    AtStart();
    AtNext(0);
    FineSpawn(At(0), 0, 1);
    var none: set<Id> := {};
    assert none + {1} == {1};
  }

  lemma AtTwo()
    ensures Scene(At(2), map[0 := Node(None, {1}), 1 := Node(Some(0), {2}), 2 := Node(Some(1), {})],
                  map[1 := Under1(0), 2 := Under1(1)])
    ensures 2 in At(2).bounds && At(2).bounds[2] == PLAIN
  {
    hide Apply, Run, FoldOf, Marker, HasSpawn, At;
    AtOne();
    AtNext(1);
    FineSpawn(At(1), 1, 2);
    var none: set<Id> := {};
    assert none + {2} == {2};
  }

  lemma AtThree()
    ensures Scene(At(3), map[0 := Node(None, {1}), 1 := Node(Some(0), {2}), 2 := Node(Some(1), {})], map[])
    ensures 2 in At(3).bounds && At(3).bounds[2] == PLAIN
  {
    hide Run, FoldOf, Marker, At;
    AtTwo();
    AtNext(2);
    var r, r' := At(2), At(3);
    assert r' == r.(tape := r.tape + [Cancelled(1)], cut := r.cut + {1});
    FoldSnoc(r.tape, Cancelled(1));
    MarkerSnoc(r.tape, Cancelled(1));
    AllBelowOne(FoldOf(r.tape));
  }

  lemma AllBelowOne(m: Fold)
    requires m == map[1 := Under1(0), 2 := Under1(1)]
    ensures Cut(m, 1) == map[]
  {
    AboveStep(Parents(m), 1, 1);
    AboveStep(Parents(m), 2, 1);
  }

  lemma AtFour()
    ensures Scene(At(4), map[0 := Node(None, {1}), 1 := Node(Some(0), {2}), 2 := Node(Some(1), {3}), 3 := Node(Some(2), {})],
                  map[3 := Under1(2)])
  {
    hide Apply, Run, FoldOf, Marker, HasSpawn, At;
    AtThree();
    AtNext(3);
    FineSpawn(At(3), 2, 3);
    var none: set<Id> := {};
    assert none + {3} == {3};
  }

  lemma ChainUnder(t: Nodes)
    requires t == map[0 := Node(None, {1}), 1 := Node(Some(0), {2}), 2 := Node(Some(1), {3}), 3 := Node(Some(2), {})]
    ensures Pruned(t, Under(t, {1})).Keys == {0}
  {
    assert Rooted(t);
    UnderStep(t, {1}, 0);
    UnderStep(t, {1}, 1);
    UnderStep(t, {1}, 2);
    UnderStep(t, {1}, 3);
    var workers := Under(t, {1});
    UnderStep(t, workers, 0);
    UnderStep(t, workers, 1);
    UnderStep(t, workers, 2);
    UnderStep(t, workers, 3);
    hide Under;
  }

  /** The release drops all three seats; what the tape holds of the third hangs on one it no longer holds. */
  lemma AtFive()
    ensures At(5).nodes.Keys == {0} && At(5).me == 0 && Marker(At(5).tape).None? && FoldOf(At(5).tape) == map[3 := Under1(2)]
  {
    hide Run, FoldOf, Marker, At, Under, Pruned, Heads;
    AtFour();
    AtNext(4);
    var r, r' := At(4), At(5);
    var workers := Under(r.nodes, {1});
    ChainUnder(r.nodes);
    var told := r.tape + [ReleasePending(1, workers)];
    assert r'.tape == told + [Released(1)] && r'.nodes == Pruned(r.nodes, workers) && r'.me == 0;
    FoldSnoc(r.tape, ReleasePending(1, workers));
    FoldSnoc(told, Released(1));
    MarkerSnoc(told, Released(1));
    NothingBelowOne(FoldOf(r.tape));
  }

  lemma NothingBelowOne(m: Fold)
    requires m == map[3 := Under1(2)]
    ensures Cut(m, 1) == m
  {
    AboveStep(Parents(m), 3, 1);
    AboveStep(Parents(m), 2, 1);
  }

  /**
   Without care the equality fails with nothing left cut: a seat spawned below a cancelled seat
   that is still mounted is restored, once an id above it is used again, although the release
   of the cancelled seat dropped it.
   */
  lemma CancelOutlivesRelease()
    ensures var r := Run(Opened(0), STORY); 3 in Restore(r.tape, 0) && 3 !in r.nodes
  {
    hide Run, FoldOf, Marker, HasSpawn, Apply;
    AtFive();
    AtNext(5);
    FineSpawn(At(5), 0, 2);
    assert STORY[..6] == STORY;
    var m := FoldOf(At(6).tape);
    assert m == map[3 := Under1(2), 2 := Under1(0)];
    LastReach(m);
  }

  lemma LastReach(m: Fold)
    requires m == map[3 := Under1(2), 2 := Under1(0)]
    ensures 3 in m && Reaches(Parents(m), 3, 0, |m| + 1)
  {
    assert |m| == 2;
    assert Reaches(Parents(m), 2, 0, 2);
  }

  // ---------------------------------------------------------------- charters

  /** One seat's charter is within that of each worker above it. */
  lemma {:induction false} CharterWithinAncestors(r: Recorder, x: Id, n: nat)
    requires Bounded(r) && OneRoot(r.nodes, r.me)
    requires x in r.bounds && Up(Edges(r.nodes), x, n).Some? && Up(Edges(r.nodes), x, n).value != r.me
    ensures Up(Edges(r.nodes), x, n).value in r.bounds
    ensures Within(r.bounds[x], r.bounds[Up(Edges(r.nodes), x, n).value])
    decreases n
  {
    hide Fits;
    if n == 0 {
      WithinIsAnOrder(r.bounds[x], r.bounds[x], r.bounds[x]);
    } else {
      var p := Edges(r.nodes)[x];
      assert r.me !in Edges(r.nodes);
      if p != r.me {
        CharterWithinAncestors(r, p, n - 1);
        WithinIsAnOrder(r.bounds[x], r.bounds[p], r.bounds[Up(Edges(r.nodes), x, n).value]);
      }
    }
  }

  /**
   After every run, a live worker's charter is within that of each worker above it, and each
   of its card's grants is allowed by all of those charters, except exactly where both sides
   name a memory to forget and the names differ.
   */
  lemma {:induction false} GrantsStayBounded(me: Id, ops: seq<Op>, x: Id, a: Id, i: nat)
    requires var r := Run(Opened(me), ops);
             x in r.nodes && x != me && a != me && Above(Edges(r.nodes), x, a) && x in r.cards && i < |r.cards[x].grants|
    ensures var r := Run(Opened(me), ops);
            && x in r.bounds && a in r.bounds && Within(r.bounds[x], r.bounds[a])
            && var (tag, bound) := (r.cards[x].grants[i], r.bounds[a]);
               (Allows(bound, tag) <==>
                !(tag.memory.Forget? && bound.tag.memory.Forget? && tag.memory.rememberId != bound.tag.memory.rememberId))
  {
    var r := Run(Opened(me), ops);
    OpenedSound(me);
    RunKeeps(Opened(me), ops);
    hide Run, FoldOf, Forest, Tracks, Cards, MarkerFits, Replayable;
    var n: nat :| Up(Edges(r.nodes), x, n) == Some(a);
    assert x in r.bounds && Fits(r.cards[x].grants, r.bounds[x]);
    CharterWithinAncestors(r, x, n);
    AllowsLifts(r.bounds[x], r.bounds[a], r.cards[x].grants[i]);
  }

  /** Every live worker has its charter and its grants. */
  lemma {:induction false} EveryWorkerIsBounded(me: Id, ops: seq<Op>, x: Id)
    requires x in Run(Opened(me), ops).nodes && x != me
    ensures var r := Run(Opened(me), ops); x in r.bounds && x in r.cards && Fits(r.cards[x].grants, r.bounds[x])
  {
    OpenedSound(me);
    RunKeeps(Opened(me), ops);
    hide Run, FoldOf, Forest, Tracks, Cards, MarkerFits, Replayable;
  }

  // ---------------------------------------------------------------- retries

  /** A release that fails after its marker has dropped the subtree and left the marker open. */
  lemma FailedRelease(r: Recorder, id: Id, f: ReleaseFaults)
    requires Sound(r) && f.read && f.pending == Landed && id in r.nodes && Marker(r.tape).None?
    requires !f.abandon || f.released == Lost
    ensures var r1 := Release(r, id, f).0;
            && Release(r, id, f).1 == Some(Pending(id))
            && r1.nodes == Pruned(r.nodes, {id}) && id !in r1.nodes && Sound(r1)
            && Marker(r1.tape) == Some((id, Under(r.nodes, {id})))
  {
    hide Sound, Under, Pruned, FoldOf, Marker;
    var workers := Under(r.nodes, {id});
    SoundMeans(r);
    PrunedSubtree(r.nodes, id);
    MarkerSnoc(r.tape, ReleasePending(id, workers));
    AnnouncedKeeps(r, id);
    DroppedKeeps(Announce(r, id, workers), id, workers);
  }

  /** What an open marker of a root that is gone allows: a retry under its name, and nothing else. */
  lemma MarkerBlocks(r: Recorder, id: Id, workers: set<Id>, g: ReleaseFaults, other: Id, s: SpawnFaults, parent: Id,
                     grants: seq<ToolTag>, bound: Charter, withSub: bool)
    requires Sound(r) && Marker(r.tape) == Some((id, workers)) && id !in r.nodes
    ensures other != id && g.read ==> Release(r, other, g) == (r, Some(Pending(id)))
    ensures s.read ==> Spawn(r, parent, other, grants, bound, withSub, s) == (r, Some(Pending(id)))
    ensures g.read && g.abandon && g.released == Landed ==>
              Release(r, id, g).1.None? && Release(r, id, g).0.nodes == r.nodes && Marker(Release(r, id, g).0.tape).None?
  {
    hide Sound, Under, Pruned, FoldOf, Marker, Fits, Within;
    MarkerSnoc(r.tape, Released(id));
    GoneWorkers(r, id, workers);
  }

  lemma GoneWorkers(r: Recorder, id: Id, workers: set<Id>)
    requires Sound(r) && Marker(r.tape) == Some((id, workers)) && id !in r.nodes
    ensures Pruned(r.nodes, workers) == r.nodes
  {
    hide FoldOf, Marker, Tracks, Cards, Replayable, Bounded, Pruned;
    PrunedAbsent(r.nodes, workers);
  }

  /** A failed release has already dropped the subtree; trying again reports the same root until it succeeds. */
  lemma ReleaseIsRetried(r: Recorder, id: Id, f: ReleaseFaults, g: ReleaseFaults, other: Id, s: SpawnFaults, parent: Id,
                         grants: seq<ToolTag>, bound: Charter, withSub: bool)
    requires Sound(r) && f.read && f.pending == Landed && id in r.nodes && Marker(r.tape).None?
    requires !f.abandon || f.released == Lost
    ensures var r1 := Release(r, id, f).0;
            && Release(r, id, f).1 == Some(Pending(id))
            && r1.nodes == Pruned(r.nodes, {id}) && id !in r1.nodes
            && (other != id && g.read ==> Release(r1, other, g) == (r1, Some(Pending(id))))
            && (s.read ==> Spawn(r1, parent, other, grants, bound, withSub, s) == (r1, Some(Pending(id))))
            && (g.read && g.abandon && g.released == Landed ==>
                  Release(r1, id, g).1.None? && Release(r1, id, g).0.nodes == r1.nodes
                  && Marker(Release(r1, id, g).0.tape).None?)
  {
    hide Sound, Under, Pruned, FoldOf, Marker, Release, Spawn;
    FailedRelease(r, id, f);
    MarkerBlocks(Release(r, id, f).0, id, Under(r.nodes, {id}), g, other, s, parent, grants, bound, withSub);
  }
}
