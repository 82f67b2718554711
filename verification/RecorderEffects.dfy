/** What each call of the recorder achieves: who is admitted, what a spawn or a release leaves, and what blocks the next. */
module RecorderEffects {
  import opened Basics
  import opened Chains
  import opened Charters
  import opened Seats
  import opened Recorders
  import opened TapeSeats
  import opened RecorderRuns

  // ---------------------------------------------------------------- the open marker

  predicate Opens(r: Record) {
    r.SpawnPending? || r.ReleasePending?
  }

  predicate Closes(r: Record) {
    r.Spawned? || r.Released?
  }

  function Marked(r: Record): (Id, set<Id>)
    requires Opens(r)
  {
    if r.SpawnPending? then (r.id, {r.id}) else (r.id, r.workers)
  }

  /** A marker is open exactly if it is the last record of the tape that opens or closes one. */
  lemma {:induction false} MarkerMeans(tape: seq<Record>)
    ensures Marker(tape).None? <==> forall i | 0 <= i < |tape| && Opens(tape[i]) :: SettledAfter(tape, i)
    ensures Marker(tape).Some? ==>
              exists i | 0 <= i < |tape| :: Opens(tape[i]) && Marked(tape[i]) == Marker(tape).value && !SettledAfter(tape, i)
    decreases |tape|
  {
    if tape != [] {
      var n := |tape| - 1;
      var (head, last) := (tape[..n], tape[n]);
      MarkerMeans(head);
      forall i | 0 <= i < n ensures SettledAfter(tape, i) <==> SettledAfter(head, i) || Opens(last) || Closes(last) {
        SettledSnoc(tape, i);
      }
      assert !SettledAfter(tape, n);
      hide SettledAfter;
      if !Opens(last) && !Closes(last) && Marker(head).Some? {
        var i :| 0 <= i < n && Opens(head[i]) && Marked(head[i]) == Marker(head).value && !SettledAfter(head, i);
        assert Opens(tape[i]) && Marked(tape[i]) == Marker(tape).value;
      }
      if !Opens(last) && !Closes(last) && Marker(tape).None? {
        assert forall i | 0 <= i < n && Opens(tape[i]) :: head[i] == tape[i];
      }
    }
  }

  /** Some later record opens or closes a marker. */
  predicate SettledAfter(tape: seq<Record>, i: nat)
    requires i < |tape|
  {
    exists j | i < j < |tape| :: Opens(tape[j]) || Closes(tape[j])
  }

  lemma SettledSnoc(tape: seq<Record>, i: nat)
    requires i < |tape| - 1
    ensures SettledAfter(tape, i) <==> SettledAfter(tape[..|tape| - 1], i) || Opens(tape[|tape| - 1]) || Closes(tape[|tape| - 1])
  {
    var n := |tape| - 1;
    assert forall j | i < j < n :: tape[..n][j] == tape[j];
  }

  // ---------------------------------------------------------------- spawn

  /** Who may spawn under whom, and what may be granted, once the tape is read and nothing is open. */
  predicate Permitted(r: Recorder, parent: Id, grants: seq<ToolTag>, bound: Charter) {
    && parent in r.nodes
    && (parent == r.me || (parent in r.bounds && Within(bound, r.bounds[parent])))
    && forall i | 0 <= i < |grants| :: Allows(bound, grants[i])
  }

  /** The first check that fails names the refusal, and a refused spawn changes nothing. */
  lemma AdmissionMeans(r: Recorder, parent: Id, id: Id, grants: seq<ToolTag>, bound: Charter, withSub: bool, f: SpawnFaults)
    requires Sound(r)
    ensures var (r', e) := Spawn(r, parent, id, grants, bound, withSub, f);
            var open := f.read && Marker(r.tape).Some?;
            var mounted := f.read && !open && parent in r.nodes;
            var narrow := mounted && (parent == r.me || (parent in r.bounds && Within(bound, r.bounds[parent])));
            && (!f.read ==> r' == r && e == Some(Io))
            && (open ==> r' == r && e == Some(Pending(Marker(r.tape).value.0)))
            && (f.read && !open && !mounted ==> r' == r && e == Some(NotMounted))
            && (mounted && !narrow ==> r' == r && e == Some(WiderThanParent))
            && (narrow && !Permitted(r, parent, grants, bound) ==> r' == r && e == Some(OutsideBound))
            && (mounted && Permitted(r, parent, grants, bound) && !f.built ==> r' == r && e == Some(SpawnFailed))
            && (mounted && Permitted(r, parent, grants, bound) && f.built && id in r.nodes ==> r' == r && e == Some(Mounting(Duplicate)))
  {
    CheckedInOrder(r, parent, grants, bound, f);
    hide Sound, Within, Allows, Marker, Permitted, Admission, SpawnRecords;
  }

  lemma CheckedInOrder(r: Recorder, parent: Id, grants: seq<ToolTag>, bound: Charter, f: SpawnFaults)
    requires Sound(r)
    ensures var e := Admission(r, parent, grants, bound, f);
            var mounted := f.read && Marker(r.tape).None? && parent in r.nodes;
            var narrow := mounted && (parent == r.me || (parent in r.bounds && Within(bound, r.bounds[parent])));
            && (Permitted(r, parent, grants, bound) ==> parent in r.nodes)
            && e == if !f.read then Some(Io)
                    else if Marker(r.tape).Some? then Some(Pending(Marker(r.tape).value.0))
                    else if !mounted then Some(NotMounted)
                    else if !narrow then Some(WiderThanParent)
                    else if !Permitted(r, parent, grants, bound) then Some(OutsideBound)
                    else if !f.built then Some(SpawnFailed)
                    else None
  {
    assert parent in r.nodes && parent != r.me ==> parent in Edges(r.nodes);
    assert r.bounds.Keys == Edges(r.nodes).Keys;
    hide Sound, Within, Allows, Marker, FoldOf;
  }

  /** The spawn gets past every check. */
  predicate Admitted(r: Recorder, parent: Id, id: Id, grants: seq<ToolTag>, bound: Charter, f: SpawnFaults) {
    f.read && Marker(r.tape).None? && Permitted(r, parent, grants, bound) && f.built && id !in r.nodes
  }

  /**
   A spawn succeeds exactly if it is admitted, its marker is written, its sub-workspace, if it
   has one, is registered, and its record is written. Then one seat is added, under its parent
   and with its charter and grants; every other seat is as before; and the marker is closed.
   */
  lemma SpawnIff(r: Recorder, parent: Id, id: Id, grants: seq<ToolTag>, bound: Charter, withSub: bool, f: SpawnFaults)
    requires Sound(r)
    ensures var (r', e) := Spawn(r, parent, id, grants, bound, withSub, f);
            var seat := Restored(parent, !withSub, if withSub then f.register else None);
            && (e == None <==> Admitted(r, parent, id, grants, bound, f) && f.pending == Landed
                               && (withSub ==> f.register.Some?) && f.spawned == Landed)
            && (e == None ==>
                  && r'.tape == r.tape + [SpawnPending(id), Spawned(id, seat)] && Marker(r'.tape) == None
                  && FoldOf(r'.tape) == FoldOf(r.tape)[id := seat]
                  && r'.nodes.Keys == r.nodes.Keys + {id} && Edges(r'.nodes) == Edges(r.nodes)[id := parent]
                  && r'.bounds == r.bounds[id := bound] && r'.cards == r.cards[id := Card(grants, !withSub, seat.sub)]
                  && Live(r') == Live(r)[id := seat] && r'.me == r.me && r'.cut == r.cut)
            && (e.Some? ==> r'.nodes == r.nodes && r'.bounds == r.bounds && r'.cards == r.cards && r'.me == r.me && r'.cut == r.cut)
  {
    AdmissionMeans(r, parent, id, grants, bound, withSub, f);
    CheckedInOrder(r, parent, grants, bound, f);
    RecordsIff(r.tape, parent, id, withSub, f);
    var seat := SeatOf(parent, withSub, f);
    SpawnedTape(r.tape, id, seat);
    if Admitted(r, parent, id, grants, bound, f) {
      var card := Card(grants, seat.lite, seat.sub);
      SpawnedSeats(r, r.(nodes := Mount(r.nodes, id, Some(parent)).0, cards := r.cards[id := card]), parent, id, card);
    }
    hide Sound, Within, Allows, Marker, FoldOf, Permitted, Admission, Edges, Mount, SpawnRecords;
  }

  lemma RecordsIff(tape: seq<Record>, parent: Id, id: Id, withSub: bool, f: SpawnFaults)
    ensures var (tape', e) := SpawnRecords(tape, parent, id, withSub, f);
            && (e == None <==> f.pending == Landed && (withSub ==> f.register.Some?) && f.spawned == Landed)
            && (e == None ==> tape' == tape + [SpawnPending(id), Spawned(id, Restored(parent, !withSub, if withSub then f.register else None))])
  {
    assert tape + [SpawnPending(id)] + [Spawned(id, SeatOf(parent, withSub, f))]
        == tape + [SpawnPending(id), Spawned(id, SeatOf(parent, withSub, f))];
  }

  lemma SpawnedTape(tape: seq<Record>, id: Id, seat: Restored)
    ensures var tape' := tape + [SpawnPending(id), Spawned(id, seat)];
            Marker(tape') == None && FoldOf(tape') == FoldOf(tape)[id := seat]
  {
    var marked := tape + [SpawnPending(id)];
    FoldSnoc(tape, SpawnPending(id));
    FoldSnoc(marked, Spawned(id, seat));
    MarkerSnoc(marked, Spawned(id, seat));
    assert marked + [Spawned(id, seat)] == tape + [SpawnPending(id), Spawned(id, seat)];
    hide Marker, FoldOf;
  }

  lemma SpawnedSeats(r: Recorder, r': Recorder, parent: Id, id: Id, card: Card)
    requires Sound(r) && id !in r.nodes && parent in r.nodes
    requires r'.nodes == Mount(r.nodes, id, Some(parent)).0 && r'.cards == r.cards[id := card]
    ensures Mount(r.nodes, id, Some(parent)).1 == None && r'.nodes.Keys == r.nodes.Keys + {id}
    ensures Edges(r'.nodes) == Edges(r.nodes)[id := parent] && Live(r') == Live(r)[id := Restored(parent, card.lite, card.sub)]
  {
    MountEdges(r.nodes, parent, id);
    LiveGrows(r, r', parent, id, card);
    hide Sound, Edges, Live;
  }

  lemma LiveGrows(r: Recorder, r': Recorder, parent: Id, id: Id, card: Card)
    requires Edges(r'.nodes) == Edges(r.nodes)[id := parent] && r'.cards == r.cards[id := card]
    ensures Live(r') == Live(r)[id := Restored(parent, card.lite, card.sub)]
  {
    hide Edges;
  }

  /**
   What an admitted spawn leaves on the tape when it fails, and whether its marker stays open and
   blocks the next: it does from the moment it is on the tape until a spawn or a release line is.
   */
  lemma SpawnFails(r: Recorder, parent: Id, id: Id, grants: seq<ToolTag>, bound: Charter, withSub: bool, f: SpawnFaults)
    requires Sound(r) && Admitted(r, parent, id, grants, bound, f)
    requires Spawn(r, parent, id, grants, bound, withSub, f).1.Some?
    ensures var (r', e) := Spawn(r, parent, id, grants, bound, withSub, f);
            var tried := f.pending == Landed && (withSub ==> f.register.Some?);
            var kept := tried && f.spawned == Kept;
            var undone := tried && f.spawned != Landed && f.abandon && f.released != Lost;
            && r'.tape == r.tape + (if f.pending == Lost then [] else [SpawnPending(id)])
                          + (if kept then [Spawned(id, Restored(parent, !withSub, if withSub then f.register else None))] else [])
                          + (if undone then [Released(id)] else [])
            && Marker(r'.tape) == (if f.pending != Lost && !kept && !undone then Some((id, {id})) else None)
            && (e == Some(Io) <==> f.pending != Landed || (undone && f.released == Landed))
            && (e != Some(Io) ==> e == Some(Pending(id)))
  {
    var seat := Restored(parent, !withSub, if withSub then f.register else None);
    var marked := r.tape + [SpawnPending(id)];
    var spawned := marked + [Spawned(id, seat)];
    MarkerSnoc(r.tape, SpawnPending(id));
    MarkerSnoc(marked, Spawned(id, seat));
    MarkerSnoc(marked, Released(id));
    MarkerSnoc(spawned, Released(id));
    hide Sound, Within, Allows, Marker, FoldOf;
  }

  /** A spawn that left its marker open is cleaned up by a release of its id, and by nothing else before that. */
  lemma OpenSpawnIsReleased(r: Recorder, id: Id, f: ReleaseFaults)
    requires Sound(r) && Marker(r.tape) == Some((id, {id})) && id !in r.nodes && f.read && f.abandon
    ensures var (r', e) := Release(r, id, f);
            && r'.nodes == r.nodes && Live(r') == Live(r) && r'.tape == Noted(r.tape, Released(id), f.released)
            && (e == None <==> f.released == Landed)
            && (Marker(r'.tape) == None <==> f.released != Lost)
  {
    hide FoldOf, Marker, Pruned, Tracks, Cards, Replayable, Forest, Within, OneRoot, MarkerFits;
    PrunedAbsent(r.nodes, {id});
    MarkerSnoc(r.tape, Released(id));
    assert id !in Edges(r.nodes) && id !in r.cards;
    hide Sound, Edges;
    assert r.cards - {id} == r.cards;
  }

  /** A worker without a sub-workspace is spawned by the recorder only, under a charter that opens no file. */
  lemma SpawnLiteIff(r: Recorder, id: Id, grants: seq<ToolTag>, bound: Charter, f: SpawnFaults)
    ensures var (r', e) := SpawnLite(r, id, grants, bound, f);
            && (e == Some(LiteFile) <==> exists writes, path :: Charters.Opens(bound.tag.file, writes, path))
            && (e == Some(LiteFile) ==> r' == r)
            && (e != Some(LiteFile) ==> (r', e) == Spawn(r, r.me, id, grants, bound, false, f))
  {
    OpensNothing(bound.tag.file);
    NeverLite(r, id, grants, bound, f);
    hide Spawn, Charters.Opens;
  }

  lemma OpensNothing(file: FileFacet)
    ensures file.NoFile? <==> forall writes, path :: !Charters.Opens(file, writes, path)
  {
    FileWithinIsInclusion(file, NoFile);
  }

  lemma NeverLite(r: Recorder, id: Id, grants: seq<ToolTag>, bound: Charter, f: SpawnFaults)
    ensures Spawn(r, r.me, id, grants, bound, false, f).1 != Some(LiteFile)
  {
    hide Within, Allows, Marker;
  }

  // ---------------------------------------------------------------- release

  /** The release that was begun on this tape, or else the subtree of a mounted worker. */
  ghost function Leaving(r: Recorder, id: Id): set<Id> {
    if Marker(r.tape).Some? then Marker(r.tape).value.1 else Under(r.nodes, {id})
  }

  /** No other marker is open and, if none is, the worker is mounted. */
  predicate Releasable(r: Recorder, id: Id) {
    if Marker(r.tape).Some? then Marker(r.tape).value.0 == id else id in r.nodes
  }

  /**
   A release succeeds exactly if it is the open one or none is open and its worker is mounted, and
   its records and its cleanup go through. It leaves neither seat nor charter of the workers it
   named, keeps every other, and closes its marker.
   */
  lemma ReleaseIff(r: Recorder, id: Id, f: ReleaseFaults)
    requires Sound(r)
    ensures var (r', e) := Release(r, id, f);
            var begun := Marker(r.tape).Some?;
            && (e == None <==> f.read && Releasable(r, id) && (begun || f.pending == Landed) && f.abandon && f.released == Landed)
            && (e == None ==>
                  && Marker(r'.tape) == None
                  && r'.tape == r.tape + (if begun then [] else [ReleasePending(id, Under(r.nodes, {id}))]) + [Released(id)]
                  && Left(r, r', id))
  {
    hide FoldOf, Marker, Pruned, Under, Forest, OneRoot, Tracks, Cards, Replayable, Narrow, Fits;
    if f.read && Releasable(r, id) {
      if Marker(r.tape).Some? {
        var workers := Marker(r.tape).value.1;
        MarkerSnoc(r.tape, Released(id));
        LeftBy(r, r, id, workers);
      } else {
        var announced := r.tape + [ReleasePending(id, Under(r.nodes, {id}))];
        MarkerSnoc(announced, Released(id));
        UnderTwice(r, id);
        LeftBy(r, Announce(r, id, Under(r.nodes, {id})), id, Under(r.nodes, {id}));
      }
    }
  }

  /** The workers have left, and nobody else. */
  ghost predicate Left(r: Recorder, r': Recorder, id: Id) {
    && r'.nodes.Keys == r.nodes.Keys - Leaving(r, id)
    && (forall x | x in r'.nodes :: r'.nodes[x].parent == r.nodes[x].parent)
    && r'.bounds == r.bounds - Leaving(r, id) && r'.cards == r.cards - Leaving(r, id) && r'.me == r.me
  }

  lemma UnderTwice(r: Recorder, id: Id)
    requires Sound(r) && id in r.nodes
    ensures Under(r.nodes, Under(r.nodes, {id})) == Under(r.nodes, {id})
  {
    hide FoldOf, Under, Forest, OneRoot, Tracks, Cards, Replayable, Bounded;
    UnderSelf(r.nodes, id);
  }

  lemma LeftBy(r: Recorder, announced: Recorder, id: Id, workers: set<Id>)
    requires Sound(r) && workers == Leaving(r, id) && Releasable(r, id)
    requires announced.nodes == r.nodes && announced.bounds == r.bounds && announced.cards == r.cards && announced.me == r.me
    ensures Left(r, Dropped(announced, workers), id)
  {
    if Marker(r.tape).Some? {
      WorkersClosed(r, id, workers);
    } else {
      UnderTwice(r, id);
    }
    hide Sound, Marker, Under;
    assert Pruned(r.nodes, workers).Keys == r.nodes.Keys - Under(r.nodes, workers);
  }

  /**
   A release that fails: refused, it changes nothing; when its marker could not be written for
   sure, every seat stays; later than that the seats are gone, and the marker stays open for a
   retry unless the closing line is on the tape after all.
   */
  lemma ReleaseFails(r: Recorder, id: Id, f: ReleaseFaults)
    requires Sound(r) && Release(r, id, f).1.Some?
    ensures var (r', e) := Release(r, id, f);
            var begun := Marker(r.tape).Some?;
            && (!f.read ==> r' == r && e == Some(Io))
            && (f.read && !Releasable(r, id) ==> r' == r && e == Some(if begun then Pending(Marker(r.tape).value.0) else Mounting(NotFound)))
            && (f.read && Releasable(r, id) && !begun && f.pending != Landed ==>
                  && e == Some(Io) && r'.nodes == r.nodes && r'.bounds == r.bounds && r'.cards == r.cards
                  && r'.tape == Noted(r.tape, ReleasePending(id, Under(r.nodes, {id})), f.pending)
                  && (f.pending == Kept ==> Marker(r'.tape) == Some((id, Under(r.nodes, {id})))))
            && (f.read && Releasable(r, id) && (begun || f.pending == Landed) ==>
                  && e == Some(Pending(id)) && Left(r, r', id)
                  && Marker(r'.tape) == (if f.abandon && f.released == Kept then None else Some((id, Leaving(r, id)))))
  {
    hide FoldOf, Marker, Pruned, Under, Forest, OneRoot, Tracks, Cards, Replayable, Narrow, Fits;
    if f.read && Releasable(r, id) {
      if Marker(r.tape).Some? {
        MarkerSnoc(r.tape, Released(id));
        LeftBy(r, r, id, Leaving(r, id));
      } else {
        var workers := Under(r.nodes, {id});
        MarkerSnoc(r.tape, ReleasePending(id, workers));
        MarkerSnoc(r.tape + [ReleasePending(id, workers)], Released(id));
        UnderTwice(r, id);
        LeftBy(r, Announce(r, id, workers), id, workers);
      }
    }
  }

  // ---------------------------------------------------------------- cancel

  /** A cancel is for the parent of a mounted worker alone; it unmounts nobody, and reaches the recorder's tape only as its own. */
  lemma CancelMeans(r: Recorder, parent: Id, child: Id, first: Appended, second: bool)
    ensures var (r', e) := Cancel(r, parent, child, first, second);
            && (e == None <==> child in Edges(r.nodes) && Edges(r.nodes)[child] == parent && first == Landed && second)
            && (e == Some(Mounting(NotFound)) <==> child !in r.nodes)
            && (e == Some(SignalDenied) <==> child in r.nodes && !IsParent(r.nodes, parent, child))
            && (e.Some? ==> e.value in {Mounting(NotFound), SignalDenied, Io})
            && r'.nodes == r.nodes && r'.bounds == r.bounds && r'.cards == r.cards
            && r'.tape == (if IsParent(r.nodes, parent, child) && parent == r.me then Noted(r.tape, Cancelled(child), first) else r.tape)
  {
  }
}
