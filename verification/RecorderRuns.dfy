/**
 What the recorder's tape gives back over every run of spawns, releases and cancels, with any
 step failing and any failed append keeping its line or not.
 */
module RecorderRuns {
  import opened Basics
  import opened Chains
  import opened Charters
  import opened Seats
  import opened Recorders
  import opened TapeSeats

  // ---------------------------------------------------------------- the invariant

  ghost predicate Sound(r: Recorder) {
    && Forest(r.nodes) && OneRoot(r.nodes, r.me)
    && Tracks(Parents(FoldOf(r.tape)), r.nodes, r.cut, r.me)
    && Cards(FoldOf(r.tape), r.nodes, r.cards)
    && MarkerFits(r)
    && Replayable(r.tape)
    && Bounded(r)
  }

  /** What the tape says of a live worker beside its parent is what it was spawned with. */
  ghost predicate Cards(m: Fold, t: Nodes, cards: map<Id, Card>) {
    forall x | x in m && x in Edges(t) :: x in cards && m[x].lite == cards[x].lite && m[x].sub == cards[x].sub
  }

  /** An open marker names seats that are gone, or one whose release has only been announced. */
  ghost predicate MarkerFits(r: Recorder) {
    match Marker(r.tape)
    case None => true
    case Some((root, workers)) =>
      || (root !in r.nodes && workers !! r.nodes.Keys)
      || (root in r.nodes && workers == Under(r.nodes, {root}) && Heads(r.nodes, r.me, root) <= r.cut)
  }

  ghost predicate Bounded(r: Recorder) {
    && r.cards.Keys == r.bounds.Keys
    && Narrow(r.me, Edges(r.nodes), r.bounds)
    && forall x | x in r.cards :: Fits(r.cards[x].grants, r.bounds[x])
  }

  /** Every worker has a charter, no wider than its parent's. */
  ghost predicate Narrow(me: Id, up: map<Id, Id>, bounds: map<Id, Charter>) {
    && bounds.Keys == up.Keys
    && (forall x | x in up && up[x] != me :: up[x] in up && Within(bounds[x], bounds[up[x]]))
  }

  /** Every prefix of the tape folds to a map without cycles, so no cut loops. */
  ghost predicate Replayable(tape: seq<Record>) {
    forall i | 0 <= i <= |tape| :: Acyclic(Parents(FoldOf(tape[..i])))
  }

  // ---------------------------------------------------------------- one more record

  lemma FoldSnoc(tape: seq<Record>, record: Record)
    ensures FoldOf(tape + [record]) == Replay(FoldOf(tape), record)
    ensures HasSpawn(tape + [record]) <==> HasSpawn(tape) || record.Spawned?
  {
    assert (tape + [record])[..|tape|] == tape;
    if HasSpawn(tape) {
      var i :| 0 <= i < |tape| && tape[i].Spawned?;
      assert (tape + [record])[i].Spawned?;
    }
    if record.Spawned? {
      assert (tape + [record])[|tape|].Spawned?;
    }
  }

  lemma MarkerSnoc(tape: seq<Record>, record: Record)
    ensures Marker(tape + [record]) ==
            match record
            case SpawnPending(id) => Some((id, {id}))
            case ReleasePending(id, workers) => Some((id, workers))
            case Spawned(_, _) => None
            case Released(_) => None
            case _ => Marker(tape)
  {
    assert (tape + [record])[..|tape|] == tape;
  }

  lemma ReplayableSnoc(tape: seq<Record>, record: Record)
    requires Replayable(tape) && Acyclic(Parents(Replay(FoldOf(tape), record)))
    ensures Replayable(tape + [record])
  {
    FoldSnoc(tape, record);
    forall i | 0 <= i <= |tape + [record]| ensures Acyclic(Parents(FoldOf((tape + [record])[..i]))) {
      if i <= |tape| {
        assert (tape + [record])[..i] == tape[..i];
      } else {
        assert (tape + [record])[..i] == tape + [record];
      }
    }
  }

  lemma LastFold(tape: seq<Record>)
    requires Replayable(tape)
    ensures Acyclic(Parents(FoldOf(tape)))
  {
    assert tape[..|tape|] == tape;
  }

  lemma ParentsCut(m: Fold, root: Id)
    ensures Parents(Cut(m, root)) == CutUp(Parents(m), root)
  {
    hide Above;
  }

  lemma CutAcyclic(up: map<Id, Id>, root: Id)
    requires Acyclic(up)
    ensures Acyclic(CutUp(up, root))
  {
    FewerAcyclic(up, CutUp(up, root));
  }

  /** What a cutting record does to the tape's side of the invariant. */
  lemma CutRecord(tape: seq<Record>, record: Record)
    requires Replayable(tape) && (record.Released? || record.ReleasePending? || record.Cancelled?)
    ensures Replayable(tape + [record]) && FoldOf(tape + [record]) == Cut(FoldOf(tape), record.id)
    ensures Parents(FoldOf(tape + [record])) == CutUp(Parents(FoldOf(tape)), record.id)
  {
    var m := FoldOf(tape);
    FoldSnoc(tape, record);
    ParentsCut(m, record.id);
    LastFold(tape);
    CutAcyclic(Parents(m), record.id);
    ReplayableSnoc(tape, record);
  }

  lemma CutCards(m: Fold, t: Nodes, cards: map<Id, Card>, root: Id)
    requires Cards(m, t, cards)
    ensures Cards(Cut(m, root), t, cards)
  {
    hide Above;
  }

  /** A marker of a spawn, for a seat that is not there. */
  lemma PendingKeeps(r: Recorder, id: Id)
    requires Sound(r) && id !in r.nodes
    ensures Sound(r.(tape := r.tape + [SpawnPending(id)]))
    ensures FoldOf(r.tape + [SpawnPending(id)]) == FoldOf(r.tape)
  {
    FoldSnoc(r.tape, SpawnPending(id));
    MarkerSnoc(r.tape, SpawnPending(id));
    LastFold(r.tape);
    ReplayableSnoc(r.tape, SpawnPending(id));
    hide FoldOf, Marker, Forest, Tracks, Cards, Narrow, Replayable, Fits;
  }

  /** A release line for a seat that is not there. */
  lemma ReleasedKeeps(r: Recorder, id: Id)
    requires Sound(r) && id !in r.nodes
    ensures Sound(r.(tape := r.tape + [Released(id)]))
    ensures Parents(FoldOf(r.tape + [Released(id)])) == CutUp(Parents(FoldOf(r.tape)), id)
  {
    CutRecord(r.tape, Released(id));
    MarkerSnoc(r.tape, Released(id));
    AbsentTracks(Parents(FoldOf(r.tape)), r.nodes, r.cut, r.me, id);
    CutCards(FoldOf(r.tape), r.nodes, r.cards, id);
    hide FoldOf, Marker, Forest, Tracks, Cards, Narrow, Replayable, Fits, CutUp, Cut, Parents;
  }

  lemma StrayCards(m: Fold, t: Nodes, cards: map<Id, Card>, id: Id, seat: Restored)
    requires Cards(m, t, cards) && id !in t
    ensures Cards(m[id := seat], t, cards)
  {
  }

  /** A spawn line that was kept although its seat was dropped. */
  lemma StrayKeeps(r: Recorder, id: Id, seat: Restored)
    requires Sound(r) && id !in r.nodes && seat.parent in r.nodes
    ensures Sound(r.(tape := r.tape + [Spawned(id, seat)]))
    ensures Parents(FoldOf(r.tape + [Spawned(id, seat)])) == Parents(FoldOf(r.tape))[id := seat.parent]
  {
    hide Marker, Mirrored, Acyclic, Tracks, Cards, Narrow, Fits, Above;
    var record := Spawned(id, seat);
    var m := FoldOf(r.tape);
    FoldSnoc(r.tape, record);
    MarkerSnoc(r.tape, record);
    LastFold(r.tape);
    EveryoneUnderRoot(r.nodes, r.me, seat.parent);
    StrayTracks(Parents(m), r.nodes, r.cut, r.me, id, seat.parent);
    assert Parents(m[id := seat]) == Parents(m)[id := seat.parent];
    StrayCards(m, r.nodes, r.cards, id, seat);
    ReplayableSnoc(r.tape, record);
    hide FoldOf, Replayable, Parents, Rooted, OneRoot;
  }

  // ---------------------------------------------------------------- spawn

  lemma NarrowGrows(me: Id, up: map<Id, Id>, bounds: map<Id, Charter>, parent: Id, id: Id, bound: Charter)
    requires Narrow(me, up, bounds) && id !in up && forall x | x in up :: up[x] != id
    requires (parent == me || (parent in up && Within(bound, bounds[parent])))
    ensures Narrow(me, up[id := parent], bounds[id := bound])
  {
    hide Within;
  }

  lemma SpawnedBounded(r: Recorder, parent: Id, id: Id, card: Card, bound: Charter, tape: seq<Record>)
    requires Bounded(r) && Rooted(r.nodes) && id !in r.nodes && parent in r.nodes && Fits(card.grants, bound)
    requires parent == r.me || (parent in r.bounds && Within(bound, r.bounds[parent]))
    ensures Bounded(r.(tape := tape, nodes := Mount(r.nodes, id, Some(parent)).0, bounds := r.bounds[id := bound], cards := r.cards[id := card]))
  {
    MountEdges(r.nodes, parent, id);
    NarrowGrows(r.me, Edges(r.nodes), r.bounds, parent, id, bound);
    hide Narrow, Edges, Mount, Rooted, Fits, Within;
  }

  lemma MountedCards(m: Fold, t: Nodes, cards: map<Id, Card>, parent: Id, id: Id, seat: Restored, grants: seq<ToolTag>)
    requires Cards(m, t, cards) && Rooted(t) && id !in t && parent in t
    ensures Cards(m[id := seat], Mount(t, id, Some(parent)).0, cards[id := Card(grants, seat.lite, seat.sub)])
  {
    MountEdges(t, parent, id);
    hide Edges, Mount, Rooted;
  }

  /** A spawn line beside its mounted seat. */
  lemma SpawnedKeeps(r: Recorder, id: Id, seat: Restored, grants: seq<ToolTag>, bound: Charter)
    requires Sound(r) && id !in r.nodes && seat.parent in r.nodes && Fits(grants, bound)
    requires seat.parent == r.me || (seat.parent in r.bounds && Within(bound, r.bounds[seat.parent]))
    ensures Sound(r.(tape := r.tape + [Spawned(id, seat)], nodes := Mount(r.nodes, id, Some(seat.parent)).0,
                     bounds := r.bounds[id := bound], cards := r.cards[id := Card(grants, seat.lite, seat.sub)]))
    ensures Parents(FoldOf(r.tape + [Spawned(id, seat)])) == Parents(FoldOf(r.tape))[id := seat.parent]
  {
    var tape := r.tape + [Spawned(id, seat)];
    var m := FoldOf(r.tape);
    StrayKeeps(r, id, seat);
    FoldSnoc(r.tape, Spawned(id, seat));
    MarkerSnoc(r.tape, Spawned(id, seat));
    EveryoneUnderRoot(r.nodes, r.me, seat.parent);
    MountKeeps(r.nodes, id, Some(seat.parent));
    MountRoot(r.nodes, r.me, seat.parent, id);
    MountTracks(Parents(m), r.nodes, r.cut, r.me, id, seat.parent);
    MountedCards(m, r.nodes, r.cards, seat.parent, id, seat, grants);
    SpawnedBounded(r, seat.parent, id, Card(grants, seat.lite, seat.sub), bound, tape);
    hide FoldOf, Marker, Forest, Tracks, Cards, Narrow, Replayable, Fits, Above, Mount, OneRoot, Within, Bounded, Parents;
  }

  lemma AdmittedMeans(r: Recorder, parent: Id, grants: seq<ToolTag>, bound: Charter, f: SpawnFaults)
    requires Admission(r, parent, grants, bound, f).None?
    ensures parent in r.nodes && Fits(grants, bound)
    ensures parent == r.me || (parent in r.bounds && Within(bound, r.bounds[parent]))
  {
  }

  /** The records alone, of a spawn that fails; or the two of one that does not. */
  lemma RecordsKeep(r: Recorder, parent: Id, id: Id, withSub: bool, f: SpawnFaults)
    requires Sound(r) && id !in r.nodes && parent in r.nodes
    ensures var (tape, failed) := SpawnRecords(r.tape, parent, id, withSub, f);
            if failed.Some? then Sound(r.(tape := tape))
            else tape == r.tape + [SpawnPending(id)] + [Spawned(id, SeatOf(parent, withSub, f))]
  {
    hide Sound;
    var seat := SeatOf(parent, withSub, f);
    var marked := r.(tape := r.tape + [SpawnPending(id)]);
    PendingKeeps(r, id);
    StrayKeeps(marked, id, seat);
    ReleasedKeeps(marked, id);
    ReleasedKeeps(r.(tape := marked.tape + [Spawned(id, seat)]), id);
  }

  lemma SpawnKeeps(r: Recorder, parent: Id, id: Id, grants: seq<ToolTag>, bound: Charter, withSub: bool, f: SpawnFaults)
    requires Sound(r)
    ensures Sound(Spawn(r, parent, id, grants, bound, withSub, f).0)
  {
    hide Sound, Admission, Fits, Within, Marker, SpawnRecords;
    if Admission(r, parent, grants, bound, f).None? && id !in r.nodes {
      AdmittedMeans(r, parent, grants, bound, f);
      RecordsKeep(r, parent, id, withSub, f);
      if SpawnRecords(r.tape, parent, id, withSub, f).1.None? {
        PendingKeeps(r, id);
        SpawnedKeeps(r.(tape := r.tape + [SpawnPending(id)]), id, SeatOf(parent, withSub, f), grants, bound);
      }
    }
  }

  // ---------------------------------------------------------------- release and cancel

  lemma UnderSelf(t: Nodes, id: Id)
    requires Forest(t) && id in t
    ensures id in Under(t, {id}) && Under(t, Under(t, {id})) == Under(t, {id})
  {
    UnderStep(t, {id}, id);
    PrunedSubtree(t, id);
    assert Pruned(t, Under(t, {id})).Keys == t.Keys - Under(t, Under(t, {id}));
    assert Pruned(t, {id}).Keys == t.Keys - Under(t, {id});
    assert Under(t, Under(t, {id})) == t.Keys - Pruned(t, {id}).Keys;
    assert Under(t, {id}) == t.Keys - Pruned(t, {id}).Keys;
  }

  lemma NarrowShrinks(me: Id, up: map<Id, Id>, up': map<Id, Id>, bounds: map<Id, Charter>, roots: set<Id>)
    requires Narrow(me, up, bounds) && forall x | x in up && x !in roots :: up[x] !in roots
    requires up'.Keys == up.Keys - roots && forall x | x in up' :: up'[x] == up[x]
    ensures Narrow(me, up', bounds - roots)
  {
    hide Within;
  }

  lemma PrunedAbsent(t: Nodes, roots: set<Id>)
    requires Forest(t) && roots !! t.Keys
    ensures Pruned(t, roots) == t
  {
    forall x | x in t ensures !BelowOne(t, roots, x) {
      if BelowOne(t, roots, x) {
        var r :| r in roots && Above(Edges(t), x, r);
        AboveIsThere(t, x, r);
      }
    }
    assert Under(t, roots) == {};
    forall x | x in t ensures Node(t[x].parent, t[x].children - {}) == t[x] {
    }
  }

  /** The workers of a release, first try or retry, are closed under their subtrees and include its root. */
  lemma WorkersClosed(r: Recorder, root: Id, workers: set<Id>)
    requires Sound(r) && Marker(r.tape) == Some((root, workers))
    ensures Under(r.nodes, workers) == workers * r.nodes.Keys
    ensures root !in Pruned(r.nodes, workers) && workers !! Pruned(r.nodes, workers).Keys
  {
    hide FoldOf, Marker, Tracks, Cards, Replayable, Bounded;
    if root in r.nodes {
      UnderSelf(r.nodes, root);
    } else {
      PrunedAbsent(r.nodes, workers);
      assert Under(r.nodes, workers) == r.nodes.Keys - Pruned(r.nodes, workers).Keys;
    }
  }

  /** Dropping the workers of an open marker. */
  lemma DroppedKeeps(r: Recorder, root: Id, workers: set<Id>)
    requires Sound(r) && Marker(r.tape) == Some((root, workers))
    ensures Sound(Dropped(r, workers)) && root !in Dropped(r, workers).nodes && Dropped(r, workers).tape == r.tape
  {
    hide Mirrored, Acyclic, Rooted, Tracks, Replayable, Under, Edges, Above, Narrow, Fits, FoldOf, Parents, Marker;
    PrunedKeeps(r.nodes, workers);
    WorkersClosed(r, root, workers);
    PruneTracks(Parents(FoldOf(r.tape)), r.nodes, r.cut, r.me, workers);
    DroppedBounded(r, workers);
    DroppedCards(FoldOf(r.tape), r.nodes, r.cards, workers);
    assert OneRoot(Pruned(r.nodes, workers), r.me);
    hide Bounded, Pruned, OneRoot, Cards;
  }

  lemma DroppedCards(m: Fold, t: Nodes, cards: map<Id, Card>, workers: set<Id>)
    requires Cards(m, t, cards) && Under(t, workers) == workers * t.Keys
    ensures Cards(m, Pruned(t, workers), cards - workers)
  {
    PrunedEdges(t, workers);
    hide Under;
  }

  lemma DroppedBounded(r: Recorder, roots: set<Id>)
    requires Forest(r.nodes) && Bounded(r) && Under(r.nodes, roots) == roots * r.nodes.Keys
    ensures Bounded(Dropped(r, roots))
  {
    var up: map<Id, Id> := Edges(r.nodes);
    PrunedEdges(r.nodes, roots);
    forall x | x in up && x !in roots ensures up[x] !in roots {
      UnderStep(r.nodes, roots, x);
    }
    NarrowShrinks(r.me, up, Edges(Pruned(r.nodes, roots)), r.bounds, roots);
    hide Narrow, Forest, Fits, Above;
  }

  /** A record that names a live root as gone. */
  lemma AnnouncedKeeps(r: Recorder, id: Id)
    requires Sound(r) && id in r.nodes
    ensures Sound(Announce(r, id, Under(r.nodes, {id})))
    ensures Parents(FoldOf(Announce(r, id, Under(r.nodes, {id})).tape)) == CutUp(Parents(FoldOf(r.tape)), id)
  {
    hide FoldOf, Marker, Forest, Tracks, Cards, Narrow, Replayable, Fits, CutUp, Cut, Under, Heads, Parents, OneRoot;
    var record := ReleasePending(id, Under(r.nodes, {id}));
    CutRecord(r.tape, record);
    MarkerSnoc(r.tape, record);
    CutTracks(Parents(FoldOf(r.tape)), r.nodes, r.cut, r.me, id);
    CutCards(FoldOf(r.tape), r.nodes, r.cards, id);
  }

  lemma CancelKeeps(r: Recorder, parent: Id, child: Id, first: Appended, second: bool)
    requires Sound(r)
    ensures Sound(Cancel(r, parent, child, first, second).0)
  {
    if child in r.nodes && r.nodes[child].parent == Some(parent) && parent == r.me && first != Lost {
      CancelledKeeps(r, child);
    }
    hide Sound;
  }

  lemma CancelledKeeps(r: Recorder, child: Id)
    requires Sound(r) && child in r.nodes && r.nodes[child].parent == Some(r.me)
    ensures Sound(r.(tape := r.tape + [Cancelled(child)], cut := r.cut + {child}))
    ensures Parents(FoldOf(r.tape + [Cancelled(child)])) == CutUp(Parents(FoldOf(r.tape)), child)
    ensures Heads(r.nodes, r.me, child) == {child}
  {
    hide FoldOf, Marker, Forest, Tracks, Cards, Narrow, Replayable, Fits, CutUp, Cut, Under, Heads, Parents, OneRoot;
    CancelledHeads(r, child);
    CutRecord(r.tape, Cancelled(child));
    MarkerSnoc(r.tape, Cancelled(child));
    CutTracks(Parents(FoldOf(r.tape)), r.nodes, r.cut, r.me, child);
    CutCards(FoldOf(r.tape), r.nodes, r.cards, child);
  }

  lemma CancelledHeads(r: Recorder, child: Id)
    requires Sound(r) && child in r.nodes && r.nodes[child].parent == Some(r.me)
    ensures child != r.me && Heads(r.nodes, r.me, child) == {child}
  {
  }

  lemma FinishKeeps(r: Recorder, id: Id, workers: set<Id>, f: ReleaseFaults)
    requires Sound(r) && Marker(r.tape) == Some((id, workers))
    ensures Sound(Finish(r, id, workers, f).0)
  {
    hide Sound, Marker, Dropped;
    DroppedKeeps(r, id, workers);
    ReleasedKeeps(Dropped(r, workers), id);
  }

  lemma ReleaseKeeps(r: Recorder, id: Id, f: ReleaseFaults)
    requires Sound(r)
    ensures Sound(Release(r, id, f).0)
  {
    hide Sound, Under, Finish;
    var marker := Marker(r.tape);
    if f.read && marker.Some? && marker.value.0 == id {
      FinishKeeps(r, id, marker.value.1, f);
    } else if f.read && marker.None? && id in r.nodes && f.pending != Lost {
      var workers := Under(r.nodes, {id});
      AnnouncedKeeps(r, id);
      MarkerSnoc(r.tape, ReleasePending(id, workers));
      FinishKeeps(Announce(r, id, workers), id, workers, f);
    }
  }
}
