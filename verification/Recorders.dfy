/** The recorder as a value: its tape, its seats, its charters, and the seats its tape gives back. */
module Recorders {
  import opened Basics
  import opened Chains
  import opened Charters
  import opened Seats

  /** Records of the recorder's own tape that a reader of seats looks at. */
  datatype Record =
    | SpawnPending(id: Id)
    | Spawned(id: Id, seat: Restored)
    | ReleasePending(id: Id, workers: set<Id>)
    | Released(id: Id)
    | Cancelled(id: Id)
    | Unrelated

  /** A seat as a spawn record gives it back. */
  datatype Restored = Restored(parent: Id, lite: bool, sub: Option<string>)

  /** What a live worker was spawned with. */
  datatype Card = Card(grants: seq<ToolTag>, lite: bool, sub: Option<string>)

  /**
   `cut` is history: the mounted workers that a record of the tape has named as gone, by a
   cancel, or by a release whose first append failed but left its line.
   */
  datatype Recorder = Recorder(me: Id, tape: seq<Record>, nodes: Nodes, bounds: map<Id, Charter>, cards: map<Id, Card>, cut: set<Id>)

  datatype RecorderError =
    | Pending(id: Id) | NotMounted | WiderThanParent | OutsideBound | LiteFile | SpawnFailed
    | Mounting(error: TreeError) | SignalDenied | Io

  // ---------------------------------------------------------------- reading the tape back

  type Fold = map<Id, Restored>

  function Parents(m: Fold): map<Id, Id> {
    map x | x in m :: m[x].parent
  }

  /** `remove_subtree`. */
  ghost function Cut(m: Fold, root: Id): Fold {
    map x | x in m && !Above(Parents(m), x, root) :: m[x]
  }

  ghost function Replay(m: Fold, r: Record): Fold {
    match r
    case Spawned(id, seat) => m[id := seat]
    case Released(id) => Cut(m, id)
    case ReleasePending(id, _) => Cut(m, id)
    case Cancelled(id) => Cut(m, id)
    case _ => m
  }

  ghost function FoldOf(tape: seq<Record>): Fold {
    if tape == [] then map[] else Replay(FoldOf(tape[..|tape| - 1]), tape[|tape| - 1])
  }

  /** `parent_chain_reaches`, with that much fuel. */
  predicate Reaches(up: map<Id, Id>, x: Id, me: Id, fuel: nat)
    decreases fuel
  {
    fuel > 0 && x in up && (up[x] == me || Reaches(up, up[x], me, fuel - 1))
  }

  predicate HasSpawn(tape: seq<Record>) {
    exists i | 0 <= i < |tape| :: tape[i].Spawned?
  }

  /** `restore_seats`. */
  ghost function Restore(tape: seq<Record>, me: Id): Fold {
    if !HasSpawn(tape) then map[]
    else
      var m := FoldOf(tape);
      map x | x in m && Reaches(Parents(m), x, me, |m| + 1) :: m[x]
  }

  /** `pending_release`: the marker that no later record has closed. */
  function Marker(tape: seq<Record>): Option<(Id, set<Id>)> {
    if tape == [] then None
    else
      match tape[|tape| - 1]
      case SpawnPending(id) => Some((id, {id}))
      case ReleasePending(id, workers) => Some((id, workers))
      case Spawned(_, _) => None
      case Released(_) => None
      case _ => Marker(tape[..|tape| - 1])
  }

  /** The live seats other than the recorder, as a reader of the tape should find them. */
  function Live(r: Recorder): Fold {
    map x | x in Edges(r.nodes) && x in r.cards :: Restored(Edges(r.nodes)[x], r.cards[x].lite, r.cards[x].sub)
  }

  // ---------------------------------------------------------------- spawn

  /** How each fallible step ends; `register` is the id of the new sub-workspace. */
  datatype SpawnFaults = SpawnFaults(read: bool, built: bool, pending: Appended, register: Option<string>, spawned: Appended,
                                     abandon: bool, released: Appended)

  predicate Fits(grants: seq<ToolTag>, bound: Charter) {
    forall i | 0 <= i < |grants| :: Allows(bound, grants[i])
  }

  function Admission(r: Recorder, parent: Id, grants: seq<ToolTag>, bound: Charter, f: SpawnFaults): Option<RecorderError> {
    if !f.read then Some(Io)
    else if Marker(r.tape).Some? then Some(Pending(Marker(r.tape).value.0))
    else if parent !in r.nodes then Some(NotMounted)
    else if parent != r.me && parent !in r.bounds then Some(NotMounted)
    else if parent != r.me && !Within(bound, r.bounds[parent]) then Some(WiderThanParent)
    else if !Fits(grants, bound) then Some(OutsideBound)
    else if !f.built then Some(SpawnFailed)
    else None
  }

  function SeatOf(parent: Id, withSub: bool, f: SpawnFaults): Restored {
    Restored(parent, !withSub, if withSub then f.register else None)
  }

  /** The records of an admitted spawn: a marker, closed by the spawn or, after a complete cleanup, by a release. */
  function SpawnRecords(tape: seq<Record>, parent: Id, id: Id, withSub: bool, f: SpawnFaults): (seq<Record>, Option<RecorderError>) {
    var marked := Noted(tape, SpawnPending(id), f.pending);
    if f.pending != Landed then (marked, Some(Io))
    else if withSub && f.register.None? then (marked, Some(Pending(id)))
    else
      var spawned := Noted(marked, Spawned(id, SeatOf(parent, withSub, f)), f.spawned);
      if f.spawned == Landed then (spawned, None)
      else if !f.abandon then (spawned, Some(Pending(id)))
      else (Noted(spawned, Released(id), f.released), Some(if f.released == Landed then Io else Pending(id)))
  }

  /** `spawn_child`. */
  function Spawn(r: Recorder, parent: Id, id: Id, grants: seq<ToolTag>, bound: Charter, withSub: bool, f: SpawnFaults)
    : (Recorder, Option<RecorderError>)
  {
    if Admission(r, parent, grants, bound, f).Some? then (r, Admission(r, parent, grants, bound, f))
    else
      var (nodes, e) := Mount(r.nodes, id, Some(parent));
      if e.Some? then (r, Some(Mounting(e.value)))
      else
        var (tape, failed) := SpawnRecords(r.tape, parent, id, withSub, f);
        if failed.Some? then (r.(tape := tape), failed)
        else
          var seat := SeatOf(parent, withSub, f);
          (r.(tape := tape, nodes := nodes, bounds := r.bounds[id := bound], cards := r.cards[id := Card(grants, seat.lite, seat.sub)]), None)
  }

  function SpawnLite(r: Recorder, id: Id, grants: seq<ToolTag>, bound: Charter, f: SpawnFaults): (Recorder, Option<RecorderError>) {
    if !FileIsNone(bound) then (r, Some(LiteFile)) else Spawn(r, r.me, id, grants, bound, false, f)
  }

  // ---------------------------------------------------------------- release and cancel

  datatype ReleaseFaults = ReleaseFaults(read: bool, pending: Appended, abandon: bool, released: Appended)

  /** The workers a cut at `root` names: that one, or every child of the recorder. */
  function Heads(t: Nodes, me: Id, root: Id): set<Id> {
    set x | x in Edges(t) && (x == root || (root == me && Edges(t)[x] == root))
  }

  /** The seats and the charters of these workers are gone. */
  ghost function Dropped(r: Recorder, workers: set<Id>): Recorder {
    var nodes := Pruned(r.nodes, workers);
    r.(nodes := nodes, bounds := r.bounds - workers, cards := r.cards - workers, cut := r.cut * nodes.Keys)
  }

  /** Drops the workers, then tries to finish the release. */
  ghost function Finish(r: Recorder, id: Id, workers: set<Id>, f: ReleaseFaults): (Recorder, Option<RecorderError>) {
    var dropped := Dropped(r, workers);
    if !f.abandon then (dropped, Some(Pending(id)))
    else (dropped.(tape := Noted(dropped.tape, Released(id), f.released)), if f.released == Landed then None else Some(Pending(id)))
  }

  /** The first record of a release, which names its root as gone. */
  function Announce(r: Recorder, id: Id, workers: set<Id>): Recorder {
    r.(tape := r.tape + [ReleasePending(id, workers)], cut := r.cut + Heads(r.nodes, r.me, id))
  }

  /** `release`. */
  ghost function Release(r: Recorder, id: Id, f: ReleaseFaults): (Recorder, Option<RecorderError>) {
    if !f.read then (r, Some(Io))
    else
      match Marker(r.tape)
      case Some((root, workers)) => if root != id then (r, Some(Pending(root))) else Finish(r, id, workers, f)
      case None =>
        if id !in r.nodes then (r, Some(Mounting(NotFound)))
        else
          var workers := Under(r.nodes, {id});
          if f.pending == Lost then (r, Some(Io))
          else if f.pending == Kept then (Announce(r, id, workers), Some(Io))
          else Finish(Announce(r, id, workers), id, workers, f)
  }

  /**
   `cancel`: a parent cancels a direct child, on its own tape first. Only a cancel by the
   recorder reaches the tape that `restore_seats` reads.
   */
  function Cancel(r: Recorder, parent: Id, child: Id, first: Appended, second: bool): (Recorder, Option<RecorderError>) {
    if child !in r.nodes then (r, Some(Mounting(NotFound)))
    else if r.nodes[child].parent != Some(parent) then (r, Some(SignalDenied))
    else
      var told := if parent == r.me && first != Lost
                  then r.(tape := r.tape + [Cancelled(child)], cut := r.cut + {child}) else r;
      (told, if first == Landed && second then None else Some(Io))
  }

  function Opened(me: Id): Recorder {
    Recorder(me, [], map[me := Node(None, {})], map[], map[], {})
  }
}
