/** The recorder's sub-workspaces: live ones, those whose unmount is not logged yet, the log that names both, and the published views. */
module SubWorkspaces {
  import opened Basics

  type SubId = nat
  type Worker = nat

  datatype TreeLine = Mounted(id: SubId, worker: Worker, session: string) | Unmounted(id: SubId)

  datatype Sub = Sub(worker: Worker, session: string, conflict: Option<string>)

  /** A published view: its id is `v` and its number; `files` stands for the names and versions in it. */
  datatype ViewRec = ViewRec(number: nat, files: string)

  /** The tree log with the two maps, and the view log on disk with the views in memory. */
  datatype State = State(log: seq<TreeLine>, live: map<SubId, Sub>, retiring: map<SubId, Sub>, viewLog: seq<ViewRec>, views: seq<ViewRec>)

  datatype Error = Pending | NotRegistered | NoCurrent | NoView | BadChoice | Io | Rejected

  datatype CloseOut = Empty | Published(number: nat) | Conflicted(conflict: string)

  // ---------------------------------------------------------------- the log

  function ReplayLine(subs: map<SubId, Sub>, line: TreeLine): map<SubId, Sub> {
    match line
    case Mounted(id, worker, session) => subs[id := Sub(worker, session, None)]
    case Unmounted(id) => subs - {id}
  }

  /** What `open` reads back. */
  function Replay(log: seq<TreeLine>): map<SubId, Sub> {
    if log == [] then map[] else ReplayLine(Replay(log[..|log| - 1]), log[|log| - 1])
  }

  function Opened(log: seq<TreeLine>, viewLog: seq<ViewRec>): State {
    State(log, Replay(log), map[], viewLog, viewLog)
  }

  // ---------------------------------------------------------------- operations

  predicate Held(subs: map<SubId, Sub>, worker: Worker) {
    exists id | id in subs :: subs[id].worker == worker
  }

  /** `register`, with the id it draws. */
  function Register(s: State, worker: Worker, session: string, id: SubId, prepared: bool, w: Appended): (State, Result<SubId, Error>) {
    if Held(s.live, worker) || Held(s.retiring, worker) then (s, Err(Pending))
    else if !prepared then (s, Err(Io))
    else
      var logged := s.(log := Noted(s.log, Mounted(id, worker, session), w));
      if w != Landed then (logged, Err(Io))
      else (logged.(live := s.live[id := Sub(worker, session, None)]), Ok(id))
  }

  /** `unmount_locked`: out of the live map at once, out of the retiring map once it is logged. */
  function Unmount(s: State, id: SubId, w: Appended): (State, Option<Error>) {
    var retiring := if id in s.live then s.retiring[id := s.live[id]] else s.retiring;
    var moved := s.(log := Noted(s.log, Unmounted(id), w), live := s.live - {id}, retiring := retiring);
    if w != Landed then (moved, Some(Io)) else (moved.(retiring := retiring - {id}), None)
  }

  /** The first of the worker's ids, in their order. */
  ghost predicate First(subs: map<SubId, Sub>, worker: Worker, id: SubId) {
    id in subs && subs[id].worker == worker && forall x | x in subs && subs[x].worker == worker :: id <= x
  }

  lemma {:induction false} FirstExists(subs: map<SubId, Sub>, worker: Worker, id: SubId)
    requires id in subs && subs[id].worker == worker
    ensures exists first :: First(subs, worker, first)
    decreases id
  {
    if !First(subs, worker, id) {
      var x :| x in subs && subs[x].worker == worker && x < id;
      FirstExists(subs, worker, x);
    }
  }

  /** What `find` meets: the first live sub-workspace of the worker, or else the first retiring one. */
  ghost function HeldId(s: State, worker: Worker): Option<SubId> {
    if Held(s.live, worker) then
      var id :| id in s.live && s.live[id].worker == worker;
      FirstExists(s.live, worker, id);
      var first :| First(s.live, worker, first);
      Some(first)
    else if Held(s.retiring, worker) then
      var id :| id in s.retiring && s.retiring[id].worker == worker;
      FirstExists(s.retiring, worker, id);
      var first :| First(s.retiring, worker, first);
      Some(first)
    else None
  }

  /** `abandon_worker`. */
  ghost function Abandon(s: State, worker: Worker, w: Appended): (State, Result<bool, Error>) {
    match HeldId(s, worker)
    case None => (s, Ok(false))
    case Some(id) =>
      var (s', e) := Unmount(s, id, w);
      (s', if e.Some? then Err(e.value) else Ok(true))
  }

  /** A view is numbered after those in memory, which it joins only once it is logged. */
  function AddView(s: State, files: string, view: Appended): (State, Result<nat, Error>) {
    var rec := ViewRec(|s.views| + 1, files);
    var logged := s.(viewLog := Noted(s.viewLog, rec, view));
    if view != Landed then (logged, Err(Io)) else (logged.(views := s.views + [rec]), Ok(rec.number))
  }

  /** `publish_locked`: the view is written first. */
  function Publish(s: State, id: SubId, files: string, view: Appended, w: Appended): (State, Result<CloseOut, Error>) {
    var (added, r) := AddView(s, files, view);
    if r.Err? then (added, Err(r.error))
    else
      var (s', e) := Unmount(added, id, w);
      (s', if e.Some? then Err(e.value) else Ok(Published(r.value)))
  }

  /** The session's own log over the current view: the files of the next view, or a name conflict. */
  datatype Reduced = Clean(files: string) | Clash(conflict: string)

  /** What reading and writing give to a close; `None` where reading fails. */
  datatype CloseEnv = CloseEnv(changed: Option<bool>, reduced: Option<Reduced>, edges: bool, view: Appended, tree: Appended)

  function Close(s: State, id: SubId, env: CloseEnv): (State, Result<CloseOut, Error>) {
    if id !in s.live then (s, Err(NotRegistered))
    else if s.live[id].conflict.Some? then (s, Err(Pending))
    else if env.changed.None? then (s, Err(Io))
    else if !env.changed.value then
      var (s', e) := Unmount(s, id, env.tree);
      (s', if e.Some? then Err(e.value) else Ok(Empty))
    else if env.reduced.None? then (s, Err(Io))
    else
      match env.reduced.value
      case Clash(conflict) => (s.(live := s.live[id := s.live[id].(conflict := Some(conflict))]), Ok(Conflicted(conflict)))
      case Clean(files) => if !env.edges then (s, Err(Rejected)) else Publish(s, id, files, env.view, env.tree)
  }

  /** The choice on a conflict: reject it, or allow one of the two names at a path, giving the files of the next view. */
  datatype Choice = Reject | Allow(named: bool, chosen: Option<string>)

  function Resolve(s: State, id: SubId, choice: Choice, view: Appended, w: Appended): (State, Result<CloseOut, Error>) {
    if id !in s.live then (s, Err(NotRegistered))
    else if s.live[id].conflict.None? then (s, Err(NoCurrent))
    else
      match choice
      case Reject =>
        var (s', e) := Unmount(s, id, w);
        (s', if e.Some? then Err(e.value) else Ok(Empty))
      case Allow(named, chosen) =>
        if !named then (s, Err(BadChoice))
        else if chosen.None? then (s, Err(Rejected))
        else Publish(s, id, chosen.value, view, w)
  }

  /** `rollback`: `next` is what the wanted version makes of the current view, where history has it. */
  function Rollback(s: State, next: Option<string>, view: Appended): (State, Result<nat, Error>) {
    if s.views == [] then (s, Err(NoView))
    else if next.None? then (s, Err(Rejected))
    else AddView(s, next.value, view)
  }

  // ---------------------------------------------------------------- the invariant

  function Plain(subs: map<SubId, Sub>): map<SubId, Sub> {
    map id | id in subs :: subs[id].(conflict := None)
  }

  ghost predicate OnePerWorker(subs: map<SubId, Sub>) {
    forall a, b | a in subs && b in subs && subs[a].worker == subs[b].worker :: a == b
  }

  /** The log names exactly the live and the retiring ones, each worker once. */
  ghost predicate Synced(s: State) {
    s.live.Keys !! s.retiring.Keys && Names(s.log, s.live + s.retiring)
  }

  ghost predicate Names(log: seq<TreeLine>, all: map<SubId, Sub>) {
    Replay(log) == Plain(all) && OnePerWorker(all)
  }

  lemma ReplaySnoc(log: seq<TreeLine>, line: TreeLine)
    ensures Replay(log + [line]) == ReplayLine(Replay(log), line)
  {
    assert (log + [line])[..|log|] == log;
  }

  lemma MountedNames(log: seq<TreeLine>, all: map<SubId, Sub>, id: SubId, worker: Worker, session: string)
    requires Names(log, all) && id !in all
    ensures !Held(all, worker) ==> Names(log + [Mounted(id, worker, session)], all[id := Sub(worker, session, None)])
    ensures !Names(log + [Mounted(id, worker, session)], all)
  {
    ReplaySnoc(log, Mounted(id, worker, session));
    hide Replay;
    assert Plain(all[id := Sub(worker, session, None)]) == Plain(all)[id := Sub(worker, session, None)];
    assert id !in Plain(all);
  }

  lemma UnmountedNames(log: seq<TreeLine>, all: map<SubId, Sub>, id: SubId)
    requires Names(log, all) && id in all
    ensures Names(log + [Unmounted(id)], all - {id}) && !Names(log + [Unmounted(id)], all)
  {
    ReplaySnoc(log, Unmounted(id));
    hide Replay;
    assert Plain(all - {id}) == Plain(all) - {id};
    assert id in Plain(all);
  }

  lemma HeldEither(s: State, worker: Worker)
    ensures Held(s.live + s.retiring, worker) ==> Held(s.live, worker) || Held(s.retiring, worker)
  {
  }

  /** Registering keeps the log in step exactly when a failed write leaves no line. */
  lemma RegisterKeeps(s: State, worker: Worker, session: string, id: SubId, prepared: bool, w: Appended)
    requires Synced(s) && id !in s.live && id !in s.retiring
    ensures Synced(Register(s, worker, session, id, prepared, w).0) <==>
            (Held(s.live, worker) || Held(s.retiring, worker) || !prepared || w != Kept)
  {
    HeldEither(s, worker);
    MountedNames(s.log, s.live + s.retiring, id, worker, session);
    hide Names, Held;
    var added := Sub(worker, session, None);
    assert s.live[id := added] + s.retiring == (s.live + s.retiring)[id := added];
  }

  /** Unmounting moves one entry and then drops it; every other entry stays where it is. */
  lemma UnmountMoves(s: State, id: SubId, w: Appended)
    requires s.live.Keys !! s.retiring.Keys && (id in s.live || id in s.retiring)
    ensures var s' := Unmount(s, id, w).0;
            && s'.live.Keys !! s'.retiring.Keys && id !in s'.live
            && s'.log == Noted(s.log, Unmounted(id), w)
            && s'.live + s'.retiring == if w == Landed then s.live + s.retiring - {id} else s.live + s.retiring
  {
  }

  /** Unmounting keeps the log in step exactly when a failed write leaves no line. */
  lemma UnmountKeeps(s: State, id: SubId, w: Appended)
    requires Synced(s) && (id in s.live || id in s.retiring)
    ensures Synced(Unmount(s, id, w).0) <==> w != Kept
  {
    UnmountMoves(s, id, w);
    UnmountedNames(s.log, s.live + s.retiring, id);
    hide Names, Unmount;
  }

  lemma ConflictNames(log: seq<TreeLine>, all: map<SubId, Sub>, id: SubId, conflict: Option<string>)
    requires Names(log, all) && id in all
    ensures Names(log, all[id := all[id].(conflict := conflict)])
  {
    hide Replay;
    assert Plain(all[id := all[id].(conflict := conflict)]) == Plain(all);
  }

  /** A pending conflict is not in the log. */
  lemma ConflictKeeps(s: State, id: SubId, conflict: Option<string>)
    requires Synced(s) && id in s.live
    ensures Synced(s.(live := s.live[id := s.live[id].(conflict := conflict)]))
  {
    var changed := s.live[id].(conflict := conflict);
    ConflictNames(s.log, s.live + s.retiring, id, conflict);
    hide Names;
    assert s.live[id := changed] + s.retiring == (s.live + s.retiring)[id := changed];
  }

  // ---------------------------------------------------------------- runs

  datatype Op =
    | DoRegister(worker: Worker, session: string, id: SubId, prepared: bool, w: Appended)
    | DoAbandon(worker: Worker, w: Appended)
    | DoClose(id: SubId, env: CloseEnv)
    | DoResolve(id: SubId, choice: Choice, view: Appended, w: Appended)
    | DoRollback(next: Option<string>, view: Appended)
    | DoReopen

  ghost function Apply(s: State, op: Op): State {
    match op
    case DoRegister(worker, session, id, prepared, w) => Register(s, worker, session, id, prepared, w).0
    case DoAbandon(worker, w) => Abandon(s, worker, w).0
    case DoClose(id, env) => Close(s, id, env).0
    case DoResolve(id, choice, view, w) => Resolve(s, id, choice, view, w).0
    case DoRollback(next, view) => Rollback(s, next, view).0
    case DoReopen => Opened(s.log, s.viewLog)
  }

  ghost function Run(s: State, ops: seq<Op>): State
    decreases |ops|
  {
    if ops == [] then s else Run(Apply(s, ops[0]), ops[1..])
  }

  /** What becomes of the operation's line in the tree log. */
  function Write(op: Op): Appended {
    match op
    case DoRegister(_, _, _, _, w) => w
    case DoAbandon(_, w) => w
    case DoClose(_, env) => env.tree
    case DoResolve(_, _, _, w) => w
    case DoRollback(_, _) => Landed
    case DoReopen => Landed
  }

  /** A failed log write leaves no line, and each registration draws a new id. */
  predicate Orderly(drawn: set<SubId>, ops: seq<Op>)
    decreases |ops|
  {
    ops == [] ||
    (Write(ops[0]) != Kept &&
     if ops[0].DoRegister? then ops[0].id !in drawn && Orderly(drawn + {ops[0].id}, ops[1..]) else Orderly(drawn, ops[1..]))
  }

  predicate Drawn(s: State, drawn: set<SubId>) {
    (forall id | id in s.live :: id in drawn) && (forall id | id in s.retiring :: id in drawn)
  }

  lemma PlainReplay(log: seq<TreeLine>)
    ensures Plain(Replay(log)) == Replay(log)
  {
    if log != [] {
      PlainReplay(log[..|log| - 1]);
    }
  }

  lemma HeldIdMeans(s: State, worker: Worker)
    ensures match HeldId(s, worker)
            case None => !Held(s.live, worker) && !Held(s.retiring, worker)
            case Some(id) => (id in s.live && s.live[id].worker == worker) || (id in s.retiring && s.retiring[id].worker == worker)
  {
  }

  lemma AbandonKeeps(s: State, worker: Worker, w: Appended)
    requires Synced(s) && w != Kept
    ensures Synced(Abandon(s, worker, w).0)
  {
    HeldIdMeans(s, worker);
    hide HeldId, Synced, Unmount, Held;
    if HeldId(s, worker).Some? {
      UnmountKeeps(s, HeldId(s, worker).value, w);
    }
  }

  /** The view log is not what the tree log is compared with. */
  lemma AddViewKeeps(s: State, files: string, view: Appended)
    requires Synced(s)
    ensures Synced(AddView(s, files, view).0)
  {
  }

  lemma PublishKeeps(s: State, id: SubId, files: string, view: Appended, w: Appended)
    requires Synced(s) && id in s.live && w != Kept
    ensures Synced(Publish(s, id, files, view, w).0)
  {
    hide Synced, Unmount;
    AddViewKeeps(s, files, view);
    UnmountKeeps(AddView(s, files, view).0, id, w);
  }

  lemma CloseKeeps(s: State, id: SubId, env: CloseEnv)
    requires Synced(s) && env.tree != Kept
    ensures Synced(Close(s, id, env).0)
  {
    hide Synced, Unmount, Publish;
    if id in s.live {
      UnmountKeeps(s, id, env.tree);
      if env.reduced.Some? {
        match env.reduced.value {
          case Clash(conflict) => ConflictKeeps(s, id, Some(conflict));
          case Clean(files) => PublishKeeps(s, id, files, env.view, env.tree);
        }
      }
    }
  }

  lemma ResolveKeeps(s: State, id: SubId, choice: Choice, view: Appended, w: Appended)
    requires Synced(s) && w != Kept
    ensures Synced(Resolve(s, id, choice, view, w).0)
  {
    hide Synced, Unmount, Publish;
    if id in s.live {
      UnmountKeeps(s, id, w);
      if choice.Allow? && choice.chosen.Some? {
        PublishKeeps(s, id, choice.chosen.value, view, w);
      }
    }
  }

  lemma RollbackKeeps(s: State, next: Option<string>, view: Appended)
    requires Synced(s)
    ensures Synced(Rollback(s, next, view).0)
  {
    hide Synced;
    if next.Some? {
      AddViewKeeps(s, next.value, view);
    }
  }

  lemma ReopenKeeps(s: State)
    requires Synced(s)
    ensures Synced(Opened(s.log, s.viewLog))
  {
    PlainReplay(s.log);
    hide Replay;
    assert Replay(s.log) + map[] == Replay(s.log);
    forall a | a in Replay(s.log) ensures a in s.live + s.retiring && Replay(s.log)[a].worker == (s.live + s.retiring)[a].worker {
    }
  }

  lemma ApplySynced(s: State, op: Op)
    requires Synced(s) && Write(op) != Kept && (op.DoRegister? ==> op.id !in s.live && op.id !in s.retiring)
    ensures Synced(Apply(s, op))
  {
    hide Synced;
    match op {
      case DoRegister(worker, session, id, prepared, w) => RegisterKeeps(s, worker, session, id, prepared, w);
      case DoAbandon(worker, w) => AbandonKeeps(s, worker, w);
      case DoClose(id, env) => CloseKeeps(s, id, env);
      case DoResolve(id, choice, view, w) => ResolveKeeps(s, id, choice, view, w);
      case DoRollback(next, view) => RollbackKeeps(s, next, view);
      case DoReopen => ReopenKeeps(s);
    }
  }

  lemma ReplayDrawn(s: State)
    requires Synced(s)
    ensures forall id | id in Replay(s.log) :: id in s.live || id in s.retiring
  {
  }

  lemma ApplyDraws(s: State, op: Op, drawn: set<SubId>)
    requires Synced(s) && Drawn(s, drawn)
    ensures Drawn(Apply(s, op), if op.DoRegister? then drawn + {op.id} else drawn)
  {
    hide Replay, Synced, HeldId, Unmount, Publish;
    match op {
      case DoRegister(_, _, _, _, _) =>
      case DoAbandon(worker, w) =>
        if HeldId(s, worker).Some? {
          UnmountDraws(s, HeldId(s, worker).value, w, drawn);
        }
      case DoClose(id, env) =>
        UnmountDraws(s, id, env.tree, drawn);
        if env.reduced.Some? && env.reduced.value.Clean? {
          PublishDraws(s, id, env.reduced.value.files, env.view, env.tree, drawn);
        }
      case DoResolve(id, choice, view, w) =>
        UnmountDraws(s, id, w, drawn);
        if choice.Allow? && choice.chosen.Some? {
          PublishDraws(s, id, choice.chosen.value, view, w, drawn);
        }
      case DoRollback(_, _) =>
      case DoReopen => ReplayDrawn(s);
    }
  }

  lemma UnmountDraws(s: State, id: SubId, w: Appended, drawn: set<SubId>)
    requires Drawn(s, drawn)
    ensures Drawn(Unmount(s, id, w).0, drawn)
  {
  }

  lemma PublishDraws(s: State, id: SubId, files: string, view: Appended, w: Appended, drawn: set<SubId>)
    requires Drawn(s, drawn)
    ensures Drawn(Publish(s, id, files, view, w).0, drawn)
  {
    hide Unmount;
    UnmountDraws(AddView(s, files, view).0, id, w, drawn);
  }

  lemma ApplyKeeps(s: State, op: Op, drawn: set<SubId>)
    requires Synced(s) && Drawn(s, drawn) && Write(op) != Kept && (op.DoRegister? ==> op.id !in drawn)
    ensures Synced(Apply(s, op))
    ensures Drawn(Apply(s, op), if op.DoRegister? then drawn + {op.id} else drawn)
  {
    ApplySynced(s, op);
    ApplyDraws(s, op, drawn);
  }

  lemma {:induction false} RunKeeps(s: State, ops: seq<Op>, drawn: set<SubId>)
    requires Synced(s) && Drawn(s, drawn) && Orderly(drawn, ops)
    ensures Synced(Run(s, ops))
    decreases |ops|
  {
    hide Synced, Apply, Drawn;
    if ops != [] {
      ApplyKeeps(s, ops[0], drawn);
      RunKeeps(Apply(s, ops[0]), ops[1..], if ops[0].DoRegister? then drawn + {ops[0].id} else drawn);
    }
  }

  /**
   Over every run of registrations, closes, resolutions, rollbacks, abandonments, retries and
   reopens in which a failed log write leaves no line, reading the log back gives exactly the live and
   the retiring sub-workspaces, and each worker at most one.
   */
  lemma {:induction false} ReplayIsLiveAndRetiring(ops: seq<Op>)
    requires Orderly({}, ops)
    ensures var s := Run(Opened([], []), ops);
            && Replay(s.log) == Plain(s.live + s.retiring)
            && s.live.Keys !! s.retiring.Keys
            && (forall a, b | a in Replay(s.log) && b in Replay(s.log) && Replay(s.log)[a].worker == Replay(s.log)[b].worker :: a == b)
  {
    assert Synced(Opened([], []));
    RunKeeps(Opened([], []), ops, {});
    hide Run, Replay;
    var s := Run(Opened([], []), ops);
    assert forall id | id in Replay(s.log) :: Replay(s.log)[id].worker == (s.live + s.retiring)[id].worker;
  }

  /**
   A successful abandonment leaves nothing of the worker anywhere, also after a reopen; a
   failed one has already revoked it, and keeps it where the next try finds it.
   */
  lemma AbandonMeans(s: State, worker: Worker, w: Appended)
    requires Synced(s) && w != Kept
    ensures var (s', r) := Abandon(s, worker, w);
            && !Held(s'.live, worker)
            && (r.Ok? ==> !Held(s'.retiring, worker) && !Held(Replay(s'.log), worker) && (r.value <==> Held(Replay(s.log), worker)))
            && (r.Err? ==> Held(s'.retiring, worker) && Held(Replay(s'.log), worker))
  {
    var (s', r) := Abandon(s, worker, w);
    HeldIdMeans(s, worker);
    if HeldId(s, worker).Some? {
      var id := HeldId(s, worker).value;
      UnmountKeeps(s, id, w);
      UnmountMoves(s, id, w);
      assert (s.live + s.retiring)[id].worker == worker;
      hide HeldId;
      HeldInLog(s, worker);
      HeldInLog(s', worker);
      assert forall x | x in s'.live :: x in s.live && x != id && (s.live + s.retiring)[x] == s'.live[x];
      assert forall x | x in s'.retiring && x != id :: (s.live + s.retiring)[x] == s'.retiring[x];
      if r.Err? {
        assert id in s'.retiring && s'.retiring[id].worker == worker;
      }
    } else {
      HeldInLog(s, worker);
    }
  }

  lemma HeldInLog(s: State, worker: Worker)
    requires Synced(s)
    ensures Held(Replay(s.log), worker) <==> Held(s.live, worker) || Held(s.retiring, worker)
  {
    hide Replay;
    var all := s.live + s.retiring;
    if Held(s.live, worker) {
      var id :| id in s.live && s.live[id].worker == worker;
      assert Plain(all)[id].worker == worker;
    }
    if Held(s.retiring, worker) {
      var id :| id in s.retiring && s.retiring[id].worker == worker;
      assert Plain(all)[id].worker == worker;
    }
    if Held(Plain(all), worker) {
      var id :| id in Plain(all) && Plain(all)[id].worker == worker;
      assert all[id].worker == worker;
    }
  }

  // ---------------------------------------------------------------- the views

  /**
   A publication that gets as far as the tree log has its view on disk and in memory first. Once
   the view is logged the sub-workspace is no longer live, and a reopen makes it live again
   exactly when the unmount left no line.
   */
  lemma PublishMeans(s: State, id: SubId, files: string, view: Appended, w: Appended)
    requires Synced(s) && id in s.live
    ensures var (s', r) := Publish(s, id, files, view, w);
            var rec := ViewRec(|s.views| + 1, files);
            && (r == Ok(Published(rec.number)) <==> view == Landed && w == Landed)
            && (s'.log != s.log ==> s'.viewLog == s.viewLog + [rec] && s'.views == s.views + [rec])
            && (id !in s'.live <==> view == Landed)
            && (view != Landed ==> s' == s.(viewLog := Noted(s.viewLog, rec, view)))
            && (view == Landed ==> (id in Opened(s'.log, s'.viewLog).live <==> w == Lost))
  {
    ReplaySnoc(s.log, Unmounted(id));
    hide Replay;
    assert id in Plain(s.live + s.retiring);
  }

  /** Each view's number is its place in the log. */
  predicate Numbered(viewLog: seq<ViewRec>) {
    forall k | 0 <= k < |viewLog| :: viewLog[k].number == k + 1
  }

  /** One line more in the view log, numbered after the views in memory, and perhaps among them. */
  ghost predicate AddsView(s: State, s': State) {
    && |s'.viewLog| == |s.viewLog| + 1 && s.viewLog <= s'.viewLog
    && var rec := s'.viewLog[|s.viewLog|];
       rec.number == |s.views| + 1 && (s'.views == s.views || s'.views == s.views + [rec])
  }

  /** What one operation does to the views: nothing, a line on disk, a view in both places, or a reopen. */
  lemma ViewStep(s: State, op: Op)
    ensures var s' := Apply(s, op);
            || (s'.viewLog == s.viewLog && s'.views == s.views)
            || (s'.viewLog == s.viewLog && s'.views == s.viewLog)
            || AddsView(s, s')
  {
    hide Unmount, HeldId, Replay;
    match op {
      case DoRegister(_, _, _, _, _) =>
      case DoAbandon(worker, w) =>
        if HeldId(s, worker).Some? {
          UnmountViews(s, HeldId(s, worker).value, w);
        }
      case DoClose(id, env) =>
        UnmountViews(s, id, env.tree);
        if env.reduced.Some? && env.reduced.value.Clean? {
          PublishViews(s, id, env.reduced.value.files, env.view, env.tree);
        }
      case DoResolve(id, choice, view, w) =>
        UnmountViews(s, id, w);
        if choice.Allow? && choice.chosen.Some? {
          PublishViews(s, id, choice.chosen.value, view, w);
        }
      case DoRollback(_, _) =>
      case DoReopen =>
    }
  }

  lemma UnmountViews(s: State, id: SubId, w: Appended)
    ensures Unmount(s, id, w).0.viewLog == s.viewLog && Unmount(s, id, w).0.views == s.views
  {
  }

  lemma PublishViews(s: State, id: SubId, files: string, view: Appended, w: Appended)
    ensures var s' := Publish(s, id, files, view, w).0;
            (s'.viewLog == s.viewLog && s'.views == s.views) || AddsView(s, s')
  {
  }

  /** Every view line is written while the views in memory are all that the log holds. */
  ghost predicate InTurn(s: State, ops: seq<Op>)
    decreases |ops|
  {
    ops == [] ||
    ((|Apply(s, ops[0]).viewLog| > |s.viewLog| ==> |s.views| == |s.viewLog|) && InTurn(Apply(s, ops[0]), ops[1..]))
  }

  lemma {:induction false} ViewsOnlyGrow(s: State, ops: seq<Op>)
    ensures s.viewLog <= Run(s, ops).viewLog
    decreases |ops|
  {
    if ops != [] {
      ViewStep(s, ops[0]);
      hide Apply;
      ViewsOnlyGrow(Apply(s, ops[0]), ops[1..]);
    }
  }

  lemma {:induction false} NumberedFrom(s: State, ops: seq<Op>)
    requires Numbered(s.viewLog) && |s.views| <= |s.viewLog|
    ensures Numbered(Run(s, ops).viewLog) <==> InTurn(s, ops)
    decreases |ops|
  {
    if ops != [] {
      var s' := Apply(s, ops[0]);
      ViewStep(s, ops[0]);
      hide Apply;
      if |s'.viewLog| > |s.viewLog| && |s.views| != |s.viewLog| {
        ViewsOnlyGrow(s', ops[1..]);
        assert s'.viewLog[|s.viewLog|].number != |s.viewLog| + 1;
        assert Run(s, ops).viewLog[|s.viewLog|] == s'.viewLog[|s.viewLog|];
      } else {
        NumberedFrom(s', ops[1..]);
      }
    }
  }

  /**
   After every run the views in the log are numbered by their places, if and only if no view line
   was written after a failed write had kept one that the memory has not read back. A reopen
   reads it back.
   */
  lemma {:induction false} ViewsAreNumberedIff(ops: seq<Op>)
    ensures Numbered(Run(Opened([], []), ops).viewLog) <==> InTurn(Opened([], []), ops)
  {
    NumberedFrom(Opened([], []), ops);
  }
}
