/** The recorder's workspace as the object that moves sub-workspaces between its maps and writes the tree log. */
module Wps {
  import opened Basics
  import opened SubWorkspaces

  class Wp {
    var log: seq<TreeLine>
    var live: map<SubId, Sub>
    var retiring: map<SubId, Sub>
    var viewLog: seq<ViewRec>
    var views: seq<ViewRec>

    function View(): State
      reads this
    {
      State(log, live, retiring, viewLog, views)
    }

    /** `open` reads the views and replays the tree log. */
    constructor (log: seq<TreeLine>, viewLog: seq<ViewRec>)
      ensures View() == Opened(log, viewLog)
    {
      this.log, this.viewLog := log, viewLog;
      live, retiring, views := map[], map[], [];
      new;
      for i := 0 to |viewLog|
        invariant this.log == log && this.viewLog == viewLog && live == map[] && retiring == map[]
        invariant views == viewLog[..i]
      {
        views := views + [viewLog[i]];
      }
      for i := 0 to |log|
        invariant this.log == log && this.viewLog == viewLog && views == viewLog && retiring == map[]
        invariant live == Replay(log[..i])
      {
        ReplaySnoc(log[..i], log[i]);
        assert log[..i + 1] == log[..i] + [log[i]];
        match log[i] {
          case Mounted(id, worker, session) => live := live[id := Sub(worker, session, None)];
          case Unmounted(id) => live := live - {id};
        }
      }
      assert log[..|log|] == log;
    }

    method AppendTree(line: TreeLine, w: Appended) returns (ok: bool)
      modifies this`log
      ensures log == Noted(old(log), line, w) && ok == (w == Landed)
    {
      if w != Lost {
        log := log + [line];
      }
      return w == Landed;
    }

    method AppendView(rec: ViewRec, view: Appended) returns (ok: bool)
      modifies this`viewLog
      ensures viewLog == Noted(old(viewLog), rec, view) && ok == (view == Landed)
    {
      if view != Lost {
        viewLog := viewLog + [rec];
      }
      return view == Landed;
    }

    /** Walks the ids in their order. */
    method Find(subs: map<SubId, Sub>, worker: Worker) returns (found: Option<SubId>)
      ensures found.Some? <==> Held(subs, worker)
      ensures found.Some? ==> First(subs, worker, found.value)
    {
      var rest := subs.Keys;
      while rest != {}
        invariant rest <= subs.Keys
        invariant forall x | x in subs && x !in rest :: subs[x].worker != worker
        decreases |rest|
      {
        ghost var some :| some in rest;
        LeastExists(rest, some);
        var id :| id in rest && forall x | x in rest :: id <= x;
        if subs[id].worker == worker {
          return Some(id);
        }
        rest := rest - {id};
      }
      return None;
    }

    method Register(worker: Worker, session: string, id: SubId, prepared: bool, w: Appended) returns (r: Result<SubId, Error>)
      modifies this
      ensures (View(), r) == SubWorkspaces.Register(old(View()), worker, session, id, prepared, w)
    {
      var inLive := Find(live, worker);
      var inRetiring := Find(retiring, worker);
      if inLive.Some? || inRetiring.Some? {
        return Err(Pending);
      }
      if !prepared {
        return Err(Io);
      }
      var logged := AppendTree(Mounted(id, worker, session), w);
      if !logged {
        return Err(Io);
      }
      live := live[id := Sub(worker, session, None)];
      return Ok(id);
    }

    method UnmountLocked(id: SubId, w: Appended) returns (error: Option<Error>)
      modifies this
      ensures (View(), error) == Unmount(old(View()), id, w)
    {
      if id in live {
        retiring := retiring[id := live[id]];
      }
      live := live - {id};
      var logged := AppendTree(Unmounted(id), w);
      if !logged {
        return Some(Io);
      }
      retiring := retiring - {id};
      return None;
    }

    method AbandonWorker(worker: Worker, w: Appended) returns (r: Result<bool, Error>)
      modifies this
      ensures (View(), r) == Abandon(old(View()), worker, w)
    {
      var found := Find(live, worker);
      if found.None? {
        found := Find(retiring, worker);
      }
      if found.None? {
        return Ok(false);
      }
      HeldIs(View(), worker, found.value);
      hide HeldId, Held;
      var error := UnmountLocked(found.value, w);
      return if error.Some? then Err(error.value) else Ok(true);
    }

    method AddView(files: string, view: Appended) returns (r: Result<nat, Error>)
      modifies this`viewLog, this`views
      ensures (View(), r) == SubWorkspaces.AddView(old(View()), files, view)
    {
      var rec := ViewRec(|views| + 1, files);
      var logged := AppendView(rec, view);
      if !logged {
        return Err(Io);
      }
      views := views + [rec];
      return Ok(rec.number);
    }

    method PublishLocked(id: SubId, files: string, view: Appended, w: Appended) returns (r: Result<CloseOut, Error>)
      modifies this
      ensures (View(), r) == Publish(old(View()), id, files, view, w)
    {
      var number := AddView(files, view);
      if number.Err? {
        return Err(number.error);
      }
      var error := UnmountLocked(id, w);
      return if error.Some? then Err(error.value) else Ok(Published(number.value));
    }

    method Rollback(next: Option<string>, view: Appended) returns (r: Result<nat, Error>)
      modifies this`viewLog, this`views
      ensures (View(), r) == SubWorkspaces.Rollback(old(View()), next, view)
    {
      if views == [] {
        return Err(NoView);
      }
      if next.None? {
        return Err(Rejected);
      }
      r := AddView(next.value, view);
    }

    method Close(id: SubId, env: CloseEnv) returns (r: Result<CloseOut, Error>)
      modifies this
      ensures (View(), r) == SubWorkspaces.Close(old(View()), id, env)
    {
      hide Unmount;
      if id !in live {
        return Err(NotRegistered);
      }
      if live[id].conflict.Some? {
        return Err(Pending);
      }
      if env.changed.None? {
        return Err(Io);
      }
      if !env.changed.value {
        var error := UnmountLocked(id, env.tree);
        return if error.Some? then Err(error.value) else Ok(Empty);
      }
      if env.reduced.None? {
        return Err(Io);
      }
      match env.reduced.value {
        case Clash(conflict) =>
          live := live[id := live[id].(conflict := Some(conflict))];
          return Ok(Conflicted(conflict));
        case Clean(files) =>
          if !env.edges {
            return Err(Rejected);
          }
          r := PublishLocked(id, files, env.view, env.tree);
      }
    }

    method Resolve(id: SubId, choice: Choice, view: Appended, w: Appended) returns (r: Result<CloseOut, Error>)
      modifies this
      ensures (View(), r) == SubWorkspaces.Resolve(old(View()), id, choice, view, w)
    {
      hide Unmount;
      if id !in live {
        return Err(NotRegistered);
      }
      if live[id].conflict.None? {
        return Err(NoCurrent);
      }
      match choice {
        case Reject =>
          var error := UnmountLocked(id, w);
          return if error.Some? then Err(error.value) else Ok(Empty);
        case Allow(named, chosen) =>
          if !named {
            return Err(BadChoice);
          }
          if chosen.None? {
            return Err(Rejected);
          }
          r := PublishLocked(id, chosen.value, view, w);
      }
    }
  }

  /** Live ones come before retiring ones, and a first id is the only first id. */
  lemma HeldIs(s: State, worker: Worker, id: SubId)
    requires if Held(s.live, worker) then First(s.live, worker, id) else First(s.retiring, worker, id)
    ensures HeldId(s, worker) == Some(id)
  {
  }
}
