/** What a close, a resolution, a rollback and a registration achieve, and what each leaves for the next. */
module SubEffects {
  import opened Basics
  import opened SubWorkspaces

  // ---------------------------------------------------------------- registering and unmounting

  /**
   A registration succeeds exactly if the worker is held nowhere, its preparation went through and its
   line is written; it then adds one live entry without a conflict. A held worker is refused
   as pending, and nothing changes.
   */
  lemma RegisterIff(s: State, worker: Worker, session: string, id: SubId, prepared: bool, w: Appended)
    ensures var (s', r) := Register(s, worker, session, id, prepared, w);
            var held := Held(s.live, worker) || Held(s.retiring, worker);
            && (r.Ok? <==> !held && prepared && w == Landed)
            && (r == Err(Pending) <==> held) && (r.Err? ==> r.error in {Pending, Io})
            && (r.Ok? ==> r.value == id && s' == s.(log := s.log + [Mounted(id, worker, session)], live := s.live[id := Sub(worker, session, None)]))
            && (held || !prepared ==> s' == s)
            && (!held && prepared && w != Landed ==> s' == s.(log := Noted(s.log, Mounted(id, worker, session), w)))
  {
    hide Held;
  }

  /** The entry has left the maps, and all others stay. */
  predicate Left(s: State, s': State, id: SubId) {
    s'.live == s.live - {id} && s'.retiring == s.retiring - {id} && s'.log == s.log + [Unmounted(id)]
  }

  /** The entry is no longer live but waits to be logged; all others stay. */
  predicate Retired(s: State, s': State, id: SubId, w: Appended)
    requires id in s.live
  {
    && s'.live == s.live - {id} && s'.retiring == s.retiring[id := s.live[id]]
    && s'.log == Noted(s.log, Unmounted(id), w)
  }

  predicate SameViews(s: State, s': State) {
    s'.views == s.views && s'.viewLog == s.viewLog
  }

  lemma UnmountLeaves(s: State, id: SubId, w: Appended)
    requires id in s.live
    ensures var (s', e) := Unmount(s, id, w);
            && (e == None <==> w == Landed) && (e.Some? ==> e == Some(Io)) && SameViews(s, s')
            && (w == Landed ==> Left(s, s', id)) && (w != Landed ==> Retired(s, s', id, w))
  {
    assert s.retiring[id := s.live[id]] - {id} == s.retiring - {id};
  }

  // ---------------------------------------------------------------- publishing

  /** One view more, on disk and in memory, numbered after the others in memory. */
  predicate OneMoreView(s: State, s': State, files: string) {
    var rec := ViewRec(|s.views| + 1, files);
    s'.views == s.views + [rec] && s'.viewLog == s.viewLog + [rec]
  }

  /** How a publication ends: with both lines written, the entry has left and the view is there. */
  ghost predicate PublishedAs(s: State, s': State, r: Result<CloseOut, Error>, id: SubId, files: string, view: Appended, w: Appended)
    requires id in s.live
  {
    if view != Landed then r == Err(Io) && s' == s.(viewLog := Noted(s.viewLog, ViewRec(|s.views| + 1, files), view))
    else
      && OneMoreView(s, s', files)
      && (if w == Landed then r == Ok(Published(|s.views| + 1)) && Left(s, s', id) else r == Err(Io) && Retired(s, s', id, w))
  }

  lemma PublishEnds(s: State, id: SubId, files: string, view: Appended, w: Appended)
    requires id in s.live
    ensures var (s', r) := Publish(s, id, files, view, w); PublishedAs(s, s', r, id, files, view, w)
  {
    UnmountLeaves(AddView(s, files, view).0, id, w);
    hide Unmount, Left, Retired;
    LeavesAlike(s, AddView(s, files, view).0, Publish(s, id, files, view, w).0, id, w);
  }

  lemma LeavesAlike(s: State, s1: State, s': State, id: SubId, w: Appended)
    requires id in s.live && s1.live == s.live && s1.retiring == s.retiring && s1.log == s.log
    ensures Left(s1, s', id) <==> Left(s, s', id)
    ensures Retired(s1, s', id, w) <==> Retired(s, s', id, w)
  {
  }

  // ---------------------------------------------------------------- closing

  /** The close gets past the checks on its entry and reads whether anything changed. */
  predicate Closable(s: State, id: SubId, env: CloseEnv) {
    id in s.live && s.live[id].conflict.None? && env.changed.Some?
  }

  /**
   A close without changes ends empty, and the entry leaves. One with changes that reduce
   cleanly and fit the edges ends as a publication of them. One that clashes publishes nothing: it records the
   conflict on the entry, which stays live. A close that is refused changes nothing.
   */
  lemma CloseMeans(s: State, id: SubId, env: CloseEnv)
    ensures var (s', r) := Close(s, id, env);
            var reduces := Closable(s, id, env) && env.changed.value && env.reduced.Some?;
            && (id !in s.live ==> r == Err(NotRegistered) && s' == s)
            && (id in s.live && s.live[id].conflict.Some? ==> r == Err(Pending) && s' == s)
            && (id in s.live && s.live[id].conflict.None? && (env.changed.None? || (env.changed.value && env.reduced.None?)) ==>
                  r == Err(Io) && s' == s)
            && (Closable(s, id, env) && !env.changed.value ==>
                  && SameViews(s, s')
                  && (if env.tree == Landed then r == Ok(Empty) && Left(s, s', id) else r == Err(Io) && Retired(s, s', id, env.tree)))
            && (reduces && env.reduced.value.Clash? ==>
                  && r == Ok(Conflicted(env.reduced.value.conflict)) && SameViews(s, s')
                  && s'.log == s.log && s'.retiring == s.retiring
                  && s'.live == s.live[id := Sub(s.live[id].worker, s.live[id].session, Some(env.reduced.value.conflict))])
            && (reduces && env.reduced.value.Clean? && !env.edges ==> r == Err(Rejected) && s' == s)
            && (reduces && env.reduced.value.Clean? && env.edges ==> PublishedAs(s, s', r, id, env.reduced.value.files, env.view, env.tree))
  {
    if id in s.live {
      UnmountLeaves(s, id, env.tree);
      if env.reduced.Some? && env.reduced.value.Clean? {
        PublishEnds(s, id, env.reduced.value.files, env.view, env.tree);
      }
    }
    hide Unmount, Publish, Left, Retired, PublishedAs, SameViews;
    OnlyLive(s);
  }

  lemma OnlyLive(s: State)
    ensures forall live :: SameViews(s, s.(live := live))
  {
  }

  // ---------------------------------------------------------------- resolving

  /**
   Only an entry with a conflict is resolved. Rejecting it publishes nothing and the entry leaves;
   choosing one of the two names it offers ends as a publication; any other choice changes nothing.
   */
  lemma ResolveMeans(s: State, id: SubId, choice: Choice, view: Appended, w: Appended)
    ensures var (s', r) := Resolve(s, id, choice, view, w);
            var waits := id in s.live && s.live[id].conflict.Some?;
            && (id !in s.live ==> r == Err(NotRegistered) && s' == s)
            && (id in s.live && s.live[id].conflict.None? ==> r == Err(NoCurrent) && s' == s)
            && (waits && choice.Reject? ==>
                  && SameViews(s, s')
                  && (if w == Landed then r == Ok(Empty) && Left(s, s', id) else r == Err(Io) && Retired(s, s', id, w)))
            && (waits && choice.Allow? && !choice.named ==> r == Err(BadChoice) && s' == s)
            && (waits && choice.Allow? && choice.named && choice.chosen.None? ==> r == Err(Rejected) && s' == s)
            && (waits && choice.Allow? && choice.named && choice.chosen.Some? ==> PublishedAs(s, s', r, id, choice.chosen.value, view, w))
  {
    if id in s.live {
      UnmountLeaves(s, id, w);
      if choice.Allow? && choice.chosen.Some? {
        PublishEnds(s, id, choice.chosen.value, view, w);
      }
    }
    hide Unmount, Publish, Left, Retired, PublishedAs, SameViews;
  }

  /**
   A conflict holds its entry until it is resolved: every later close is refused, whatever it
   reads; a reopen forgets the conflict, so that the entry can be closed again.
   */
  lemma ConflictHolds(s: State, id: SubId, env: CloseEnv, later: CloseEnv, conflict: string)
    requires Synced(s) && Close(s, id, env).1 == Ok(Conflicted(conflict))
    ensures var s' := Close(s, id, env).0;
            && Close(s', id, later) == (s', Err(Pending))
            && (forall view, w :: Resolve(s', id, Reject, view, w).1 == if w == Landed then Ok(Empty) else Err(Io))
            && (forall files, view, w :: Resolve(s', id, Allow(true, Some(files)), view, w) == Publish(s', id, files, view, w))
            && var reopened := Opened(s'.log, s'.viewLog);
               id in reopened.live && reopened.live[id].conflict == None && reopened.live[id].worker == s.live[id].worker
  {
    CloseMeans(s, id, env);
    var s' := Close(s, id, env).0;
    assert id in Plain(s.live + s.retiring);
    hide Publish, Unmount, PublishedAs, Left, Retired, OnePerWorker, Plain;
    CloseMeans(s', id, later);
    forall view, w ensures Resolve(s', id, Reject, view, w).1 == if w == Landed then Ok(Empty) else Err(Io) {
      ResolveMeans(s', id, Reject, view, w);
    }
    PlainIsLive(s, id);
  }

  lemma PlainIsLive(s: State, id: SubId)
    requires Synced(s) && id in s.live
    ensures id in Replay(s.log) && Replay(s.log)[id] == s.live[id].(conflict := None)
  {
    hide Replay;
    assert (s.live + s.retiring)[id] == s.live[id];
  }

  // ---------------------------------------------------------------- rolling back

  /** A rollback adds one view with the wanted files; earlier views stay, and no entry changes. */
  lemma RollbackMeans(s: State, next: Option<string>, view: Appended)
    ensures var (s', r) := Rollback(s, next, view);
            && (r.Ok? <==> s.views != [] && next.Some? && view == Landed)
            && (r == Err(NoView) <==> s.views == [])
            && (r == Err(Rejected) <==> s.views != [] && next.None?) && (r.Err? ==> r.error in {NoView, Rejected, Io})
            && (r.Ok? ==> r.value == |s.views| + 1 && next.Some? && OneMoreView(s, s', next.value))
            && (r.Err? && r.error != Io ==> s' == s)
            && (r == Err(Io) ==> next.Some? && s' == s.(viewLog := Noted(s.viewLog, ViewRec(|s.views| + 1, next.value), view)))
            && s'.live == s.live && s'.retiring == s.retiring && s'.log == s.log
  {
  }

  // ---------------------------------------------------------------- a worker's next sub-workspace

  /** While a worker's entry is live or retiring it gets no other; once it has left it gets one again. */
  lemma OneAtATime(s: State, s': State, id: SubId, worker: Worker, session: string, next: SubId, prepared: bool, w: Appended)
    requires Synced(s) && id in s.live && s.live[id].worker == worker
    ensures Register(s, worker, session, next, prepared, w) == (s, Err(Pending))
    ensures Left(s, s', id) ==> (Register(s', worker, session, next, prepared, w).1 == Ok(next) <==> prepared && w == Landed)
    ensures Retired(s, s', id, w) ==> Register(s', worker, session, next, prepared, w) == (s', Err(Pending))
  {
    var all := s.live + s.retiring;
    assert all[id].worker == worker;
    assert forall x | x in s.live :: all[x] == s.live[x] || x in s.retiring;
    assert forall x | x in s.retiring :: all[x] == s.retiring[x];
    if Retired(s, s', id, w) {
      assert id in s'.retiring && s'.retiring[id].worker == worker;
    }
    hide Replay, Plain;
    RegisterIff(s, worker, session, next, prepared, w);
    RegisterIff(s', worker, session, next, prepared, w);
    hide Register;
  }
}
