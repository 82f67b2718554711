/** The fence around event delivery: notes on the tape, and the events that failed in this process. */
module Deliveries {
  import opened Basics

  type Incarnation = nat

  datatype Status = Started | Settled

  datatype Note = Note(event: string, instance: Incarnation, status: Status)

  datatype Live = Live(incarnation: Incarnation, failed: set<string>)

  /** One session: its tape's delivery notes, and the live engagement, if there is one. */
  datatype Session = Session(notes: seq<Note>, live: Option<Live>)

  function LastNote(notes: seq<Note>, event: string): Option<Note> {
    if notes == [] then None
    else if notes[|notes| - 1].event == event then Some(notes[|notes| - 1])
    else LastNote(notes[..|notes| - 1], event)
  }

  // ---------------------------------------------------------------- one walk over the route

  datatype Error = HookDenied | SpoolFailed | NotMounted | OtherError | Inactive | Unsettled | Io

  /** What happens at one name of the route; each ending says whether the body was reached. */
  datatype Turn =
    | Outcome(reached: bool)
    | Withheld(reached: bool, error: Error)
    | BodyFailed
    | Failed(reached: bool, error: Error, missingNoted: bool)

  /** Outcomes that are ready, whether one is withheld, and the error that ended the walk. */
  datatype Walk = Walk(ready: nat, withheld: bool, error: Option<Error>, reached: bool)

  const AT_REST := Walk(0, false, None, false)

  function Take(w: Walk, t: Turn, selected: bool): Walk {
    match t
    case Outcome(reached) => Walk(w.ready + 1, w.withheld, None, w.reached || reached)
    case Withheld(reached, error) =>
      if !selected && error == HookDenied then w.(reached := w.reached || reached)
      else Walk(w.ready, true, Some(error), w.reached || reached)
    case BodyFailed => if selected then Walk(w.ready, w.withheld, Some(SpoolFailed), true) else w.(reached := true)
    case Failed(reached, error, missingNoted) =>
      if error == NotMounted && !selected then
        Walk(w.ready, w.withheld, if missingNoted then None else Some(Io), w.reached || reached)
      else Walk(w.ready, w.withheld, Some(error), w.reached || reached)
  }

  function WalkRoute(w: Walk, route: seq<Turn>, selected: bool): Walk
    decreases |route|
  {
    if route == [] || w.error.Some? then w else WalkRoute(Take(w, route[0], selected), route[1..], selected)
  }

  /** Nothing is ready or withheld, and the error says that nothing was left half done. */
  predicate Clean(w: Walk) {
    w.error.None? || (w.ready == 0 && !w.withheld && w.error.value in {HookDenied, SpoolFailed, NotMounted})
  }

  // ---------------------------------------------------------------- one batch

  /** Where the process stops: not at all, at the first note, inside the route, or at the last note. */
  datatype Halt = Runs | AtStart | InRoute(after: nat) | AtSettle

  datatype Env = Env(admitted: bool, route: seq<Turn>, selected: bool, started: Appended, settled: Appended, halt: Halt)

  /** What a batch did: whether a body was reached, and whether the settlement was recorded. */
  datatype Batch = Batch(event: string, instance: Incarnation, reached: bool, settled: bool)

  predicate Fenced(s: Session, event: string) {
    s.live.Some? &&
    (event in s.live.value.failed ||
     var previous := LastNote(s.notes, event);
     previous.Some? && (previous.value.status != Settled || previous.value.instance != s.live.value.incarnation))
  }

  function Interrupted(s: Session, event: string): Session {
    match s.live
    case None => s
    case Some(run) => s.(live := Some(run.(failed := run.failed + {event})))
  }

  /** The part of a batch that follows the started note. */
  function Settle(s: Session, event: string, env: Env): (Session, Option<Error>, Batch)
    requires s.live.Some?
  {
    var me := s.live.value.incarnation;
    match env.halt
    case InRoute(k) =>
      var cut := if k < |env.route| then env.route[..k] else env.route;
      (s.(live := None), Some(Io), Batch(event, me, WalkRoute(AT_REST, cut, env.selected).reached, false))
    case _ =>
      var w := WalkRoute(AT_REST, env.route, env.selected);
      if !Clean(w) then (Interrupted(s, event), w.error, Batch(event, me, w.reached, false))
      else
        var noted := s.(notes := Noted(s.notes, Note(event, me, Settled), env.settled));
        if env.halt == AtSettle then (noted.(live := None), Some(Io), Batch(event, me, w.reached, false))
        else if env.settled != Landed then (Interrupted(noted, event), Some(Io), Batch(event, me, w.reached, false))
        else (noted, w.error, Batch(event, me, w.reached, true))
  }

  /** `deliver_batch`. */
  function Deliver(s: Session, event: string, env: Env): (Session, Option<Error>, Option<Batch>) {
    if s.live.None? then (s, Some(Inactive), None)
    else if Fenced(s, event) then (s, Some(Unsettled), None)
    else if !env.admitted then (s, Some(HookDenied), None)
    else
      var started := s.(notes := Noted(s.notes, Note(event, s.live.value.incarnation, Started), env.started));
      if env.halt == AtStart then (started.(live := None), Some(Io), None)
      else if env.started != Landed then (started, Some(Io), None)
      else
        var (s', e, b) := Settle(started, event, env);
        (s', e, Some(b))
  }

  /** `resume_session`: a mounted session is refused; otherwise the engagement is a new one. */
  function Resume(s: Session, incarnation: Incarnation, recorded: bool): Session {
    if s.live.Some? || !recorded then s else s.(live := Some(Live(incarnation, {})))
  }
}

/** Two batches that reach a body for one event: the first one was settled under the same engagement. */
module DeliveryRuns {
  import opened Basics
  import opened Deliveries

  datatype Op =
    | DoDeliver(event: string, env: Env)
    | DoResume(incarnation: Incarnation, recorded: bool)
    | DoLeave

  /** A session with every incarnation it has had, and every batch that got past its first note. */
  datatype World = World(session: Session, used: set<Incarnation>, batches: seq<Batch>)

  function Apply(w: World, op: Op): World {
    match op
    case DoDeliver(event, env) =>
      var (s', e, b) := Deliver(w.session, event, env);
      World(s', w.used, if b.Some? then w.batches + [b.value] else w.batches)
    case DoResume(incarnation, recorded) => World(Resume(w.session, incarnation, recorded), w.used + {incarnation}, w.batches)
    case DoLeave => w.(session := w.session.(live := None))
  }

  function Run(w: World, ops: seq<Op>): World
    decreases |ops|
  {
    if ops == [] then w else Run(Apply(w, ops[0]), ops[1..])
  }

  predicate Fresh(used: set<Incarnation>, ops: seq<Op>)
    decreases |ops|
  {
    ops == [] ||
    if ops[0].DoResume? then ops[0].incarnation !in used && Fresh(used + {ops[0].incarnation}, ops[1..])
    else Fresh(used, ops[1..])
  }

  /** A new session starts engaged, with an empty tape. */
  function Begun(first: Incarnation): World {
    World(Session([], Some(Live(first, {}))), {first}, [])
  }

  // ---------------------------------------------------------------- the invariant

  /** Whatever incarnation is live now, or ever again, this event is not delivered. */
  predicate Blocked(s: Session, event: string) {
    var last := LastNote(s.notes, event);
    && last.Some?
    && (last.value.status == Started || s.live.None? || last.value.instance != s.live.value.incarnation
        || event in s.live.value.failed)
  }

  ghost predicate Sound(w: World) {
    && (w.session.live.Some? ==> w.session.live.value.incarnation in w.used)
    && (forall e :: LastNote(w.session.notes, e).Some? ==> LastNote(w.session.notes, e).value.instance in w.used)
    && (forall i | 0 <= i < |w.batches| && w.batches[i].reached :: Accounted(w.session, w.batches[i]))
    && (forall i, j | 0 <= i < j < |w.batches| :: Paired(w.batches[i], w.batches[j]))
  }

  predicate Accounted(s: Session, b: Batch) {
    Blocked(s, b.event) ||
    (b.settled && s.live.Some? && b.instance == s.live.value.incarnation && LastNote(s.notes, b.event).Some?)
  }

  predicate Paired(first: Batch, second: Batch) {
    first.reached && second.reached && first.event == second.event ==>
      first.settled && first.instance == second.instance
  }

  // ---------------------------------------------------------------- steps

  lemma LastNoted(notes: seq<Note>, n: Note, w: Appended, event: string)
    ensures LastNote(Noted(notes, n, w), event) == if w != Lost && n.event == event then Some(n) else LastNote(notes, event)
  {
    if w != Lost {
      assert (notes + [n])[..|notes|] == notes;
    }
  }

  /** A step that touches the notes of one event only, and never unblocks another. */
  ghost predicate Touches(s: Session, s': Session, event: string) {
    && (forall e | e != event :: LastNote(s'.notes, e) == LastNote(s.notes, e))
    && (LastNote(s.notes, event).Some? ==> LastNote(s'.notes, event).Some?)
    && (s'.live.None? || (s.live.Some? && s'.live.value.incarnation == s.live.value.incarnation && s.live.value.failed <= s'.live.value.failed))
  }

  lemma OthersStay(s: Session, s': Session, event: string, b: Batch)
    requires Touches(s, s', event) && Accounted(s, b) && b.event != event
    ensures Accounted(s', b)
  {
  }

  /** A batch that gets past its first note leaves its event blocked, or settles it. */
  lemma SettleLeaves(s: Session, event: string, env: Env)
    requires s.live.Some?
    requires LastNote(s.notes, event) == Some(Note(event, s.live.value.incarnation, Started))
    ensures var (s', e, b) := Settle(s, event, env);
            && Touches(s, s', event)
            && b.event == event && b.instance == s.live.value.incarnation
            && (Blocked(s', event) || (b.settled && s'.live == s.live && LastNote(s'.notes, event).Some?))
            && (LastNote(s'.notes, event).Some? && LastNote(s'.notes, event).value.instance == s.live.value.incarnation)
  {
    var n := Note(event, s.live.value.incarnation, Settled);
    forall e ensures LastNote(Noted(s.notes, n, env.settled), e) ==
                     if env.settled != Lost && e == event then Some(n) else LastNote(s.notes, e)
    {
      LastNoted(s.notes, n, env.settled, e);
    }
    hide WalkRoute, Clean;
  }

  lemma DeliverKeeps(w: World, event: string, env: Env)
    requires Sound(w)
    ensures Sound(Apply(w, DoDeliver(event, env)))
  {
    var w' := Apply(w, DoDeliver(event, env));
    var s, s' := w.session, w'.session;
    if s.live.Some? && !Fenced(s, event) && env.admitted {
      var n := Note(event, s.live.value.incarnation, Started);
      var started := s.(notes := Noted(s.notes, n, env.started));
      forall e ensures LastNote(started.notes, e) == if env.started != Lost && e == event then Some(n) else LastNote(s.notes, e) {
        LastNoted(s.notes, n, env.started, e);
      }
      if env.started == Landed && env.halt != AtStart {
        SettleLeaves(started, event, env);
        DeliveredKeeps(w, event, started, env);
      } else {
        hide LastNote;
        forall i | 0 <= i < |w.batches| && w.batches[i].reached ensures Accounted(s', w.batches[i]) {
          assert Accounted(s, w.batches[i]);
        }
      }
    }
  }

  lemma DeliveredKeeps(w: World, event: string, started: Session, env: Env)
    requires Sound(w) && w.session.live.Some? && !Fenced(w.session, event)
    requires started.live == w.session.live && Touches(w.session, started, event)
    requires LastNote(started.notes, event) == Some(Note(event, started.live.value.incarnation, Started))
    ensures var (s', e, b) := Settle(started, event, env); Sound(World(s', w.used, w.batches + [b]))
  {
    var (s', e, b) := Settle(started, event, env);
    SettleLeaves(started, event, env);
    var all := w.batches + [b];
    hide Settle, LastNote;
    forall i | 0 <= i < |all| && all[i].reached ensures Accounted(s', all[i]) {
      if i < |w.batches| {
        assert Accounted(w.session, w.batches[i]);
        if all[i].event != event {
          OthersStay(w.session, started, event, all[i]);
          OthersStay(started, s', event, all[i]);
        }
      }
    }
    forall i, j | 0 <= i < j < |all| ensures Paired(all[i], all[j]) {
      if j == |w.batches| && all[i].reached {
        assert Accounted(w.session, w.batches[i]);
      } else if j < |w.batches| {
        assert Paired(w.batches[i], w.batches[j]);
      }
    }
  }

  lemma ApplyKeeps(w: World, op: Op)
    requires Sound(w) && (op.DoResume? ==> op.incarnation !in w.used)
    ensures Sound(Apply(w, op))
  {
    if op.DoDeliver? {
      DeliverKeeps(w, op.event, op.env);
    } else {
      hide LastNote;
      var w' := Apply(w, op);
      forall i | 0 <= i < |w.batches| && w.batches[i].reached ensures Accounted(w'.session, w.batches[i]) {
        assert Accounted(w.session, w.batches[i]);
      }
    }
  }

  lemma {:induction false} RunKeeps(w: World, ops: seq<Op>)
    requires Sound(w) && Fresh(w.used, ops)
    ensures Sound(Run(w, ops))
    decreases |ops|
  {
    if ops != [] {
      ApplyKeeps(w, ops[0]);
      assert Apply(w, ops[0]).used == if ops[0].DoResume? then w.used + {ops[0].incarnation} else w.used;
      hide Sound, Apply;
      RunKeeps(Apply(w, ops[0]), ops[1..]);
    }
  }

  /**
   Over every run of deliveries, failed and kept notes, stops at any point, departures and
   resumptions under fresh incarnations: if two batches on the tape both reach a body for one
   event, the earlier one recorded its settlement, under the same incarnation.
   */
  lemma {:induction false} ReplayIsFenced(first: Incarnation, ops: seq<Op>, i: nat, j: nat)
    requires Fresh({first}, ops)
    requires i < j < |Run(Begun(first), ops).batches|
    ensures var batches := Run(Begun(first), ops).batches;
            batches[i].reached && batches[j].reached && batches[i].event == batches[j].event ==>
              batches[i].settled && batches[i].instance == batches[j].instance
  {
    RunKeeps(Begun(first), ops);
  }

  /**
   An event whose batch was interrupted, or cut off by a stop, is refused for good: no later
   batch of any incarnation gets past the fence.
   */
  lemma {:induction false} BlockedForGood(w: World, ops: seq<Op>, event: string)
    requires Sound(w) && Blocked(w.session, event) && Fresh(w.used, ops)
    ensures Blocked(Run(w, ops).session, event)
    ensures w.batches <= Run(w, ops).batches
    ensures forall k | |w.batches| <= k < |Run(w, ops).batches| :: Run(w, ops).batches[k].event != event
    decreases |ops|
  {
    if ops != [] {
      var w1 := Apply(w, ops[0]);
      ApplyKeeps(w, ops[0]);
      StaysBlocked(w, ops[0], event);
      assert w1.used == if ops[0].DoResume? then w.used + {ops[0].incarnation} else w.used;
      hide Sound, Apply, Blocked;
      BlockedForGood(w1, ops[1..], event);
      forall k | |w.batches| <= k < |w1.batches| ensures Run(w, ops).batches[k].event != event {
        assert Run(w, ops).batches[k] == w1.batches[k];
      }
    }
  }

  lemma StaysBlocked(w: World, op: Op, event: string)
    requires Sound(w) && Blocked(w.session, event) && (op.DoResume? ==> op.incarnation !in w.used)
    ensures Blocked(Apply(w, op).session, event)
    ensures w.batches <= Apply(w, op).batches
    ensures forall k | |w.batches| <= k < |Apply(w, op).batches| :: Apply(w, op).batches[k].event != event
  {
    var s, s' := w.session, Apply(w, op).session;
    if op.DoDeliver? && s.live.Some? && !Fenced(s, op.event) && op.env.admitted {
      var n := Note(op.event, s.live.value.incarnation, Started);
      forall e ensures LastNote(Noted(s.notes, n, op.env.started), e) ==
                       if op.env.started != Lost && e == op.event then Some(n) else LastNote(s.notes, e)
      {
        LastNoted(s.notes, n, op.env.started, e);
      }
      if op.env.started == Landed && op.env.halt != AtStart {
        SettleLeaves(s.(notes := Noted(s.notes, n, op.env.started)), op.event, op.env);
        hide Settle;
      }
    }
    hide LastNote;
  }
}
