/** One delivery batch: which turn ends its route, when it may be settled, and who may deliver again. */
module DeliveryRoutes {
  import opened Basics
  import opened Deliveries
  import opened DeliveryRuns

  // ---------------------------------------------------------------- the turns of a route

  predicate ReachesBody(t: Turn) {
    t.BodyFailed? || t.reached
  }

  /** The error with which a turn ends its route. A delivery to one selected name ends at every failure. */
  function EndOf(t: Turn, selected: bool): Option<Error> {
    match t
    case Outcome(_) => None
    case Withheld(_, error) => if error == HookDenied && !selected then None else Some(error)
    case BodyFailed => if selected then Some(SpoolFailed) else None
    case Failed(_, error, missingNoted) => if error == NotMounted && !selected then (if missingNoted then None else Some(Io)) else Some(error)
  }

  predicate EndsNowhere(route: seq<Turn>, selected: bool) {
    forall i | 0 <= i < |route| :: EndOf(route[i], selected) == None
  }

  /** The first turn that ends the route. */
  predicate EndsAt(route: seq<Turn>, selected: bool, k: nat) {
    k < |route| && EndOf(route[k], selected).Some? && EndsNowhere(route[..k], selected)
  }

  predicate HasOutcome(route: seq<Turn>) {
    exists i | 0 <= i < |route| :: route[i].Outcome?
  }

  predicate HasReached(route: seq<Turn>) {
    exists i | 0 <= i < |route| :: ReachesBody(route[i])
  }

  // ---------------------------------------------------------------- the walk

  lemma {:induction false} WalkPasses(w: Walk, route: seq<Turn>, selected: bool, rest: seq<Turn>)
    requires w.error.None? && EndsNowhere(route, selected)
    ensures var w' := WalkRoute(w, route, selected);
            && WalkRoute(w, route + rest, selected) == WalkRoute(w', rest, selected)
            && w'.error.None? && w'.withheld == w.withheld
            && (w'.ready > 0 <==> w.ready > 0 || HasOutcome(route))
            && (w'.reached <==> w.reached || HasReached(route))
    decreases |route|
  {
    if route == [] {
      assert route + rest == rest;
    } else {
      var (t, more) := (route[0], route[1..]);
      assert EndOf(t, selected) == None;
      assert (route + rest)[1..] == more + rest;
      WalkPasses(Take(w, t, selected), more, selected, rest);
      assert HasOutcome(route) <==> t.Outcome? || HasOutcome(more) by {
        assert forall i | 0 <= i < |more| :: more[i] == route[i + 1];
        assert forall i | 1 <= i < |route| :: route[i] == more[i - 1];
      }
      assert HasReached(route) <==> ReachesBody(t) || HasReached(more) by {
        assert forall i | 0 <= i < |more| :: more[i] == route[i + 1];
        assert forall i | 1 <= i < |route| :: route[i] == more[i - 1];
      }
    }
  }

  lemma WalkStops(w: Walk, route: seq<Turn>, selected: bool)
    requires w.error.None? && route != [] && EndOf(route[0], selected).Some?
    ensures var w' := WalkRoute(w, route, selected);
            && w'.error == EndOf(route[0], selected) && w'.ready == w.ready
            && w'.withheld == (w.withheld || route[0].Withheld?) && w'.reached == (w.reached || ReachesBody(route[0]))
  {
    var w1 := Take(w, route[0], selected);
    assert w1.error == EndOf(route[0], selected);
    assert WalkRoute(w1, route[1..], selected) == w1;
  }

  /** The turns that are taken: all of them, or those up to the one that ends the route. */
  ghost function Taken(route: seq<Turn>, selected: bool): (taken: seq<Turn>)
    ensures if EndsNowhere(route, selected) then taken == route else exists k: nat :: EndsAt(route, selected, k) && taken == route[..k + 1]
  {
    if EndsNowhere(route, selected) then route
    else
      FirstEnd(route, selected);
      var k: nat :| EndsAt(route, selected, k);
      route[..k + 1]
  }

  lemma {:induction false} FirstEnd(route: seq<Turn>, selected: bool)
    requires !EndsNowhere(route, selected)
    ensures exists k: nat :: EndsAt(route, selected, k)
    decreases |route|
  {
    hide EndOf;
    var n := |route| - 1;
    if EndsNowhere(route[..n], selected) {
      assert EndsAt(route, selected, n);
    } else {
      FirstEnd(route[..n], selected);
      var k: nat :| EndsAt(route[..n], selected, k);
      assert route[..n][..k] == route[..k];
      assert EndsAt(route, selected, k);
    }
  }

  /** A walk in terms of the route alone. */
  lemma WalkThrough(route: seq<Turn>, selected: bool)
    requires EndsNowhere(route, selected)
    ensures var w := WalkRoute(AT_REST, route, selected); w.error == None && !w.withheld && w.reached == HasReached(route)
  {
    WalkPasses(AT_REST, route, selected, []);
    assert route + [] == route;
  }

  lemma WalkEnds(route: seq<Turn>, selected: bool, k: nat)
    requires EndsAt(route, selected, k)
    ensures var w := WalkRoute(AT_REST, route, selected);
            && w.error == EndOf(route[k], selected)
            && (w.ready > 0 <==> HasOutcome(route[..k])) && w.withheld == route[k].Withheld?
            && w.reached == HasReached(route[..k + 1])
  {
    hide WalkRoute, EndOf, HasReached, HasOutcome;
    WalkPasses(AT_REST, route[..k], selected, route[k..]);
    assert route[..k] + route[k..] == route;
    assert route[k..][0] == route[k];
    NothingYet();
    WalkStops(WalkRoute(AT_REST, route[..k], selected), route[k..], selected);
    ReachedSnoc(route, k);
  }

  lemma NothingYet()
    ensures AT_REST.error.None? && AT_REST.ready == 0 && !AT_REST.withheld && !AT_REST.reached
  {
  }

  lemma ReachedSnoc(route: seq<Turn>, k: nat)
    requires k < |route|
    ensures HasReached(route[..k + 1]) <==> HasReached(route[..k]) || ReachesBody(route[k])
  {
    assert forall i | 0 <= i < k :: route[..k][i] == route[i] == route[..k + 1][i];
    assert route[..k + 1][k] == route[k];
  }

  // ---------------------------------------------------------------- when a batch is settled

  /** Nothing is left half done: the route ends nowhere, or ends before any outcome at a plain refusal. */
  ghost predicate MaySettle(route: seq<Turn>, selected: bool) {
    || EndsNowhere(route, selected)
    || exists k: nat :: EndsAt(route, selected, k) && !HasOutcome(route[..k]) && !route[k].Withheld?
                        && EndOf(route[k], selected).value in {HookDenied, SpoolFailed, NotMounted}
  }

  lemma CleanMeans(route: seq<Turn>, selected: bool)
    ensures Clean(WalkRoute(AT_REST, route, selected)) <==> MaySettle(route, selected)
  {
    hide WalkRoute, EndOf;
    if EndsNowhere(route, selected) {
      WalkThrough(route, selected);
    } else {
      FirstEnd(route, selected);
      var k: nat :| EndsAt(route, selected, k);
      WalkEnds(route, selected, k);
      forall j: nat | EndsAt(route, selected, j) ensures j == k {
        OneEnd(route, selected, j, k);
      }
    }
  }

  lemma PassesBefore(route: seq<Turn>, selected: bool, k: nat, i: nat)
    requires EndsAt(route, selected, k) && i < k
    ensures EndOf(route[i], selected) == None
  {
    assert route[..k][i] == route[i];
  }

  lemma OneEnd(route: seq<Turn>, selected: bool, j: nat, k: nat)
    requires EndsAt(route, selected, j) && EndsAt(route, selected, k)
    ensures j == k
  {
    if j < k {
      PassesBefore(route, selected, k, j);
    } else if k < j {
      PassesBefore(route, selected, j, k);
    }
  }

  /** Whether a body is reached, in terms of the turns that are taken. */
  lemma ReachMeans(route: seq<Turn>, selected: bool)
    ensures WalkRoute(AT_REST, route, selected).reached == HasReached(Taken(route, selected))
    ensures WalkRoute(AT_REST, route, selected).error == None <==> EndsNowhere(route, selected)
    ensures WalkRoute(AT_REST, route, selected).error.Some? ==>
              exists k: nat :: EndsAt(route, selected, k) && WalkRoute(AT_REST, route, selected).error == EndOf(route[k], selected)
  {
    hide WalkRoute, EndOf, HasReached;
    if EndsNowhere(route, selected) {
      WalkThrough(route, selected);
    } else {
      FirstEnd(route, selected);
      var taken := Taken(route, selected);
      var k: nat :| EndsAt(route, selected, k) && taken == route[..k + 1];
      WalkEnds(route, selected, k);
    }
  }

  /** The batch gets past the fence, the hooks before it, and its first note. */
  predicate Starts(s: Session, event: string, env: Env) {
    s.live.Some? && !Fenced(s, event) && env.admitted && env.started == Landed && env.halt != AtStart
  }

  /**
   A batch that is not cut short is settled exactly when its route left nothing half done and
   the note landed. A body was reached exactly if some turn up to the end of the route reached
   it. A settled batch leaves the event open to this engagement; any other one blocks it.
   */
  lemma SettledIff(s: Session, event: string, env: Env)
    requires Starts(s, event, env) && env.halt == Runs
    ensures var (s', e, b) := Deliver(s, event, env);
            && b.Some? && b.value.event == event && b.value.instance == s.live.value.incarnation
            && (b.value.settled <==> MaySettle(env.route, env.selected) && env.settled == Landed)
            && (b.value.reached <==> HasReached(Taken(env.route, env.selected)))
            && s'.live.Some? && s'.live.value.incarnation == s.live.value.incarnation
            && (Blocked(s', event) <==> !b.value.settled) && (Fenced(s', event) <==> !b.value.settled)
            && (event in s'.live.value.failed <==> !b.value.settled)
            && (e == None <==> EndsNowhere(env.route, env.selected) && b.value.settled)
            && (e.Some? ==> e == Some(Io) || exists k: nat :: EndsAt(env.route, env.selected, k) && e == EndOf(env.route[k], env.selected))
  {
    var me := s.live.value.incarnation;
    LastNoted(s.notes, Note(event, me, Started), Landed, event);
    var started := s.(notes := Noted(s.notes, Note(event, me, Started), env.started));
    LastNoted(started.notes, Note(event, me, Settled), env.settled, event);
    hide WalkRoute, Clean, MaySettle, EndOf, HasReached, LastNote;
    CleanMeans(env.route, env.selected);
    ReachMeans(env.route, env.selected);
    CleanStart(env.route, env.selected);
  }

  lemma CleanStart(route: seq<Turn>, selected: bool)
    ensures EndsNowhere(route, selected) ==> MaySettle(route, selected)
  {
  }

  /** A turn with an error after an outcome, or one that withholds an outcome, is never settled over. */
  lemma HalfDoneIsBlocked(s: Session, event: string, env: Env, k: nat)
    requires Starts(s, event, env) && EndsAt(env.route, env.selected, k) && env.halt == Runs
    requires HasOutcome(env.route[..k]) || env.route[k].Withheld?
    ensures var (s', e, b) := Deliver(s, event, env); b.Some? && !b.value.settled && Blocked(s', event) && Fenced(s', event)
  {
    SettledIff(s, event, env);
    hide EndOf, Deliver, Fenced, Blocked, HasOutcome;
    forall j: nat | EndsAt(env.route, env.selected, j) ensures j == k {
      OneEnd(env.route, env.selected, j, k);
    }
    assert !EndsNowhere(env.route, env.selected);
  }

  /** The turns a process got through before it stopped inside the route. */
  function Done(env: Env): seq<Turn>
    requires env.halt.InRoute?
  {
    if env.halt.after <= |env.route| then env.route[..env.halt.after] else env.route
  }

  /** A process that stops anywhere after the first note leaves the event blocked, whatever the last note did. */
  lemma StoppedIsBlocked(s: Session, event: string, env: Env)
    requires Starts(s, event, env) && env.halt != Runs
    ensures var (s', e, b) := Deliver(s, event, env);
            && e.Some? && b.Some? && !b.value.settled && Blocked(s', event)
            && (s'.live.None? <==> env.halt.InRoute? || MaySettle(env.route, env.selected))
            && (env.halt.InRoute? ==> b.value.reached == HasReached(Taken(Done(env), env.selected)))
  {
    var me := s.live.value.incarnation;
    LastNoted(s.notes, Note(event, me, Started), env.started, event);
    var started := s.(notes := Noted(s.notes, Note(event, me, Started), env.started));
    LastNoted(started.notes, Note(event, me, Settled), env.settled, event);
    hide WalkRoute, Clean, EndOf, HasReached, LastNote, MaySettle;
    CleanMeans(env.route, env.selected);
    ReachMeans(env.route, env.selected);
    if env.halt.InRoute? {
      ReachMeans(Done(env), env.selected);
      assert Done(env) == if env.halt.after < |env.route| then env.route[..env.halt.after] else env.route;
    }
  }

  // ---------------------------------------------------------------- who gets past the fence

  /** A delivery is refused exactly when nobody is engaged, the fence is up, or the hooks deny it; then nothing is noted. */
  lemma RefusedIff(s: Session, event: string, env: Env)
    ensures var (s', e, b) := Deliver(s, event, env);
            && (b.Some? <==> Starts(s, event, env))
            && (s.live.None? || Fenced(s, event) || !env.admitted ==> s' == s)
            && (s.live.None? ==> e == Some(Inactive))
            && (s.live.Some? && Fenced(s, event) ==> e == Some(Unsettled))
            && (s.live.Some? && !Fenced(s, event) && !env.admitted ==> e == Some(HookDenied))
            && (s.live.Some? && !Fenced(s, event) && env.admitted && !Starts(s, event, env) ==>
                  e == Some(Io) && s'.notes == Noted(s.notes, Note(event, s.live.value.incarnation, Started), env.started)
                  && s'.live == if env.halt == AtStart then None else s.live)
  {
    hide Settle, LastNote;
  }

  /** A new event passes the fence; one that was noted passes it exactly when this engagement settled it last. */
  lemma FenceMeans(s: Session, event: string)
    requires s.live.Some? && event !in s.live.value.failed
    ensures var last := LastNote(s.notes, event);
            !Fenced(s, event) <==> last.None? || last.value == Note(last.value.event, s.live.value.incarnation, Settled)
  {
    hide LastNote;
  }

  /** A session that is engaged is not taken over; otherwise a recorded resume starts afresh under its own incarnation. */
  lemma ResumeMeans(s: Session, incarnation: Incarnation, recorded: bool)
    ensures var s' := Resume(s, incarnation, recorded);
            && s'.notes == s.notes
            && (s.live.Some? ==> s' == s)
            && (s.live.None? ==> (s'.live.Some? <==> recorded))
            && (s.live.None? && recorded ==> s'.live.value.incarnation == incarnation && s'.live.value.failed == {})
  {
  }

  /** What one engagement settled, the next one does not deliver again. */
  lemma SettledThenResumed(s: Session, event: string, env: Env, incarnation: Incarnation)
    requires Starts(s, event, env) && env.halt == Runs && incarnation != s.live.value.incarnation
    ensures var left := Deliver(s, event, env).0.(live := None); Fenced(Resume(left, incarnation, true), event)
  {
    var me := s.live.value.incarnation;
    var started := s.(notes := Noted(s.notes, Note(event, me, Started), env.started));
    LastNoted(s.notes, Note(event, me, Started), Landed, event);
    LastNoted(started.notes, Note(event, me, Settled), env.settled, event);
    hide WalkRoute, Clean, LastNote;
  }
}
