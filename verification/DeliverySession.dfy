/** One agent's session as the object that writes delivery notes and keeps the fence of this process. */
module DeliverySessions {
  import opened Basics
  import opened Deliveries

  class DeliverySession {
    var notes: seq<Note>
    var live: Option<Live>

    function View(): Session
      reads this
    {
      Session(notes, live)
    }

    constructor (first: Incarnation)
      ensures View() == Session([], Some(Live(first, {})))
    {
      notes, live := [], Some(Live(first, {}));
    }

    method Previous(event: string) returns (note: Option<Note>)
      ensures note == LastNote(notes, event)
    {
      var i := |notes|;
      assert notes[..i] == notes;
      while i > 0
        invariant 0 <= i <= |notes|
        invariant LastNote(notes, event) == LastNote(notes[..i], event)
      {
        i := i - 1;
        assert notes[..i + 1][..i] == notes[..i];
        if notes[i].event == event {
          return Some(notes[i]);
        }
      }
      return None;
    }

    method BatchNote(event: string, instance: Incarnation, status: Status, w: Appended) returns (ok: bool)
      modifies this`notes
      ensures notes == Noted(old(notes), Note(event, instance, status), w)
      ensures ok == (w == Landed)
    {
      if w != Lost {
        notes := notes + [Note(event, instance, status)];
      }
      return w == Landed;
    }

    /** The names of the route in order, until one ends the batch. */
    method Invoke(route: seq<Turn>, selected: bool) returns (w: Walk)
      ensures w == WalkRoute(AT_REST, route, selected)
    {
      w := AT_REST;
      for i := 0 to |route|
        invariant w.error.None?
        invariant WalkRoute(AT_REST, route, selected) == WalkRoute(w, route[i..], selected)
      {
        match route[i] {
          case Outcome(reached) => w := Walk(w.ready + 1, w.withheld, None, w.reached || reached);
          case Withheld(reached, error) =>
            if selected || error != HookDenied {
              return Walk(w.ready, true, Some(error), w.reached || reached);
            }
            w := w.(reached := w.reached || reached);
          case BodyFailed =>
            if selected {
              return Walk(w.ready, w.withheld, Some(SpoolFailed), true);
            }
            w := w.(reached := true);
          case Failed(reached, error, missingNoted) =>
            if error != NotMounted || selected {
              return Walk(w.ready, w.withheld, Some(error), w.reached || reached);
            }
            if !missingNoted {
              return Walk(w.ready, w.withheld, Some(Io), w.reached || reached);
            }
            w := w.(reached := w.reached || reached);
        }
      }
    }

    method Interrupt(event: string)
      modifies this`live
      ensures View() == Interrupted(old(View()), event)
    {
      if live.Some? {
        live := Some(live.value.(failed := live.value.failed + {event}));
      }
    }

    method SettleBatch(event: string, env: Env) returns (error: Option<Error>, batch: Batch)
      requires live.Some?
      modifies this
      ensures (View(), error, batch) == Settle(old(View()), event, env)
    {
      hide WalkRoute;
      var me := live.value.incarnation;
      if env.halt.InRoute? {
        var cut := if env.halt.after < |env.route| then env.route[..env.halt.after] else env.route;
        var w := Invoke(cut, env.selected);
        live := None;
        return Some(Io), Batch(event, me, w.reached, false);
      }
      var w := Invoke(env.route, env.selected);
      if !Clean(w) {
        Interrupt(event);
        return w.error, Batch(event, me, w.reached, false);
      }
      var noted := BatchNote(event, me, Settled, env.settled);
      if env.halt == AtSettle {
        live := None;
        return Some(Io), Batch(event, me, w.reached, false);
      }
      if !noted {
        Interrupt(event);
        return Some(Io), Batch(event, me, w.reached, false);
      }
      return w.error, Batch(event, me, w.reached, true);
    }

    method DeliverBatch(event: string, env: Env) returns (error: Option<Error>, batch: Option<Batch>)
      modifies this
      ensures (View(), error, batch) == Deliver(old(View()), event, env)
    {
      hide Settle, LastNote;
      if live.None? {
        return Some(Inactive), None;
      }
      if event in live.value.failed {
        return Some(Unsettled), None;
      }
      var previous := Previous(event);
      if previous.Some? && (previous.value.status != Settled || previous.value.instance != live.value.incarnation) {
        return Some(Unsettled), None;
      }
      if !env.admitted {
        return Some(HookDenied), None;
      }
      var noted := BatchNote(event, live.value.incarnation, Started, env.started);
      if env.halt == AtStart {
        live := None;
        return Some(Io), None;
      }
      if !noted {
        return Some(Io), None;
      }
      var e, b := SettleBatch(event, env);
      return e, Some(b);
    }

    method ResumeSession(incarnation: Incarnation, recorded: bool)
      modifies this
      ensures View() == Resume(old(View()), incarnation, recorded)
    {
      if live.Some? || !recorded {
        return;
      }
      live := Some(Live(incarnation, {}));
    }

    method Leave()
      modifies this
      ensures View() == old(View()).(live := None)
    {
      live := None;
    }
  }
}
