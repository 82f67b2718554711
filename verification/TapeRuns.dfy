/**
 What holds of the tape over every run: appends that succeed or stop after any byte,
 repairs that stop at any point, reads and reopenings, in any order, from an empty tape.
 */
module TapeRuns {
  import opened Basics
  import opened Tape

  // ---------------------------------------------------------------- layouts

  function Lines(c: Codec, events: seq<Memevent>): Bytes {
    if events == [] then [] else c.encode(events[0]) + [NEWLINE] + Lines(c, events[1..])
  }

  /** How a tape may end: after a newline, after a whole unterminated line, or inside a line. */
  datatype Residue = Closed | Open | Fragment(bytes: Bytes)

  ghost predicate IsFragment(c: Codec, f: Bytes) {
    exists e: Memevent :: f != [] && f < c.encode(e)
  }

  ghost predicate Layout(c: Codec, file: Bytes, events: seq<Memevent>, r: Residue) {
    match r
    case Closed => file == Lines(c, events)
    case Open => events != [] && file + [NEWLINE] == Lines(c, events)
    case Fragment(f) => IsFragment(c, f) && file == Lines(c, events) + f
  }

  lemma {:induction false} LinesSnoc(c: Codec, events: seq<Memevent>, e: Memevent)
    ensures Lines(c, events + [e]) == Lines(c, events) + c.encode(e) + [NEWLINE]
  {
    if events == [] {
      assert ([e])[1..] == [];
    } else {
      LinesSnoc(c, events[1..], e);
      assert (events + [e])[1..] == events[1..] + [e];
    }
  }

  lemma {:induction false} LinesEnd(c: Codec, events: seq<Memevent>)
    requires Lawful(c)
    ensures events != [] ==> |Lines(c, events)| > 1 && Lines(c, events)[|Lines(c, events)| - 1] == NEWLINE
                             && Lines(c, events)[|Lines(c, events)| - 2] != NEWLINE
    ensures events == [] ==> Lines(c, events) == []
  {
    if events != [] {
      var last := events[|events| - 1];
      LinesSnoc(c, events[..|events| - 1], last);
      assert events == events[..|events| - 1] + [last];
      assert c.encode(last)[|c.encode(last)| - 1] in c.encode(last);
    }
  }

  // ---------------------------------------------------------------- scanning is the inverse of printing

  /** Where a line that opens at `start` ends, and what it holds. */
  lemma WholeLine(bytes: Bytes, start: nat, text: Bytes, rest: Bytes)
    requires start <= |bytes| && NEWLINE !in text && text != [] && text[0] == 123
    requires bytes[start..] == text + [NEWLINE] + rest
    ensures var end := start + |text| + 1;
            && start < end <= |bytes| && bytes[end..] == rest && NextLine(bytes, start) == (end, true)
            && bytes[start..end] == text + [NEWLINE] && !Blank(bytes[start..end])
  {
    var end := start + |text| + 1;
    LineEndAt(text, rest);
    assert |bytes[start..]| == |text| + 1 + |rest|;
    assert bytes[start..end] == bytes[start..][..|text| + 1] == text + [NEWLINE];
    assert bytes[end..] == bytes[start..][|text| + 1..];
    assert !Blank(bytes[start..end]) by {
      assert bytes[start..end][0] == 123;
    }
  }

  /** One whole line at `start` is read as its event. */
  lemma ScanOneLine(c: Codec, bytes: Bytes, start: nat, line: nat, acc: seq<Memevent>, e: Memevent, rest: Bytes)
    requires Lawful(c) && Validates(e) && start <= |bytes|
    requires bytes[start..] == c.encode(e) + [NEWLINE] + rest
    ensures start + |c.encode(e)| + 1 <= |bytes| && bytes[start + |c.encode(e)| + 1..] == rest
    ensures ScanFrom(c, bytes, start, line, acc) == ScanFrom(c, bytes, start + |c.encode(e)| + 1, line + 1, acc + [e])
  {
    var text := c.encode(e);
    assert NEWLINE !in text && c.decode(text + [NEWLINE]) == Some(e);
    hide Lawful, NextLine, Blank, Validates, ScanFrom;
    WholeLine(bytes, start, text, rest);
    ScanWhole(c, bytes, start, line, acc, e, start + |text| + 1);
  }

  lemma ScanWhole(c: Codec, bytes: Bytes, start: nat, line: nat, acc: seq<Memevent>, e: Memevent, end: nat)
    requires start < end <= |bytes| && NextLine(bytes, start) == (end, true) && !Blank(bytes[start..end])
    requires c.decode(bytes[start..end]) == Some(e) && Validates(e)
    ensures ScanFrom(c, bytes, start, line, acc) == ScanFrom(c, bytes, end, line + 1, acc + [e])
  {
    hide NextLine, Blank, Validates;
  }

  /** A last stretch without a newline is read as an event, or found torn. */
  lemma ScanLastStretch(c: Codec, bytes: Bytes, start: nat, line: nat, acc: seq<Memevent>)
    requires Lawful(c) && start < |bytes| && NEWLINE !in bytes[start..] && bytes[start] == 123
    ensures match c.decode(bytes[start..])
            case None => ScanFrom(c, bytes, start, line, acc) == Torn(acc, start)
            case Some(e) => Validates(e) ==> ScanFrom(c, bytes, start, line, acc) == Whole(acc + [e])
  {
    assert bytes[start..|bytes|] == bytes[start..];
    assert !Blank(bytes[start..]) by {
      assert bytes[start..][0] == 123;
    }
  }

  ghost predicate AllValid(events: seq<Memevent>) {
    forall i | 0 <= i < |events| :: Validates(events[i])
  }

  /** Scanning a laid-out tape gives back exactly the events that were printed. */
  lemma {:induction false} ScanLayout(c: Codec, bytes: Bytes, start: nat, line: nat, acc: seq<Memevent>, events: seq<Memevent>, r: Residue)
    requires Lawful(c) && AllValid(events) && start <= |bytes| && Layout(c, bytes[start..], events, r)
    ensures match r
            case Fragment(f) => |f| <= |bytes| && ScanFrom(c, bytes, start, line, acc) == Torn(acc + events, |bytes| - |f|)
            case _ => ScanFrom(c, bytes, start, line, acc) == Whole(acc + events)
    decreases |events|
  {
    hide ScanFrom, Layout, Lines;
    if events == [] {
      ScanRemainder(c, bytes, start, line, acc, r);
      assert acc + events == acc;
    } else if r.Open? && |events| == 1 {
      ScanOpenLine(c, bytes, start, line, acc, events);
    } else {
      var e := events[0];
      var rest := SplitLayout(c, bytes[start..], events, r);
      ScanOneLine(c, bytes, start, line, acc, e, rest);
      ScanLayout(c, bytes, start + |c.encode(e)| + 1, line + 1, acc + [e], events[1..], r);
      assert acc + [e] + events[1..] == acc + events;
    }
  }

  lemma ScanRemainder(c: Codec, bytes: Bytes, start: nat, line: nat, acc: seq<Memevent>, r: Residue)
    requires Lawful(c) && start <= |bytes| && Layout(c, bytes[start..], [], r)
    ensures match r
            case Fragment(f) => |f| <= |bytes| && ScanFrom(c, bytes, start, line, acc) == Torn(acc, |bytes| - |f|)
            case _ => ScanFrom(c, bytes, start, line, acc) == Whole(acc)
  {
    if r.Fragment? {
      FragmentLaws(c, r.bytes);
      assert bytes[start..] == Lines(c, []) + r.bytes == r.bytes;
      ScanLastStretch(c, bytes, start, line, acc);
    }
  }

  lemma ScanOpenLine(c: Codec, bytes: Bytes, start: nat, line: nat, acc: seq<Memevent>, events: seq<Memevent>)
    requires Lawful(c) && AllValid(events) && start <= |bytes| && |events| == 1 && Layout(c, bytes[start..], events, Open)
    ensures ScanFrom(c, bytes, start, line, acc) == Whole(acc + events)
  {
    var text := c.encode(events[0]);
    assert Lines(c, events[1..]) == [];
    assert bytes[start..] == (bytes[start..] + [NEWLINE])[..|text|] == text;
    ScanLastStretch(c, bytes, start, line, acc);
    assert events == [events[0]];
  }

  lemma FragmentLaws(c: Codec, f: Bytes)
    requires Lawful(c) && IsFragment(c, f)
    ensures f != [] && f[0] == 123 && NEWLINE !in f && c.decode(f) == None
  {
    var e: Memevent :| f != [] && f < c.encode(e);
    assert f == c.encode(e)[..|f|];
  }

  lemma SplitLayout(c: Codec, file: Bytes, events: seq<Memevent>, r: Residue) returns (rest: Bytes)
    requires Layout(c, file, events, r) && events != [] && (r.Open? ==> |events| > 1)
    ensures file == c.encode(events[0]) + [NEWLINE] + rest && Layout(c, rest, events[1..], r)
  {
    var head := c.encode(events[0]) + [NEWLINE];
    match r {
      case Closed => rest := Lines(c, events[1..]);
      case Fragment(f) => rest := Lines(c, events[1..]) + f;
      case Open =>
        var tail := Lines(c, events[1..]);
        assert tail == c.encode(events[1]) + [NEWLINE] + Lines(c, events[1..][1..]);
        rest := tail[..|tail| - 1];
        assert file + [NEWLINE] == head + tail;
        assert tail[|tail| - 1] == (file + [NEWLINE])[|file|];
        assert file == (head + tail)[..|file|] == head + rest;
        assert rest + [NEWLINE] == tail;
    }
  }

  // ---------------------------------------------------------------- the invariant

  /** Numbers run from 1 without a gap, and the cache, when present, agrees with the file. */
  ghost predicate Healthy(c: Codec, st: Store, events: seq<Memevent>, r: Residue) {
    && Layout(c, st.file, events, r)
    && AllValid(events)
    && (forall i | 0 <= i < |events| :: events[i].number == i + 1)
    && (st.next.Some? ==> !r.Fragment? && st.next.value == |events| + 1 && st.needsNewline == r.Open?)
  }

  /** The layout after a scan that finished. */
  function Healed(r: Residue): Residue {
    if r.Open? then Open else Closed
  }

  /** Only an open line ends without a newline; a fragment is what follows the whole lines. */
  lemma LayoutEnds(c: Codec, file: Bytes, events: seq<Memevent>, r: Residue)
    requires Lawful(c) && Layout(c, file, events, r)
    ensures r.Open? ==> EndsOpen(file)
    ensures r.Closed? ==> !EndsOpen(file)
    ensures r.Fragment? ==> |r.bytes| <= |file| && Layout(c, Prefix(file, |file| - |r.bytes|), events, Closed)
  {
    LinesEnd(c, events);
    match r {
      case Fragment(f) => assert Prefix(file, |file| - |f|) == Lines(c, events);
      case Open => assert file == Lines(c, events)[..|file|];
      case Closed =>
    }
  }

  /** A repair, finished or not, keeps the events; a finished one returns them. */
  lemma HealKeeps(c: Codec, st: Store, stamp: string, fault: HealFault, events: seq<Memevent>, r: Residue)
    requires Lawful(c) && Healthy(c, st, events, r) && st.next == None
    ensures var (st', result) := Heal(c, st, stamp, fault);
            && st'.next == None
            && (result.Ok? ==> result.value == events && Healthy(c, st', events, Healed(r)) && st'.needsNewline == r.Open?)
            && (result.Err? ==> result.error == Io && fault != NoFault)
            && (result.Err? ==> Healthy(c, st', events, r) || Healthy(c, st', events, Closed))
  {
    hide Layout, Lawful, ScanFrom, Evidence, EndsOpen, Prefix;
    assert st.file[0..] == st.file && [] + events == events;
    ScanLayout(c, st.file, 0, 0, [], events, r);
    LayoutEnds(c, st.file, events, r);
  }

  lemma ReserveKeeps(c: Codec, st: Store, stamp: string, fault: HealFault, events: seq<Memevent>, r: Residue)
    requires Lawful(c) && Healthy(c, st, events, r)
    ensures var (st', reserved) := Reserve(c, st, stamp, fault);
            && (reserved.Ok? ==> reserved.value == |events| + 1 && Healthy(c, st', events, Healed(r)) && st'.next.Some?)
            && (reserved.Err? ==> reserved.error == Io && fault != NoFault && st'.next == None)
            && (reserved.Err? ==> Healthy(c, st', events, r) || Healthy(c, st', events, Closed))
  {
    if st.next == None {
      HealKeeps(c, st, stamp, fault, events, r);
    }
  }

  /** The first `k` bytes of a line, put after a laid-out file, leave a laid-out file. */
  lemma PrefixLayout(c: Codec, file: Bytes, e: Memevent, line: Bytes, k: nat, events: seq<Memevent>, r: Residue)
    returns (kept: bool, r': Residue)
    requires Lawful(c) && Layout(c, file, events, r) && !r.Fragment?
    requires line == (if r.Open? then [NEWLINE] else []) + c.encode(e) + [NEWLINE]
    ensures Layout(c, file + Prefix(line, k), if kept then events + [e] else events, r')
    ensures k >= |line| ==> kept && r' == Closed
  {
    var text := c.encode(e);
    LinesSnoc(c, events, e);
    hide Lines;
    assert file + line == Lines(c, events + [e]);
    if k >= |line| {
      kept, r' := true, Closed;
    } else if r.Open? && k == 0 {
      kept, r' := false, Open;
      assert file + Prefix(line, k) == file;
    } else {
      var m := if r.Open? then k - 1 else k;
      assert file + Prefix(line, k) == Lines(c, events) + text[..m];
      if m == 0 {
        kept, r' := false, Closed;
      } else if m == |text| {
        kept, r' := true, Open;
        assert text[..m] == text;
      } else {
        kept, r' := false, Fragment(text[..m]);
        assert text[..m] < text;
      }
    }
  }

  /** A write that stops after `k` bytes leaves the new event whole or not at all. */
  lemma WriteKeeps(c: Codec, st: Store, e: Memevent, write: WriteFault, events: seq<Memevent>, r: Residue)
    returns (kept: bool, r': Residue)
    requires Lawful(c) && Healthy(c, st, events, r) && st.next.Some?
    requires Validates(e) && e.number == |events| + 1
    ensures var (st', result) := WriteLine(c, st, e, write);
            && Healthy(c, st', if kept then events + [e] else events, r')
            && (result.Ok? ==> kept && result.value == e)
  {
    hide Layout, Lawful;
    var line := Line(c, st, e);
    match write {
      case Written =>
        kept, r' := PrefixLayout(c, st.file, e, line, |line|, events, r);
        assert Prefix(line, |line|) == line;
      case StopsAfter(k) =>
        kept, r' := PrefixLayout(c, st.file, e, line, k, events, r);
    }
  }

  // ---------------------------------------------------------------- runs

  datatype Op =
    | DoAppend(input: AppendEvent, id: string, ts: string, heal: HealFault, write: WriteFault)
    | DoRead(stamp: string, fault: HealFault)
    | DoReopen

  /** One write that was started, and whether its caller got Ok. */
  datatype Attempt = Attempt(event: Memevent, acknowledged: bool)

  /** The store, every write started so far, and every stretch of bytes the tape has lost. */
  datatype World = World(store: Store, attempts: seq<Attempt>, removed: seq<Bytes>)

  function Apply(c: Codec, st: Store, op: Op): Store {
    match op
    case DoAppend(input, id, ts, heal, write) => Append(c, st, input, id, ts, heal, write).0
    case DoRead(stamp, fault) => ReadAll(c, st, stamp, fault).0
    case DoReopen => Reopen(st)
  }

  /** The write an operation starts, if it gets that far. */
  function Attempts(c: Codec, st: Store, op: Op): seq<Attempt> {
    match op
    case DoAppend(input, id, ts, heal, write) =>
      var reserved := Reserve(c, st, ts, heal).1;
      if reserved.Err? then []
      else
        var event := Memevent(1, id, reserved.value, ts, input);
        if Validates(event) then [Attempt(event, Append(c, st, input, id, ts, heal, write).1.Ok?)] else []
    case _ => []
  }

  /** The store after the repair an operation begins with, and before it writes a line. */
  function Repaired(c: Codec, st: Store, op: Op): Store {
    match op
    case DoAppend(_, _, ts, heal, _) => Reserve(c, st, ts, heal).0
    case _ => Apply(c, st, op)
  }

  /** The bytes a cut removes from the end. */
  function Cut(before: Bytes, after: Bytes): seq<Bytes> {
    if |after| < |before| then [before[|after|..]] else []
  }

  function Step(c: Codec, w: World, op: Op): World {
    World(Apply(c, w.store, op), w.attempts + Attempts(c, w.store, op),
          w.removed + Cut(w.store.file, Repaired(c, w.store, op).file))
  }

  function Run(c: Codec, w: World, ops: seq<Op>): World
    decreases |ops|
  {
    if ops == [] then w else Run(c, Step(c, w, ops[0]), ops[1..])
  }

  const START := World(EMPTY, [], [])

  /** The attempted events that are on the tape, in the order they were attempted. */
  function Kept(attempts: seq<Attempt>, kept: seq<bool>): seq<Memevent>
    requires |attempts| == |kept|
  {
    if attempts == [] then []
    else
      var n := |attempts| - 1;
      Kept(attempts[..n], kept[..n]) + if kept[n] then [attempts[n].event] else []
  }

  ghost predicate Explains(attempts: seq<Attempt>, kept: seq<bool>, events: seq<Memevent>) {
    && |kept| == |attempts|
    && (forall i | 0 <= i < |kept| :: attempts[i].acknowledged ==> kept[i])
    && Kept(attempts, kept) == events
  }

  lemma ExplainsSnoc(attempts: seq<Attempt>, kept: seq<bool>, events: seq<Memevent>, a: Attempt, k: bool)
    requires Explains(attempts, kept, events) && (a.acknowledged ==> k)
    ensures Explains(attempts + [a], kept + [k], if k then events + [a.event] else events)
  {
    assert (attempts + [a])[..|attempts|] == attempts;
    assert (kept + [k])[..|kept|] == kept;
    if !k {
      assert events + [] == events;
    }
  }

  /** Some choice of kept attempts explains the tape, and no write is lost that was acknowledged. */
  ghost predicate Sound(c: Codec, w: World, events: seq<Memevent>) {
    && (exists r :: Healthy(c, w.store, events, r))
    && (exists kept :: Explains(w.attempts, kept, events))
    && (forall i | 0 <= i < |w.removed| :: Occurs(w.removed[i], w.store.side))
  }

  /**
   Over every tape, lawful or not: an operation first cuts at most one tail, which the side
   file then already holds, and after that only adds bytes.
   */
  lemma EvidenceFirst(c: Codec, st: Store, op: Op)
    ensures var (mid, st') := (Repaired(c, st, op), Apply(c, st, op));
            && st.side <= mid.side == st'.side
            && mid.file <= st.file
            && mid.file <= st'.file
            && (forall lost | lost in Cut(st.file, mid.file) :: Occurs(lost, mid.side))
  {
    match op {
      case DoAppend(input, id, ts, heal, write) =>
        if st.next == None {
          HealEvidence(c, st, ts, heal);
        }
      case DoRead(stamp, fault) => HealEvidence(c, st.(next := None), stamp, fault);
      case DoReopen =>
    }
  }

  lemma HealEvidence(c: Codec, st: Store, stamp: string, fault: HealFault)
    ensures var st' := Heal(c, st, stamp, fault).0;
            && st.side <= st'.side
            && st'.file <= st.file
            && (forall lost | lost in Cut(st.file, st'.file) :: Occurs(lost, st'.side))
  {
    hide ScanAll, ScanFrom, Evidence, EndsOpen, Occurs;
    match ScanAll(c, st.file) {
      case Torn(events, offset) =>
        var torn := Suffix(st.file, offset);
        EvidenceHolds(stamp, torn);
        OccursAfter(torn, st.side, Evidence(stamp, torn));
      case _ =>
    }
  }

  lemma EvidenceHolds(stamp: string, torn: Bytes)
    ensures Occurs(torn, Evidence(stamp, torn))
  {
    var header := Ascii("# quarantined ") + Ascii(stamp) + Ascii(" (") + Decimal(|torn|) + Ascii(" bytes)\n");
    OccursBetween(header, torn, if torn != [] && torn[|torn| - 1] == NEWLINE then [] else [NEWLINE]);
  }

  /** Some choice of kept writes, extending this one, explains the state. */
  ghost predicate Continues(c: Codec, st: Store, attempts: seq<Attempt>, events: seq<Memevent>, kept: seq<bool>) {
    exists events', r', kept' ::
      Healthy(c, st, events', r') && Explains(attempts, kept', events') && events <= events' && kept <= kept'
  }

  lemma AppendContinues(c: Codec, w: World, op: Op, events: seq<Memevent>, r: Residue, kept: seq<bool>)
    requires Lawful(c) && Healthy(c, w.store, events, r) && Explains(w.attempts, kept, events) && op.DoAppend?
    ensures Continues(c, Apply(c, w.store, op), w.attempts + Attempts(c, w.store, op), events, kept)
  {
    hide Lawful, Healthy, Explains, Reserve, WriteLine;
    ReserveKeeps(c, w.store, op.ts, op.heal, events, r);
    var (st1, reserved) := Reserve(c, w.store, op.ts, op.heal);
    if reserved.Ok? && op.id != "" {
      var e := Memevent(1, op.id, reserved.value, op.ts, op.input);
      var keep, r' := WriteKeeps(c, st1, e, op.write, events, Healed(r));
      var a := Attempt(e, WriteLine(c, st1, e, op.write).1.Ok?);
      ExplainsSnoc(w.attempts, kept, events, a, keep);
      assert kept <= kept + [keep];
    } else {
      assert w.attempts + [] == w.attempts;
    }
  }

  lemma StepKeeps(c: Codec, w: World, op: Op, events: seq<Memevent>, r: Residue, kept: seq<bool>)
    requires Lawful(c) && Healthy(c, w.store, events, r) && Explains(w.attempts, kept, events)
    ensures Continues(c, Step(c, w, op).store, Step(c, w, op).attempts, events, kept)
  {
    assert w.attempts + [] == w.attempts;
    match op {
      case DoAppend(_, _, _, _, _) =>
        hide Lawful, Healthy, Explains, Apply, Attempts, Continues;
        AppendContinues(c, w, op, events, r, kept);
      case DoRead(stamp, fault) =>
        assert Healthy(c, w.store.(next := None), events, r);
        hide Lawful, Healthy, Explains, Heal;
        HealKeeps(c, w.store.(next := None), stamp, fault, events, r);
      case DoReopen =>
        assert Healthy(c, Reopen(w.store), events, r);
        hide Lawful, Healthy, Explains;
    }
  }

  lemma StepOccurs(c: Codec, w: World, op: Op)
    requires forall i | 0 <= i < |w.removed| :: Occurs(w.removed[i], w.store.side)
    ensures var w' := Step(c, w, op); forall i | 0 <= i < |w'.removed| :: Occurs(w'.removed[i], w'.store.side)
  {
    hide Apply, Attempts, Repaired, Cut, Occurs;
    EvidenceFirst(c, w.store, op);
    var w' := Step(c, w, op);
    var cut := Cut(w.store.file, Repaired(c, w.store, op).file);
    forall i | 0 <= i < |w'.removed| ensures Occurs(w'.removed[i], w'.store.side) {
      if i < |w.removed| {
        var more := w'.store.side[|w.store.side|..];
        assert w'.store.side == w.store.side + more;
        OccursInExtension(w.removed[i], w.store.side, more);
      } else {
        assert w'.removed[i] in cut;
      }
    }
  }

  lemma StepSound(c: Codec, w: World, op: Op, events: seq<Memevent>) returns (events': seq<Memevent>)
    requires Lawful(c) && Sound(c, w, events)
    ensures Sound(c, Step(c, w, op), events') && events <= events'
  {
    hide Lawful, Healthy, Explains, Step, Occurs;
    var r :| Healthy(c, w.store, events, r);
    var kept :| Explains(w.attempts, kept, events);
    StepKeeps(c, w, op, events, r, kept);
    StepOccurs(c, w, op);
    var w' := Step(c, w, op);
    var es, r', kept' :| Healthy(c, w'.store, es, r') && Explains(w'.attempts, kept', es) && events <= es && kept <= kept';
    events' := es;
  }

  lemma {:induction false} RunSound(c: Codec, w: World, ops: seq<Op>, events: seq<Memevent>) returns (events': seq<Memevent>)
    requires Lawful(c) && Sound(c, w, events)
    ensures Sound(c, Run(c, w, ops), events') && events <= events'
    decreases |ops|
  {
    if ops == [] {
      events' := events;
    } else {
      var mid := StepSound(c, w, ops[0], events);
      events' := RunSound(c, Step(c, w, ops[0]), ops[1..], mid);
    }
  }

  lemma StartSound(c: Codec)
    ensures Sound(c, START, [])
  {
    assert Healthy(c, START.store, [], Closed);
    assert Explains([], [], []);
  }

  /** A read that meets no fault answers with exactly the events the invariant speaks of. */
  lemma ReadAnswers(c: Codec, w: World, stamp: string, events: seq<Memevent>)
    requires Lawful(c) && Sound(c, w, events)
    ensures ReadAll(c, w.store, stamp, NoFault).1 == Ok(events)
  {
    var r :| Healthy(c, w.store, events, r);
    HealKeeps(c, w.store.(next := None), stamp, NoFault, events, r);
  }

  /**
   After any run from an empty tape, a read that meets no I/O failure reports no corruption.
   Its events are numbered 1..n; they are attempted events in the order of the attempts, and
   among them is every acknowledged one. Every byte the tape ever lost is in the side file.
   */
  lemma {:induction false} NoRunCorrupts(c: Codec, ops: seq<Op>, stamp: string)
    requires Lawful(c)
    ensures var w := Run(c, START, ops);
            var answer := ReadAll(c, w.store, stamp, NoFault).1;
            && answer.Ok?
            && (forall i | 0 <= i < |answer.value| :: answer.value[i].number == i + 1)
            && (exists kept :: Explains(w.attempts, kept, answer.value))
            && (forall i | 0 <= i < |w.removed| :: Occurs(w.removed[i], w.store.side))
  {
    StartSound(c);
    var events := RunSound(c, START, ops, []);
    ReadAnswers(c, Run(c, START, ops), stamp, events);
  }

  /** No failing read or append ever reports corruption: the only error of any run is I/O. */
  lemma {:induction false} OnlyIoFails(c: Codec, ops: seq<Op>, op: Op)
    requires Lawful(c) && (op.DoAppend? ==> op.id != "")
    ensures var st := Run(c, START, ops).store;
            match op
            case DoAppend(input, id, ts, heal, write) =>
              var r := Append(c, st, input, id, ts, heal, write).1;
              (r.Err? ==> r.error == Io) && (heal == NoFault && write == Written ==> r.Ok?)
            case DoRead(stamp, fault) =>
              var r := ReadAll(c, st, stamp, fault).1;
              (r.Err? ==> r.error == Io) && (fault == NoFault ==> r.Ok?)
            case DoReopen => true
  {
    StartSound(c);
    var events := RunSound(c, START, ops, []);
    var st := Run(c, START, ops).store;
    var r :| Healthy(c, st, events, r);
    match op {
      case DoAppend(input, id, ts, heal, write) => ReserveKeeps(c, st, ts, heal, events, r);
      case DoRead(stamp, fault) => HealKeeps(c, st.(next := None), stamp, fault, events, r);
      case DoReopen =>
    }
  }

  /** What one read served, every later read serves again, under the same numbers. */
  lemma {:induction false} ServedForever(c: Codec, ops: seq<Op>, more: seq<Op>, stamp: string, stamp': string)
    requires Lawful(c)
    ensures var first := ReadAll(c, Run(c, START, ops).store, stamp, NoFault).1;
            var later := ReadAll(c, Run(c, START, ops + more).store, stamp', NoFault).1;
            first.Ok? && later.Ok? && first.value <= later.value
  {
    StartSound(c);
    var w := Run(c, START, ops);
    var events := RunSound(c, START, ops, []);
    var events' := RunSound(c, w, more, events);
    RunConcat(c, START, ops, more);
    ReadAnswers(c, w, stamp, events);
    ReadAnswers(c, Run(c, w, more), stamp', events');
  }

  lemma {:induction false} RunConcat(c: Codec, w: World, ops: seq<Op>, more: seq<Op>)
    ensures Run(c, w, ops + more) == Run(c, Run(c, w, ops), more)
    decreases |ops|
  {
    hide Step;
    if ops == [] {
      assert ops + more == more;
    } else {
      RunConcat(c, Step(c, w, ops[0]), ops[1..], more);
      assert (ops + more)[1..] == ops[1..] + more;
    }
  }

  /** An undisturbed append after any run is read back last, with the next number. */
  lemma {:induction false} AppendIsReadBack(c: Codec, ops: seq<Op>, input: AppendEvent, id: string, ts: string, stamp: string)
    requires Lawful(c) && id != ""
    ensures var st := Run(c, START, ops).store;
            var before := ReadAll(c, st, stamp, NoFault).1;
            var (st', appended) := Append(c, st, input, id, ts, NoFault, Written);
            && before.Ok? && appended == Ok(Memevent(1, id, |before.value| + 1, ts, input))
            && ReadAll(c, st', stamp, NoFault).1 == Ok(before.value + [appended.value])
  {
    StartSound(c);
    var w := Run(c, START, ops);
    var events := RunSound(c, START, ops, []);
    ReadAnswers(c, w, stamp, events);
    var r :| Healthy(c, w.store, events, r);
    ReserveKeeps(c, w.store, ts, NoFault, events, r);
    var st1 := Reserve(c, w.store, ts, NoFault).0;
    var e := Memevent(1, id, |events| + 1, ts, input);
    var kept, r' := WriteKeeps(c, st1, e, Written, events, Healed(r));
    HealKeeps(c, WriteLine(c, st1, e, Written).0.(next := None), stamp, NoFault, events + [e], r');
  }
}
