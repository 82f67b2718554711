/**
 What a scan makes of any file at all, whoever wrote it: whole lines in order, good or bad,
 and then a last stretch without a newline. No law of the line format is used.
 */
module TapeLines {
  import opened Basics
  import opened TextLines
  import opened Tape
  import opened TapeRuns

  /** A whole line that a scan passes: it is blank, or it holds a valid event. */
  predicate Passes(c: Codec, line: Bytes) {
    Blank(line) || (c.decode(line + [NEWLINE]).Some? && Validates(c.decode(line + [NEWLINE]).value))
  }

  predicate AllPass(c: Codec, lines: seq<Bytes>) {
    forall i | 0 <= i < |lines| :: Passes(c, lines[i])
  }

  /** The event of such a line; a blank line holds none. */
  function EventOf(c: Codec, line: Bytes): seq<Memevent>
    requires Passes(c, line)
  {
    if Blank(line) then [] else [c.decode(line + [NEWLINE]).value]
  }

  function EventsOf(c: Codec, lines: seq<Bytes>): seq<Memevent>
    requires AllPass(c, lines)
  {
    if lines == [] then [] else EventOf(c, lines[0]) + EventsOf(c, lines[1..])
  }

  // ---------------------------------------------------------------- scanning lines

  lemma LineFound(bytes: Bytes, start: nat, text: Bytes, rest: Bytes)
    requires start <= |bytes| && NEWLINE !in text && bytes[start..] == text + [NEWLINE] + rest
    ensures var end := start + |text| + 1;
            && start < end <= |bytes| && bytes[end..] == rest && NextLine(bytes, start) == (end, true)
            && bytes[start..end] == text + [NEWLINE]
  {
    var end := start + |text| + 1;
    LineEndAt(text, rest);
    assert |bytes[start..]| == |text| + 1 + |rest|;
    assert bytes[start..end] == bytes[start..][..|text| + 1] == text + [NEWLINE];
    assert bytes[end..] == bytes[start..][|text| + 1..];
  }

  /** One line more: passed, or the end of the scan under its own number. */
  lemma ScanLine(c: Codec, bytes: Bytes, start: nat, line: nat, acc: seq<Memevent>, text: Bytes, rest: Bytes)
    requires start <= |bytes| && NEWLINE !in text && bytes[start..] == text + [NEWLINE] + rest
    ensures start + |text| + 1 <= |bytes| && bytes[start + |text| + 1..] == rest
    ensures ScanFrom(c, bytes, start, line, acc) ==
            if Passes(c, text) then ScanFrom(c, bytes, start + |text| + 1, line + 1, acc + EventOf(c, text))
            else if c.decode(text + [NEWLINE]).None? then BadLine(line + 1) else BadEvent
  {
    LineFound(bytes, start, text, rest);
    BlankLine(text);
    hide Blank, Validates, NextLine;
    assert acc + [] == acc;
  }

  lemma {:induction false} ScanLines(c: Codec, bytes: Bytes, start: nat, line: nat, acc: seq<Memevent>, lines: seq<Bytes>, rest: Bytes)
    requires start <= |bytes| && Unbroken(lines) && AllPass(c, lines) && bytes[start..] == Joined(lines) + rest
    ensures start + |Joined(lines)| <= |bytes| && bytes[start + |Joined(lines)|..] == rest
    ensures ScanFrom(c, bytes, start, line, acc) ==
            ScanFrom(c, bytes, start + |Joined(lines)|, line + |lines|, acc + EventsOf(c, lines))
    decreases |lines|
  {
    hide ScanFrom, Blank, Passes, Joined, EventOf;
    JoinedParts(lines);
    if lines == [] {
      assert bytes[start..] == rest && acc + [] == acc;
    } else {
      var (text, more) := (lines[0], lines[1..]);
      var found := EventOf(c, text);
      ThreeParts(text, Joined(more), rest);
      ScanLine(c, bytes, start, line, acc, text, Joined(more) + rest);
      ScanLines(c, bytes, start + |text| + 1, line + 1, acc + found, more, rest);
      assert acc + found + EventsOf(c, more) == acc + (found + EventsOf(c, more));
    }
  }

  /** Lines that pass take the scan to what follows them. */
  lemma ScanHead(c: Codec, lines: seq<Bytes>, rest: Bytes)
    requires Unbroken(lines) && AllPass(c, lines)
    ensures var (bytes, start) := (Joined(lines) + rest, |Joined(lines)|);
            && bytes[start..] == rest
            && ScanAll(c, bytes) == ScanFrom(c, bytes, start, |lines|, EventsOf(c, lines))
  {
    hide ScanFrom, AllPass, Joined, EventsOf;
    var bytes := Joined(lines) + rest;
    assert bytes[0..] == bytes && [] + EventsOf(c, lines) == EventsOf(c, lines);
    ScanLines(c, bytes, 0, 0, [], lines, rest);
  }

  /** The first line that does not pass ends the scan, whatever follows it. */
  lemma ScanStops(c: Codec, lines: seq<Bytes>, bad: Bytes, rest: Bytes)
    requires Unbroken(lines) && AllPass(c, lines) && NEWLINE !in bad && !Passes(c, bad)
    ensures ScanAll(c, Joined(lines) + bad + [NEWLINE] + rest) ==
            if c.decode(bad + [NEWLINE]).None? then BadLine(|lines| + 1) else BadEvent
  {
    hide ScanFrom, ScanAll, Passes, Joined, EventsOf, AllPass;
    var more := bad + [NEWLINE] + rest;
    FourParts(Joined(lines), bad, rest);
    ScanHead(c, lines, more);
    ScanLine(c, Joined(lines) + more, |Joined(lines)|, |lines|, EventsOf(c, lines), bad, rest);
  }

  /** The events of a last stretch, if it passes: a blank one holds none. */
  function TailEvents(c: Codec, tail: Bytes): seq<Memevent> {
    if Blank(tail) || c.decode(tail).None? then [] else [c.decode(tail).value]
  }

  predicate TailTorn(c: Codec, tail: Bytes) {
    !Blank(tail) && c.decode(tail).None?
  }

  /** A last stretch without a newline is torn if it does not decode; otherwise it is a line like any other. */
  lemma ScanTail(c: Codec, lines: seq<Bytes>, tail: Bytes)
    requires Unbroken(lines) && AllPass(c, lines) && NEWLINE !in tail
    ensures ScanAll(c, Joined(lines) + tail) ==
            if TailTorn(c, tail) then Torn(EventsOf(c, lines), |Joined(lines)|)
            else if !Blank(tail) && !Validates(c.decode(tail).value) then BadEvent
            else Whole(EventsOf(c, lines) + TailEvents(c, tail))
  {
    var (bytes, start, events) := (Joined(lines) + tail, |Joined(lines)|, EventsOf(c, lines));
    ScanHead(c, lines, tail);
    assert bytes[start..|bytes|] == tail && events + [] == events;
    if tail != [] {
      NoLineEnd(tail);
      hide Blank, Validates, NextLine;
    }
  }

  // ---------------------------------------------------------------- reads and appends of any file

  /**
   A whole line that does not pass: a read reports it under its number, an append that has no
   cached number refuses with the same error, and neither changes a byte of the tape or of the
   side file, whatever follows the line.
   */
  lemma CorruptLineIsReported(c: Codec, st: Store, lines: seq<Bytes>, bad: Bytes, rest: Bytes, fault: HealFault,
                              input: AppendEvent, id: string, ts: string, write: WriteFault)
    requires Unbroken(lines) && AllPass(c, lines) && NEWLINE !in bad && !Passes(c, bad)
    requires st.file == Joined(lines) + bad + [NEWLINE] + rest && st.next == None
    ensures var error := if fault == ReadFails then Io
                         else if c.decode(bad + [NEWLINE]).None? then CorruptLine(|lines| + 1) else CorruptEvent;
            && ReadAll(c, st, ts, fault) == (st.(needsNewline := false), Err(error))
            && Append(c, st, input, id, ts, fault, write) == (st.(needsNewline := false), Err(error))
  {
    ScanStops(c, lines, bad, rest);
    hide ScanAll, Passes, AllPass, Joined;
    HealStops(c, st, ts, fault);
    hide Heal;
  }

  lemma HealStops(c: Codec, st: Store, stamp: string, fault: HealFault)
    requires ScanAll(c, st.file).BadLine? || ScanAll(c, st.file) == BadEvent
    ensures Heal(c, st, stamp, fault) ==
            (st.(needsNewline := false),
             Err(if fault == ReadFails then Io
                 else match ScanAll(c, st.file) case BadLine(n) => CorruptLine(n) case _ => CorruptEvent))
  {
    hide ScanAll;
  }

  lemma {:induction false} JoinedEvents(c: Codec, events: seq<Memevent>) returns (lines: seq<Bytes>)
    requires Lawful(c) && AllValid(events)
    ensures |lines| == |events| && Unbroken(lines) && AllPass(c, lines) && Joined(lines) == Lines(c, events)
    decreases |events|
  {
    lines := [];
    if events != [] {
      var more := JoinedEvents(c, events[1..]);
      lines := [c.encode(events[0])] + more;
      assert lines[1..] == more;
      assert Passes(c, lines[0]);
      hide Passes, Lawful;
    }
  }

  /** The same after the events of an orderly tape: the corrupt line is counted right after them. */
  lemma CorruptionAfterEvents(c: Codec, st: Store, events: seq<Memevent>, bad: Bytes, rest: Bytes, stamp: string)
    requires Lawful(c) && AllValid(events) && NEWLINE !in bad && !Blank(bad)
    requires st.file == Lines(c, events) + bad + [NEWLINE] + rest
    requires match c.decode(bad + [NEWLINE]) case None => true case Some(e) => !Validates(e)
    ensures var (st', r) := ReadAll(c, st, stamp, NoFault);
            && st'.file == st.file && st'.side == st.side
            && r == Err(if c.decode(bad + [NEWLINE]).None? then CorruptLine(|events| + 1) else CorruptEvent)
  {
    var lines := JoinedEvents(c, events);
    assert !Passes(c, bad);
    hide Passes, Lawful, Blank;
    ScanStops(c, lines, bad, rest);
    hide ScanAll;
  }

  lemma {:induction false} FirstBad(c: Codec, lines: seq<Bytes>) returns (k: nat)
    requires !AllPass(c, lines)
    ensures k < |lines| && AllPass(c, lines[..k]) && !Passes(c, lines[k])
    decreases |lines|
  {
    hide Passes;
    var n := |lines| - 1;
    if AllPass(c, lines[..n]) {
      k := n;
    } else {
      k := FirstBad(c, lines[..n]);
      assert lines[..n][..k] == lines[..k];
    }
  }

  /**
   Over every file: an undisturbed read succeeds exactly when each whole line passes and the
   last stretch is blank, torn or a valid event. It answers with the events in their order,
   moves a torn stretch and nothing else to the side file, and otherwise changes no byte.
   */
  lemma ReadSucceedsIff(c: Codec, st: Store, lines: seq<Bytes>, tail: Bytes, stamp: string)
    requires Unbroken(lines) && NEWLINE !in tail && st.file == Joined(lines) + tail
    ensures var (st', r) := ReadAll(c, st, stamp, NoFault);
            && (r.Ok? <==> AllPass(c, lines) && (Blank(tail) || TailTorn(c, tail) || Validates(c.decode(tail).value)))
            && (r.Ok? ==> r.value == EventsOf(c, lines) + TailEvents(c, tail))
            && (r.Ok? && TailTorn(c, tail) ==> st'.file == Joined(lines) && st'.side == st.side + Evidence(stamp, tail))
            && (r.Err? || !TailTorn(c, tail) ==> st'.file == st.file && st'.side == st.side)
  {
    hide ScanAll, Passes, Blank, Validates, Evidence, AllPass, Unbroken, Joined, EventsOf;
    if AllPass(c, lines) {
      ScanTail(c, lines, tail);
      assert st.file[|Joined(lines)|..] == tail && st.file[..|Joined(lines)|] == Joined(lines);
      assert EventsOf(c, lines) + [] == EventsOf(c, lines);
    } else {
      FirstBadScan(c, lines, tail);
    }
  }

  lemma FirstBadScan(c: Codec, lines: seq<Bytes>, tail: Bytes)
    requires Unbroken(lines) && !AllPass(c, lines)
    ensures ScanAll(c, Joined(lines) + tail).BadLine? || ScanAll(c, Joined(lines) + tail) == BadEvent
  {
    var k := FirstBad(c, lines);
    JoinedAt(lines, k);
    assert Unbroken(lines[..k]) && NEWLINE !in lines[k];
    hide ScanAll, Passes, Joined, AllPass, Unbroken;
    ScanStops(c, lines[..k], lines[k], Joined(lines[k + 1..]) + tail);
    assert Joined(lines) + tail == Joined(lines[..k]) + lines[k] + [NEWLINE] + (Joined(lines[k + 1..]) + tail);
  }

  // ---------------------------------------------------------------- an append to any file

  /** A last stretch that a line break turns into a line like any other. */
  predicate Completes(c: Codec, tail: Bytes) {
    Blank(tail) || TailTorn(c, tail) || (Validates(c.decode(tail).value) && c.decode(tail + [NEWLINE]) == c.decode(tail))
  }

  /** The lines of the file once its last stretch is cut, if torn, or closed. */
  function Closed(c: Codec, lines: seq<Bytes>, tail: Bytes): seq<Bytes> {
    if tail == [] || TailTorn(c, tail) then lines else lines + [tail]
  }

  lemma {:induction false} EventsSnoc(c: Codec, lines: seq<Bytes>, line: Bytes)
    requires AllPass(c, lines) && Passes(c, line)
    ensures AllPass(c, lines + [line]) && EventsOf(c, lines + [line]) == EventsOf(c, lines) + EventOf(c, line)
    decreases |lines|
  {
    hide Passes, EventOf;
    if lines == [] {
      assert lines + [line] == [line] && [line][1..] == [];
      assert EventOf(c, line) + [] == EventOf(c, line);
    } else {
      EventsSnoc(c, lines[1..], line);
      assert (lines + [line])[1..] == lines[1..] + [line];
    }
  }

  lemma {:induction false} JoinedSnoc(lines: seq<Bytes>, line: Bytes)
    requires Unbroken(lines) && NEWLINE !in line
    ensures Unbroken(lines + [line]) && Joined(lines + [line]) == Joined(lines) + line + [NEWLINE]
    decreases |lines|
  {
    if lines != [] {
      JoinedSnoc(lines[1..], line);
      assert (lines + [line])[1..] == lines[1..] + [line];
    } else {
      assert [] + [line] == [line];
    }
  }

  /** Closing the last stretch loses no event. */
  lemma ClosedEvents(c: Codec, lines: seq<Bytes>, tail: Bytes)
    requires Unbroken(lines) && AllPass(c, lines) && NEWLINE !in tail && Completes(c, tail)
    ensures var closed := Closed(c, lines, tail);
            && Unbroken(closed) && AllPass(c, closed) && EventsOf(c, closed) == EventsOf(c, lines) + TailEvents(c, tail)
            && Joined(closed) == if tail == [] || TailTorn(c, tail) then Joined(lines) else Joined(lines) + tail + [NEWLINE]
  {
    if tail == [] || TailTorn(c, tail) {
      assert EventsOf(c, lines) + [] == EventsOf(c, lines);
    } else {
      EventsSnoc(c, lines, tail);
      JoinedSnoc(lines, tail);
    }
  }

  /** A tape that ends with a whole line ends in a newline. */
  lemma EndsClosed(lines: seq<Bytes>, tail: Bytes)
    requires Unbroken(lines) && NEWLINE !in tail
    ensures EndsOpen(Joined(lines) + tail) <==> tail != []
  {
    if tail == [] && lines != [] {
      var n := |lines| - 1;
      JoinedSnoc(lines[..n], lines[n]);
      assert lines[..n] + [lines[n]] == lines;
      assert Joined(lines) + tail == Joined(lines);
    } else if tail != [] {
      var file := Joined(lines) + tail;
      assert file[|file| - 1] == tail[|tail| - 1];
    }
  }

  /** What a repair without a fault leaves of such a file. */
  lemma HealedFile(c: Codec, st: Store, lines: seq<Bytes>, tail: Bytes, stamp: string)
    requires Unbroken(lines) && AllPass(c, lines) && NEWLINE !in tail && Completes(c, tail) && st.file == Joined(lines) + tail
    ensures var (st', r) := Heal(c, st, stamp, NoFault);
            && r == Ok(EventsOf(c, Closed(c, lines, tail)))
            && (if st'.needsNewline then st'.file + [NEWLINE] else st'.file) == Joined(Closed(c, lines, tail))
            && st'.next == st.next
  {
    ScanTail(c, lines, tail);
    ClosedEvents(c, lines, tail);
    EndsClosed(lines, tail);
    hide ScanAll, Blank, Validates, Evidence, EventsOf, Joined, EndsOpen, AllPass, Unbroken;
    if TailTorn(c, tail) {
      HealTorn(c, st, Joined(lines), tail, EventsOf(c, lines), stamp);
    } else {
      assert ScanAll(c, st.file) == Whole(EventsOf(c, lines) + TailEvents(c, tail));
      hide TailTorn, Completes, TailEvents;
      assert tail == [] ==> st.file == Joined(lines);
    }
  }

  lemma HealTorn(c: Codec, st: Store, whole: Bytes, torn: Bytes, events: seq<Memevent>, stamp: string)
    requires st.file == whole + torn && ScanAll(c, st.file) == Torn(events, |whole|)
    ensures var (st', r) := Heal(c, st, stamp, NoFault);
            r == Ok(events) && !st'.needsNewline && st'.file == whole && st'.next == st.next
  {
    hide ScanAll, Evidence;
    assert st.file[..|whole|] == whole;
  }

  /**
   An undisturbed append to any file whose lines pass, whoever wrote it: it takes the number after the
   last event of the file, or 1, and an undisturbed read then gives the events of the file and the new one last.
   */
  lemma AppendToAnyFile(c: Codec, st: Store, lines: seq<Bytes>, tail: Bytes, input: AppendEvent, id: string, ts: string, later: string)
    requires Lawful(c) && Unbroken(lines) && AllPass(c, lines) && NEWLINE !in tail && Completes(c, tail)
    requires st.file == Joined(lines) + tail && st.next == None && id != ""
    ensures var events := EventsOf(c, lines) + TailEvents(c, tail);
            var n := if events == [] then 1 else events[|events| - 1].number + 1;
            var (st', r) := Append(c, st, input, id, ts, NoFault, Written);
            var event := Memevent(1, id, n, ts, input);
            && r == Ok(event) && ReadAll(c, st', later, NoFault).1 == Ok(events + [event])
  {
    hide Heal, Append, ReadAll, Closed, Completes, Joined, EventsOf, AllPass, Unbroken, TailEvents, Lawful;
    var closed := Closed(c, lines, tail);
    HealedFile(c, st, lines, tail, ts);
    ClosedEvents(c, lines, tail);
    AppendToClosed(c, st, closed, input, id, ts, later);
  }

  /** The same, for a file that a repair closes to the given lines. */
  lemma AppendToClosed(c: Codec, st: Store, closed: seq<Bytes>, input: AppendEvent, id: string, ts: string, later: string)
    requires Lawful(c) && Unbroken(closed) && AllPass(c, closed) && st.next == None && id != ""
    requires var (healed, r) := Heal(c, st, ts, NoFault);
             && r == Ok(EventsOf(c, closed))
             && (if healed.needsNewline then healed.file + [NEWLINE] else healed.file) == Joined(closed)
    ensures var events := EventsOf(c, closed);
            var (st', r) := Append(c, st, input, id, ts, NoFault, Written);
            var event := Memevent(1, id, if events == [] then 1 else events[|events| - 1].number + 1, ts, input);
            && r == Ok(event) && ReadAll(c, st', later, NoFault).1 == Ok(events + [event])
  {
    hide Heal, Append, ReadAll, Joined, EventsOf, AllPass, Unbroken, Passes, EventOf, Lawful;
    var events := EventsOf(c, closed);
    var event := Memevent(1, id, if events == [] then 1 else events[|events| - 1].number + 1, ts, input);
    var line := c.encode(event);
    NewLine(c, event);
    AppendedBytes(c, st, input, id, ts);
    JoinedSnoc(closed, line);
    EventsSnoc(c, closed, line);
    LinesRead(c, Append(c, st, input, id, ts, NoFault, Written).0, closed + [line], later);
  }

  lemma NewLine(c: Codec, event: Memevent)
    requires Lawful(c) && Validates(event)
    ensures var line := c.encode(event); NEWLINE !in line && Passes(c, line) && EventOf(c, line) == [event]
  {
    assert c.encode(event)[0] == 123;
  }

  lemma LinesRead(c: Codec, st: Store, lines: seq<Bytes>, stamp: string)
    requires Unbroken(lines) && AllPass(c, lines) && st.file == Joined(lines)
    ensures ReadAll(c, st, stamp, NoFault).1 == Ok(EventsOf(c, lines))
  {
    assert Joined(lines) + [] == Joined(lines);
    ReadSucceedsIff(c, st, lines, [], stamp);
    assert TailEvents(c, []) == [] && !TailTorn(c, []);
    hide ReadAll, EventsOf;
    assert EventsOf(c, lines) + [] == EventsOf(c, lines);
  }

  lemma AppendedBytes(c: Codec, st: Store, input: AppendEvent, id: string, ts: string)
    requires st.next == None && id != "" && Heal(c, st, ts, NoFault).1.Ok?
    ensures var (healed, r) := Heal(c, st, ts, NoFault);
            var event := Memevent(1, id, if r.value == [] then 1 else r.value[|r.value| - 1].number + 1, ts, input);
            && Append(c, st, input, id, ts, NoFault, Written).1 == Ok(event)
            && Append(c, st, input, id, ts, NoFault, Written).0.file ==
               (if healed.needsNewline then healed.file + [NEWLINE] else healed.file) + c.encode(event) + [NEWLINE]
  {
    hide Heal;
  }

  // ---------------------------------------------------------------- more of what is served and kept

  /** No read serves an event of another version or without an id. */
  lemma {:induction false} ServedAreValid(c: Codec, st: Store, lines: seq<Bytes>, tail: Bytes, stamp: string)
    requires Unbroken(lines) && NEWLINE !in tail && st.file == Joined(lines) + tail && ReadAll(c, st, stamp, NoFault).1.Ok?
    ensures forall e | e in ReadAll(c, st, stamp, NoFault).1.value :: e.v == 1 && |e.id| > 0
  {
    ReadSucceedsIff(c, st, lines, tail, stamp);
    hide ReadAll, Blank;
    EventsValid(c, lines);
  }

  lemma {:induction false} EventsValid(c: Codec, lines: seq<Bytes>)
    requires AllPass(c, lines)
    ensures forall e | e in EventsOf(c, lines) :: e.v == 1 && |e.id| > 0
    decreases |lines|
  {
    if lines != [] {
      EventsValid(c, lines[1..]);
      assert Passes(c, lines[0]);
    }
  }

  /**
   A repair of a torn stretch, stopped anywhere: the tape is cut only after the whole evidence is in the side
   file, the side file only grows, and by exactly what was written of the evidence; it finishes only without a fault.
   */
  lemma TornIsMovedInOrder(c: Codec, st: Store, lines: seq<Bytes>, tail: Bytes, stamp: string, fault: HealFault)
    requires Unbroken(lines) && AllPass(c, lines) && NEWLINE !in tail && TailTorn(c, tail) && st.file == Joined(lines) + tail
    ensures var (st', r) := Heal(c, st, stamp, fault);
            && r == (if fault == NoFault then Ok(EventsOf(c, lines)) else Err(Io))
            && st'.file == (if fault in {NoFault, AfterTruncate} then Joined(lines) else st.file)
            && st'.side == st.side + (match fault
                                      case ReadFails => []
                                      case SideStops(k) => Prefix(Evidence(stamp, tail), k)
                                      case _ => Evidence(stamp, tail))
            && !st'.needsNewline && st'.next == st.next
  {
    hide ScanAll, Evidence, Blank, Joined, EventsOf, AllPass, Unbroken;
    ScanTail(c, lines, tail);
    assert st.file[|Joined(lines)|..] == tail && st.file[..|Joined(lines)|] == Joined(lines);
    assert st.side + [] == st.side;
  }

  /** After an append that returned, the next takes the next number without reading the tape, whatever a read would meet. */
  lemma NextNumberIsKept(c: Codec, st: Store, input: AppendEvent, id: string, ts: string, heal: HealFault,
                         next: AppendEvent, id': string, ts': string, heal': HealFault)
    requires Append(c, st, input, id, ts, heal, Written).1.Ok? && id' != ""
    ensures var (st', r) := Append(c, st, input, id, ts, heal, Written);
            && Append(c, st', next, id', ts', heal', Written).1 == Ok(Memevent(1, id', r.value.number + 1, ts', next))
            && Append(c, st', next, id', ts', heal', Written).0.side == st'.side
  {
    hide Heal;
  }
}
