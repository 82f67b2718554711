/**
 The append-only event tape: one encoded event per line, a cached next sequence
 number, and a side file that receives torn bytes.

 The file is a byte sequence. A failed write leaves any prefix of its bytes, and a
 stopped repair leaves any prefix of its effects; `Reopen` after such a stop is a
 process that died there.
 */
module Tape {
  import opened Basics

  /** The fields of an event that its caller supplies. */
  datatype AppendEvent = AppendEvent(from: string, session: string, content: string, tags: seq<string>, refs: seq<string>)

  datatype Memevent = Memevent(v: nat, id: string, number: nat, ts: string, input: AppendEvent)

  predicate Validates(e: Memevent) {
    e.v == 1 && e.id != ""
  }

  /** The line format. Only the laws of `Lawful` are used of it. */
  datatype Codec = Codec(encode: Memevent -> Bytes, decode: Bytes -> Option<Memevent>)

  ghost predicate Lawful(c: Codec) {
    && (forall e :: |c.encode(e)| > 0 && c.encode(e)[0] == 123)
    && (forall e :: NEWLINE !in c.encode(e))
    && (forall e :: c.decode(c.encode(e)) == Some(e) && c.decode(c.encode(e) + [NEWLINE]) == Some(e))
    && (forall e, n | 0 <= n < |c.encode(e)| :: c.decode(c.encode(e)[..n]) == None)
  }

  datatype TapeError = Io | CorruptLine(line: nat) | CorruptEvent

  /** Where a repair stops. The side file is written before the tape is cut. */
  datatype HealFault = NoFault | ReadFails | SideStops(written: nat) | BeforeTruncate | AfterTruncate

  /** How many bytes of the line reach the file before the write, or its sync, fails. */
  datatype WriteFault = Written | StopsAfter(written: nat)

  // ---------------------------------------------------------------- scanning

  datatype Scan =
    | Whole(events: seq<Memevent>)
    | Torn(events: seq<Memevent>, offset: nat)
    | BadLine(line: nat)
    | BadEvent

  /** The end of the line that starts at `start`, and whether a newline ends it. */
  function NextLine(bytes: Bytes, start: nat): (r: (nat, bool))
    requires start < |bytes|
    ensures start < r.0 <= |bytes|
  {
    match LineEnd(bytes[start..])
    case None => (|bytes|, false)
    case Some(n) => (start + n, true)
  }

  /** What the tape says from byte `start` on, after `line` lines and `events` before it. */
  function ScanFrom(c: Codec, bytes: Bytes, start: nat, line: nat, events: seq<Memevent>): Scan
    requires start <= |bytes|
    decreases |bytes| - start
  {
    if start == |bytes| then Whole(events)
    else
      var (end, terminated) := NextLine(bytes, start);
      var chunk := bytes[start..end];
      if Blank(chunk) then ScanFrom(c, bytes, end, line + 1, events)
      else
        match c.decode(chunk)
        case Some(e) => if Validates(e) then ScanFrom(c, bytes, end, line + 1, events + [e]) else BadEvent
        case None => if terminated then BadLine(line + 1) else Torn(events, start)
  }

  function ScanAll(c: Codec, bytes: Bytes): Scan {
    ScanFrom(c, bytes, 0, 0, [])
  }

  // ------------------------------------------------------------ the store as a value

  /** The tape file, its `.corrupt` side file, and the two cached fields. */
  datatype Store = Store(file: Bytes, side: Bytes, next: Option<nat>, needsNewline: bool)

  const EMPTY := Store([], [], None, false)

  /** Everything a quarantine writes to the side file. */
  function Evidence(stamp: string, torn: Bytes): Bytes {
    Ascii("# quarantined ") + Ascii(stamp) + Ascii(" (") + Decimal(|torn|) + Ascii(" bytes)\n") + torn
    + (if torn != [] && torn[|torn| - 1] == NEWLINE then [] else [NEWLINE])
  }

  function Suffix(s: Bytes, n: nat): Bytes {
    if n <= |s| then s[n..] else []
  }

  /** `quarantine_tail`: whether it finished, and the files it leaves. */
  function Quarantine(st: Store, offset: nat, stamp: string, fault: HealFault): (Store, bool) {
    var evidence := Evidence(stamp, Suffix(st.file, offset));
    if fault.SideStops? then (st.(side := st.side + Prefix(evidence, fault.written)), false)
    else
      var st1 := st.(side := st.side + evidence);
      if fault.BeforeTruncate? then (st1, false)
      else (st1.(file := Prefix(st.file, offset)), !fault.AfterTruncate?)
  }

  predicate EndsOpen(file: Bytes) {
    file != [] && file[|file| - 1] != NEWLINE
  }

  /** `scan_and_heal`: the events of the tape, with a torn tail moved to the side file. */
  function Heal(c: Codec, st: Store, stamp: string, fault: HealFault): (Store, Result<seq<Memevent>, TapeError>) {
    var st0 := st.(needsNewline := false);
    if fault.ReadFails? then (st0, Err(Io))
    else
      match ScanAll(c, st.file)
      case BadLine(line) => (st0, Err(CorruptLine(line)))
      case BadEvent => (st0, Err(CorruptEvent))
      case Whole(events) => (st.(needsNewline := EndsOpen(st.file)), Ok(events))
      case Torn(events, offset) =>
        var (st1, done) := Quarantine(st0, offset, stamp, fault);
        (st1, if done then Ok(events) else Err(Io))
  }

  function ReadAll(c: Codec, st: Store, stamp: string, fault: HealFault): (Store, Result<seq<Memevent>, TapeError>) {
    Heal(c, st.(next := None), stamp, fault)
  }

  /** The number an append gets: the cached one, or one past the last event on the tape. */
  function Reserve(c: Codec, st: Store, stamp: string, fault: HealFault): (Store, Result<nat, TapeError>) {
    if st.next.Some? then (st, Ok(st.next.value))
    else
      var (st1, scanned) := Heal(c, st, stamp, fault);
      match scanned
      case Err(e) => (st1, Err(e))
      case Ok(events) =>
        var n := if events == [] then 1 else events[|events| - 1].number + 1;
        (st1.(next := Some(n)), Ok(n))
  }

  function Line(c: Codec, st: Store, e: Memevent): Bytes {
    (if st.needsNewline then [NEWLINE] else []) + c.encode(e) + [NEWLINE]
  }

  /** One write of the event's line. A failure forgets the cached number. */
  function WriteLine(c: Codec, st: Store, e: Memevent, write: WriteFault): (Store, Result<Memevent, TapeError>) {
    match write
    case Written => (Store(st.file + Line(c, st, e), st.side, Some(e.number + 1), false), Ok(e))
    case StopsAfter(k) => (st.(file := st.file + Prefix(Line(c, st, e), k), next := None), Err(Io))
  }

  function Append(c: Codec, st: Store, input: AppendEvent, id: string, ts: string, heal: HealFault, write: WriteFault)
    : (Store, Result<Memevent, TapeError>)
  {
    var (st1, reserved) := Reserve(c, st, ts, heal);
    match reserved
    case Err(e) => (st1, Err(e))
    case Ok(n) =>
      var event := Memevent(1, id, n, ts, input);
      if !Validates(event) then (st1, Err(CorruptEvent))
      else WriteLine(c, st1, event, write)
  }

  function Reopen(st: Store): Store {
    Store(st.file, st.side, None, false)
  }
}
