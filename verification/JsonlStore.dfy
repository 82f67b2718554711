/** The tape with its fields updated in place, as `JsonlStore` keeps them. */
module Jsonl {
  import opened Basics
  import opened Tape

  class JsonlStore {
    const codec: Codec
    var file: Bytes
    var side: Bytes
    var next: Option<nat>
    var needsNewline: bool

    function View(): Store
      reads this
    {
      Store(file, side, next, needsNewline)
    }

    /** Opening takes the files as they are and caches nothing. */
    constructor Open(codec: Codec, file: Bytes, side: Bytes)
      ensures this.codec == codec && View() == Reopen(Store(file, side, next, needsNewline))
    {
      this.codec := codec;
      this.file := file;
      this.side := side;
      next := None;
      needsNewline := false;
    }

    method ReadAll(stamp: string, fault: HealFault) returns (r: Result<seq<Memevent>, TapeError>)
      modifies this
      ensures (View(), r) == Tape.ReadAll(codec, old(View()), stamp, fault)
    {
      next := None;
      r := ScanAndHeal(stamp, fault);
    }

    method Append(input: AppendEvent, id: string, ts: string, heal: HealFault, write: WriteFault)
      returns (r: Result<Memevent, TapeError>)
      modifies this
      ensures (View(), r) == Tape.Append(codec, old(View()), input, id, ts, heal, write)
    {
      var reserved := Reserve(ts, heal);
      if reserved.Err? {
        return Err(reserved.error);
      }
      var event := Memevent(1, id, reserved.value, ts, input);
      if !Validates(event) {
        return Err(CorruptEvent);
      }
      r := Write(event, write);
    }

    /** The number of the next event, from the cache or from a fresh scan. */
    method Reserve(ts: string, heal: HealFault) returns (r: Result<nat, TapeError>)
      modifies this
      ensures (View(), r) == Tape.Reserve(codec, old(View()), ts, heal)
    {
      if next.Some? {
        return Ok(next.value);
      }
      var scanned := ScanAndHeal(ts, heal);
      if scanned.Err? {
        return Err(scanned.error);
      }
      var events := scanned.value;
      var number := if events == [] then 1 else events[|events| - 1].number + 1;
      next := Some(number);
      return Ok(number);
    }

    /** One write and its sync. A failure forgets the cached number. */
    method Write(event: Memevent, write: WriteFault) returns (r: Result<Memevent, TapeError>)
      modifies this
      ensures (View(), r) == WriteLine(codec, old(View()), event, write)
    {
      var line := codec.encode(event);
      if needsNewline {
        line := [NEWLINE] + line;
      }
      line := line + [NEWLINE];
      assert line == Line(codec, View(), event);
      match write
      case StopsAfter(k) =>
        file := file + Prefix(line, k);
        next := None;
        return Err(Io);
      case Written =>
        file := file + line;
        needsNewline := false;
        next := Some(event.number + 1);
        return Ok(event);
    }

    method ScanAndHeal(stamp: string, fault: HealFault) returns (r: Result<seq<Memevent>, TapeError>)
      modifies this
      ensures (View(), r) == Heal(codec, old(View()), stamp, fault)
    {
      hide Blank, Validates, EndsOpen;
      needsNewline := false;
      if fault.ReadFails? {
        return Err(Io);
      }
      var bytes := file;
      var events: seq<Memevent> := [];
      var start := 0;
      var lineNo := 0;
      var healed := false;
      while start < |bytes|
        invariant start <= |bytes|
        invariant ScanAll(codec, bytes) == ScanFrom(codec, bytes, start, lineNo, events)
        invariant !healed && View() == old(View()).(needsNewline := false)
      {
        var (end, terminated) := NextLine(bytes, start);
        lineNo := lineNo + 1;
        var chunk := bytes[start..end];
        if !Blank(chunk) {
          match codec.decode(chunk)
          case Some(event) =>
            if !Validates(event) {
              return Err(CorruptEvent);
            }
            events := events + [event];
          case None =>
            if terminated {
              return Err(CorruptLine(lineNo));
            }
            var repaired := QuarantineTail(start, chunk, stamp, fault);
            if !repaired {
              return Err(Io);
            }
            healed := true;
            break;
        }
        start := end;
      }
      needsNewline := !healed && EndsOpen(bytes);
      return Ok(events);
    }

    /** The evidence is complete in the side file before the tape loses a byte. */
    method QuarantineTail(offset: nat, torn: Bytes, stamp: string, fault: HealFault) returns (done: bool)
      requires offset <= |file| && torn == file[offset..]
      modifies this
      ensures (View(), done) == Quarantine(old(View()), offset, stamp, fault)
    {
      var entry := Ascii("# quarantined ") + Ascii(stamp) + Ascii(" (") + Decimal(|torn|) + Ascii(" bytes)\n") + torn;
      if torn == [] || torn[|torn| - 1] != NEWLINE {
        entry := entry + [NEWLINE];
      }
      assert entry == Evidence(stamp, torn);
      if fault.SideStops? {
        side := side + Prefix(entry, fault.written);
        return false;
      }
      side := side + entry;
      if fault.BeforeTruncate? {
        return false;
      }
      file := file[..offset];
      done := !fault.AfterTruncate?;
    }
  }
}
