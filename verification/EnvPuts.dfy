/** What each call of the environment ledger achieves: what is logged, what is served, and where a stop leaves it. */
module EnvPuts {
  import opened Basics
  import opened TextLines
  import opened EnvLedgers
  import opened EnvLedgerRuns

  // ---------------------------------------------------------------- reading any log

  predicate Passes(p: Platform, line: Bytes) {
    Blank(line) || p.decode(line).Some?
  }

  predicate AllPass(p: Platform, lines: seq<Bytes>) {
    forall i | 0 <= i < |lines| :: Passes(p, lines[i])
  }

  function RecordsOf(p: Platform, lines: seq<Bytes>): seq<LogRecord>
    requires AllPass(p, lines)
  {
    if lines == [] then []
    else if Blank(lines[0]) then RecordsOf(p, lines[1..])
    else assert Passes(p, lines[0]); [p.decode(lines[0]).value] + RecordsOf(p, lines[1..])
  }

  /**
   Over every file: it reads as the records of its lines in order, blank lines skipped, exactly
   when every whole line passes and nothing follows the last newline.
   */
  lemma {:induction false} ReadsIff(p: Platform, lines: seq<Bytes>, tail: Bytes)
    requires Unbroken(lines) && NEWLINE !in tail
    ensures ReadLog(p, Joined(lines) + tail) ==
            if !AllPass(p, lines) then Err(BadRecord)
            else if tail != [] then Err(IncompleteLog)
            else Ok(RecordsOf(p, lines))
    decreases |lines|
  {
    if lines == [] {
      assert Joined(lines) + tail == tail;
      NoLineEnd(tail);
    } else {
      var (line, more) := (lines[0], lines[1..]);
      var log := Joined(lines) + tail;
      ThreeParts(line, Joined(more), tail);
      LineEndAt(line, Joined(more) + tail);
      assert log[..|line|] == line && log[|line| + 1..] == Joined(more) + tail;
      ReadsIff(p, more, tail);
      hide Blank;
      assert AllPass(p, lines) <==> Passes(p, line) && AllPass(p, more);
    }
  }

  /** What is added to a log that can be read is read after it. */
  lemma {:induction false} ReadLogThen(p: Platform, log: Bytes, rest: Bytes)
    requires ReadLog(p, log).Ok?
    ensures ReadLog(p, log + rest) == match ReadLog(p, rest) case Err(e) => Err(e) case Ok(more) => Ok(ReadLog(p, log).value + more)
    decreases |log|
  {
    if log == [] {
      assert log + rest == rest;
      assert ReadLog(p, rest).Ok? ==> [] + ReadLog(p, rest).value == ReadLog(p, rest).value;
    } else {
      var end := LineEnd(log).value;
      LineEndStays(log, rest);
      ReadLogThen(p, log[end..], rest);
      hide Blank, LineEnd;
      var line := log[..end - 1];
      assert log + rest != [] && (log + rest)[..end - 1] == line;
      if !Blank(line) && ReadLog(p, rest).Ok? {
        OneInFront(p.decode(line).value, ReadLog(p, log[end..]).value, ReadLog(p, rest).value);
      }
    }
  }

  lemma OneInFront(r: LogRecord, some: seq<LogRecord>, more: seq<LogRecord>)
    ensures [r] + (some + more) == [r] + some + more
  {
  }

  lemma LineEndStays(log: Bytes, rest: Bytes)
    requires LineEnd(log).Some?
    ensures var end := LineEnd(log).value;
            && LineEnd(log + rest) == Some(end)
            && (log + rest)[..end - 1] == log[..end - 1] && (log + rest)[end..] == log[end..] + rest
  {
    var end := LineEnd(log).value;
    var (head, tail) := (log[..end - 1], log[end..]);
    Regroup(log, end, rest);
    hide LineEnd;
    LineEndAt(head, tail + rest);
  }

  lemma Regroup(log: Bytes, end: nat, rest: Bytes)
    requires 0 < end <= |log| && log[end - 1] == NEWLINE
    ensures log + rest == log[..end - 1] + [NEWLINE] + (log[end..] + rest)
    ensures (log + rest)[..end - 1] == log[..end - 1] && (log + rest)[end..] == log[end..] + rest
  {
    assert log == log[..end - 1] + [log[end - 1]] + log[end..];
  }

  lemma AppendedReads(p: Platform, log: Bytes, r: LogRecord)
    requires Lawful(p) && ReadLog(p, log).Ok?
    ensures ReadLog(p, log + Line(p, r)) == Ok(ReadLog(p, log).value + [r])
  {
    ReadLogThen(p, log, Line(p, r));
    ReadOne(p, r, []);
    assert Line(p, r) + [] == Line(p, r);
    assert [r] + [] == [r];
  }

  /** Some but not all bytes of a record after a readable log make it refuse. */
  lemma TornRefuses(p: Platform, log: Bytes, r: LogRecord, bytes: Bytes)
    requires Lawful(p) && ReadLog(p, log).Ok? && bytes < Line(p, r) && bytes != []
    ensures ReadLog(p, log + bytes) == Err(IncompleteLog)
  {
    ReadLogThen(p, log, bytes);
    forall i | 0 <= i < |bytes| ensures bytes[i] != NEWLINE {
      assert bytes[i] == Line(p, r)[i] == p.encode(r)[i];
    }
    NoLineEnd(bytes);
  }

  // ---------------------------------------------------------------- what is served

  /**
   Over every disk, also one that was tampered with: a cite serves the last environment record
   and a text that has exactly the recorded digest, or no record and the empty text; it refuses
   exactly when the log cannot be read, or the record's blob is missing or altered.
   */
  lemma CiteIsVerified(p: Platform, d: Disk)
    ensures var (log, c) := (ReadLog(p, d.log), Cite(p, d, NoFault));
            && (c.Ok? ==> log.Ok? && c.value.0 == LastKind(log.value, "env"))
            && (c.Ok? && c.value.0.None? ==> c.value.1 == [])
            && (c.Ok? && c.value.0.Some? ==> c.value.0.value.sha256 == Some(p.sha(c.value.1)) && c.value.1 in d.blobs.Values)
            && (c.Err? <==> log.Err? || (LastKind(log.value, "env").Some? && Unserved(p, d, LastKind(log.value, "env").value)))
    ensures Cite(p, d, AtRead) == Err(Io)
  {
    hide ReadLog, LastKind;
  }

  /** The record's text is missing, or is not the one that was recorded. */
  predicate Unserved(p: Platform, d: Disk, r: LogRecord) {
    r.sha256.None? || r.sha256.value !in d.blobs || p.sha(d.blobs[r.sha256.value]) != r.sha256.value
  }

  // ---------------------------------------------------------------- a put that returns

  lemma PublishStores(p: Platform, d: Disk, text: Bytes, f: Fault)
    requires Publish(p, d, p.sha(text), text, f).1.None?
    ensures var d' := Publish(p, d, p.sha(text), text, f).0;
            && d' == d.(blobs := d'.blobs) && p.sha(text) in d'.blobs && p.sha(d'.blobs[p.sha(text)]) == p.sha(text)
  {
  }

  lemma RefreshMeans(p: Platform, d: Disk, f: Fault)
    ensures var (d', e) := Refresh(p, d, f);
            && d' == d.(projection := d'.projection) && Committed(p, d') == Committed(p, d)
            && (e.None? ==> Committed(p, d).Ok? && d'.projection == Some(Committed(p, d).value.1))
            && (e.None? <==> Committed(p, d).Ok? && f != AtProjectionWrite && f != AtProjectionSync)
            && (Committed(p, d).Ok? && f == AtProjectionSync ==> d'.projection == Some(Committed(p, d).value.1))
            && (Committed(p, d).Err? || f == AtProjectionWrite ==> d' == d)
            && (e.Some? && Committed(p, d).Ok? ==> e == Some(Io))
  {
    hide ReadLog, LastKind;
  }

  lemma AppendMeans(p: Platform, d: Disk, r: LogRecord, f: Fault)
    ensures var (d', e) := Append(p, d, r, f);
            && (e.None? <==> f != AtLogOpen && !f.AtLogWrite? && f != AtLogSync) && (e.Some? ==> e == Some(Io))
            && d' == d.(log := d'.log)
            && d'.log == match f
                         case AtLogOpen => d.log
                         case AtLogWrite(n) => d.log + Prefix(Line(p, r), n)
                         case _ => d.log + Line(p, r)
  {
  }

  /**
   Over every disk: a put that returns has its generation in the log. The log reads, its last
   record of that name is the one returned, with the digest of the text; that record is new,
   and is what the next cite serves with exactly that text, unless the name had it already,
   and then nothing is added.
   */
  lemma PutIsLogged(p: Platform, d: Disk, name: string, text: Bytes, id: string, f: Fault)
    requires Lawful(p) && CollisionFree(p) && PutEnv(p, d, name, text, id, f).1.Ok?
    ensures var (d', r) := PutEnv(p, d, name, text, id, f);
            var (before, after) := (ReadLog(p, d.log), ReadLog(p, d'.log));
            && before.Ok? && after.Ok?
            && LastNamed(after.value, "env", name) == Some(r.value) && r.value.sha256 == Some(p.sha(text))
            && if AlreadyLogged(p, d, name, p.sha(text)) then d'.log == d.log && d'.blobs == d.blobs
               else && r.value == EnvRecord(id, p.sha(text), name)
                    && after.value == before.value + [r.value]
                    && Cite(p, d', NoFault) == Ok((Some(r.value), text))
  {
    var sha, r := p.sha(text), EnvRecord(id, p.sha(text), name);
    hide ReadLog, LastNamed, LastKind, Publish, Append, Refresh, Lawful;
    if AlreadyLogged(p, d, name, sha) {
      RefreshMeans(p, d, f);
    } else {
      var d1 := Publish(p, d, sha, text, f).0;
      PublishStores(p, d, text, f);
      AppendMeans(p, d1, r, f);
      var d2 := Append(p, d1, r, f).0;
      AppendedReads(p, d.log, r);
      LastSnoc(ReadLog(p, d.log).value, r, "env", name);
      RefreshMeans(p, d2, f);
    }
  }

  // ---------------------------------------------------------------- where a put stops

  /** The steps of a put that a fault can hit: an unchanged generation publishes and logs nothing. */
  predicate Hits(f: Fault, confirmed: bool, published: bool) {
    match f
    case NoFault => false
    case AtBlobWrite => !confirmed && !published
    case AtBlobSync => !confirmed
    case AtLogOpen => !confirmed
    case AtLogWrite(_) => !confirmed
    case _ => true
  }

  lemma GoodReads(p: Platform, d: Disk)
    requires Lawful(p) && Good(p, d) && ReadLog(p, d.log).Ok?
    ensures Backed(p, d, ReadLog(p, d.log).value) && Committed(p, d).Ok?
    ensures forall sha | sha in d.blobs :: EnvBytes(p, d, sha).Ok?
  {
    var records, tail :| Shaped(p, d.log, records, tail) && Backed(p, d, records);
    ReadShaped(p, d.log, records, tail);
    CommittedMeans(p, d, records, tail);
  }

  lemma GoodCommits(p: Platform, d: Disk)
    requires Lawful(p) && Good(p, d)
    ensures ReadLog(p, d.log).Ok? <==> Committed(p, d).Ok?
  {
    if ReadLog(p, d.log).Ok? {
      GoodReads(p, d);
    }
  }

  lemma BlobThere(p: Platform, d: Disk, name: string, sha: string)
    requires Lawful(p) && Good(p, d) && AlreadyLogged(p, d, name, sha)
    ensures EnvBytes(p, d, sha).Ok?
  {
    GoodReads(p, d);
    LastNamedAt(ReadLog(p, d.log).value, name);
    hide ReadLog, LastNamed, Lawful, Good;
  }

  /** On a sound disk whose log reads, an unchanged generation is confirmed, and its projection repaired. */
  lemma ConfirmMeans(p: Platform, d: Disk, name: string, text: Bytes, id: string, f: Fault)
    requires Lawful(p) && Good(p, d) && AlreadyLogged(p, d, name, p.sha(text))
    ensures var (d', r) := PutEnv(p, d, name, text, id, f);
            && d' == d.(projection := d'.projection) && Committed(p, d).Ok?
            && (r.Err? <==> Hits(f, true, true)) && (r.Err? ==> r.error == Io)
            && d'.projection == if r.Ok? || f == AtProjectionSync then Some(Committed(p, d).value.1) else d.projection
  {
    hide ReadLog, LastNamed, Refresh, Lawful, Good, Publish, Append, Committed, EnvBytes;
    GoodCommits(p, d);
    BlobThere(p, d, name, p.sha(text));
    RefreshMeans(p, d, f);
    assert f != AtRead && f != AtLogSync ==> PutEnv(p, d, name, text, id, f).1.Err? == Refresh(p, d, f).1.Some?;
  }

  /** What a put of a new generation that stopped at `f` has written. */
  function Left(p: Platform, d: Disk, name: string, text: Bytes, id: string, f: Fault): Bytes {
    match f
    case AtRead => []
    case AtBlobWrite => if p.sha(text) in d.blobs then Line(p, EnvRecord(id, p.sha(text), name)) else []
    case AtBlobSync => []
    case AtLogOpen => []
    case AtLogWrite(n) => Prefix(Line(p, EnvRecord(id, p.sha(text), name)), n)
    case _ => Line(p, EnvRecord(id, p.sha(text), name))
  }

  /**
   On a sound disk whose log reads, a put of a new generation fails exactly where a step of it
   is hit, always with an I/O error. The step decides what is in the log: nothing before the
   write, a torn line inside it, the generation from then on; and the projection is the new
   text exactly from its rename on.
   */
  lemma PutMeans(p: Platform, d: Disk, name: string, text: Bytes, id: string, f: Fault)
    requires Lawful(p) && Good(p, d) && ReadLog(p, d.log).Ok? && !AlreadyLogged(p, d, name, p.sha(text))
    ensures var (d', r) := PutEnv(p, d, name, text, id, f);
            && (r.Err? <==> Hits(f, false, p.sha(text) in d.blobs)) && (r.Err? ==> r.error == Io)
            && d'.log == d.log + Left(p, d, name, text, id, f)
            && if r.Ok? || f == AtProjectionSync then Committed(p, d').Ok? && d'.projection == Some(Committed(p, d').value.1)
               else d'.projection == d.projection
  {
    var sha, r := p.sha(text), EnvRecord(id, p.sha(text), name);
    var (d1, e1) := Publish(p, d, sha, text, f);
    var (d2, e2) := Append(p, d1, r, f);
    assert d.log + [] == d.log;
    hide ReadLog, LastNamed, Publish, Append, Refresh, Lawful, Good, Line, Committed, EnvBytes, Prefix;
    PublishMeans(p, d, text, f);
    AppendMeans(p, d1, r, f);
    if f != AtRead && e1.None? && e2.None? {
      LoggedIsServed(p, d, text, r, f);
      RefreshMeans(p, d2, f);
    }
  }

  lemma PublishMeans(p: Platform, d: Disk, text: Bytes, f: Fault)
    requires Lawful(p) && Good(p, d) && ReadLog(p, d.log).Ok?
    ensures var (d', e) := Publish(p, d, p.sha(text), text, f);
            && (e.Some? <==> (f == AtBlobWrite && p.sha(text) !in d.blobs) || f == AtBlobSync) && (e.Some? ==> e == Some(Io))
            && d' == d.(blobs := d'.blobs)
  {
    GoodReads(p, d);
    hide ReadLog, Lawful, Good, Committed;
  }

  lemma LoggedIsServed(p: Platform, d: Disk, text: Bytes, r: LogRecord, f: Fault)
    requires Lawful(p) && Good(p, d) && ReadLog(p, d.log).Ok? && r.sha256 == Some(p.sha(text))
    requires var (d1, e1) := Publish(p, d, p.sha(text), text, f); e1.None? && Append(p, d1, r, f).1.None?
    ensures Committed(p, Append(p, Publish(p, d, p.sha(text), text, f).0, r, f).0).Ok?
  {
    var d1 := Publish(p, d, p.sha(text), text, f).0;
    PublishGood(p, d, text, f);
    AppendMeans(p, d1, r, f);
    AppendGood(p, d1, r, f);
    AppendedReads(p, d.log, r);
    hide Publish, Append, Lawful, Good, Line, ReadLog, Committed;
    GoodReads(p, Append(p, d1, r, f).0);
  }

  /** So the stop decides what the next cite serves: the old generation, a refusal, or the new one. */
  lemma CiteAfterStop(p: Platform, d: Disk, name: string, text: Bytes, id: string, f: Fault)
    requires Lawful(p) && CollisionFree(p) && Good(p, d) && ReadLog(p, d.log).Ok? && !AlreadyLogged(p, d, name, p.sha(text))
    ensures var d' := PutEnv(p, d, name, text, id, f).0;
            var (left, whole) := (Left(p, d, name, text, id, f), Line(p, EnvRecord(id, p.sha(text), name)));
            Cite(p, d', NoFault) ==
            if left == [] then Cite(p, d, NoFault)
            else if left != whole then Err(IncompleteLog)
            else Ok((Some(EnvRecord(id, p.sha(text), name)), text))
  {
    var r := EnvRecord(id, p.sha(text), name);
    var d', left := PutEnv(p, d, name, text, id, f).0, Left(p, d, name, text, id, f);
    PutMeans(p, d, name, text, id, f);
    PutGood(p, d, name, text, id, f);
    BlobsBacked(p, d, name, text, id, f);
    var bytes := PutForm(p, d, name, text, id, f);
    assert bytes == left by {
      assert (d.log + bytes)[|d.log|..] == bytes && (d.log + left)[|d.log|..] == left;
    }
    GoodReads(p, d);
    hide PutEnv, Lawful, Good, Left;
    if left == [] {
      assert d'.log == d.log;
      SameCite(p, d, d');
    } else if left == Line(p, r) {
      AppendedReads(p, d.log, r);
      LastSnoc(ReadLog(p, d.log).value, r, "env", name);
      GoodReads(p, d');
      hide ReadLog, LastKind;
    } else {
      TornRefuses(p, d.log, r, left);
    }
  }

  lemma SameCite(p: Platform, d: Disk, d': Disk)
    requires d'.log == d.log && KeepsBlobs(d, d') && Committed(p, d).Ok?
    ensures Committed(p, d') == Committed(p, d)
  {
    hide ReadLog, LastKind;
  }

  /** A blob that lost its digest stops every put of its text, and is neither logged nor replaced. */
  lemma AlteredBlobRefuses(p: Platform, d: Disk, name: string, text: Bytes, id: string, f: Fault)
    requires p.sha(text) in d.blobs && p.sha(d.blobs[p.sha(text)]) != p.sha(text)
    ensures PutEnv(p, d, name, text, id, f).0 == d && PutEnv(p, d, name, text, id, f).1.Err?
  {
    hide ReadLog, LastNamed, Append, Refresh;
  }

  // ---------------------------------------------------------------- events and reopens

  /** An event that returns is in the log with its name and body; it fails exactly at the log's own steps. */
  lemma PushIsLogged(p: Platform, d: Disk, name: string, body: Bytes, id: string, f: Fault)
    requires Lawful(p)
    ensures var (d', e) := PushEvent(p, d, name, body, id, f);
            && (e.Some? <==> f == AtLogOpen || f.AtLogWrite? || f == AtLogSync)
            && d' == d.(log := d'.log)
            && (e.None? && ReadLog(p, d.log).Ok? ==>
                  ReadLog(p, d'.log) == Ok(ReadLog(p, d.log).value + [LogRecord(id, "event", Some(body), None, Some(name))]))
  {
    var r := LogRecord(id, "event", Some(body), None, Some(name));
    AppendMeans(p, d, r, f);
    hide Lawful, ReadLog, Line;
    if ReadLog(p, d.log).Ok? {
      AppendedReads(p, d.log, r);
    }
  }

  /** A reopen of a sound disk fails exactly when the log is torn or one of its own steps is hit; it only touches the projection. */
  lemma ReopenMeans(p: Platform, d: Disk, f: Fault)
    requires Lawful(p) && Good(p, d)
    ensures var (d', e) := Reopen(p, d, f);
            && (e.None? <==> ReadLog(p, d.log).Ok? && f !in {AtLogSync, AtProjectionWrite, AtProjectionSync})
            && d' == d.(projection := d'.projection)
            && if e.None? || (ReadLog(p, d.log).Ok? && f == AtProjectionSync)
               then Committed(p, d).Ok? && d'.projection == Some(Committed(p, d).value.1)
               else d'.projection == d.projection
  {
    hide Lawful, Good, Refresh, ReadLog, Committed;
    RefreshMeans(p, d, f);
    GoodCommits(p, d);
  }

  // ---------------------------------------------------------------- a generation stays

  /** Without another put, the log goes on with events only, or is torn. */
  ghost predicate Serves(p: Platform, d: Disk, r: LogRecord, text: Bytes) {
    Good(p, d) && (ReadLog(p, d.log).Ok? ==> Committed(p, d) == Ok((Some(r), text)))
  }

  lemma PushServes(p: Platform, d: Disk, op: Op, r: LogRecord, text: Bytes)
    requires Lawful(p) && Serves(p, d, r, text) && op.DoPush?
    ensures Serves(p, Apply(p, d, op), r, text)
  {
    hide Apply, Append, Shaped, ReadLog, LastKind, Lawful, Line, Backed;
    var e := LogRecord(op.id, "event", Some(op.body), None, Some(op.name));
    var d' := Apply(p, d, op);
    AppendGood(p, d, e, op.fault);
    PushForm(p, d, op);
    var bytes := AppendForm(p, d, e, op.fault);
    var records, tail :| Shaped(p, d.log, records, tail) && Backed(p, d, records);
    ReadShaped(p, d.log, records, tail);
    var records', tail' := AppendShaped(p, d.log, records, tail, e, bytes);
    ReadShaped(p, d'.log, records', tail');
    LastSnoc(records, e, "env", "");
    hide Good;
  }

  lemma {:induction false} ServedOn(p: Platform, d: Disk, ops: seq<Op>, r: LogRecord, text: Bytes)
    requires Lawful(p) && Serves(p, d, r, text) && forall k | 0 <= k < |ops| :: !ops[k].DoPut?
    ensures Serves(p, Run(p, d, ops), r, text)
    decreases |ops|
  {
    if ops != [] {
      var (init, op) := (ops[..|ops| - 1], ops[|ops| - 1]);
      ServedOn(p, d, init, r, text);
      var d1 := Run(p, d, init);
      if op.DoPush? {
        PushServes(p, d1, op, r, text);
      } else {
        RefreshGood(p, d1, op.fault);
        RefreshMeans(p, d1, op.fault);
        hide Refresh, ReadLog, Committed, Good;
      }
    }
  }

  /**
   After any run, a put of a new generation that returns: whatever events and reopens follow,
   stopped or failed at any step, a cite serves exactly that record and that text, or is
   refused because the log is torn.
   */
  lemma PutIsServed(p: Platform, before: seq<Op>, name: string, text: Bytes, id: string, f: Fault, between: seq<Op>)
    requires Lawful(p) && CollisionFree(p) && forall k | 0 <= k < |between| :: !between[k].DoPut?
    requires var d := Run(p, EMPTY, before); !AlreadyLogged(p, d, name, p.sha(text)) && PutEnv(p, d, name, text, id, f).1.Ok?
    ensures var d' := Run(p, PutEnv(p, Run(p, EMPTY, before), name, text, id, f).0, between);
            || Cite(p, d', NoFault) == Ok((Some(EnvRecord(id, p.sha(text), name)), text))
            || (Cite(p, d', NoFault).Err? && Cite(p, d', NoFault).error in {IncompleteLog, BadRecord})
  {
    hide Lawful, Run, PutEnv, Committed, ReadLog, Good, AlreadyLogged;
    var d := Run(p, EMPTY, before);
    var d1 := PutEnv(p, d, name, text, id, f).0;
    RunGood(p, before);
    PutGood(p, d, name, text, id, f);
    PutIsLogged(p, d, name, text, id, f);
    var r := EnvRecord(id, p.sha(text), name);
    ServedOn(p, d1, between, r, text);
    TornCites(p, Run(p, d1, between));
  }

  lemma TornCites(p: Platform, d: Disk)
    requires Lawful(p) && Good(p, d)
    ensures ReadLog(p, d.log).Err? ==> Committed(p, d).Err? && Committed(p, d).error in {IncompleteLog, BadRecord}
  {
    var records, tail :| Shaped(p, d.log, records, tail) && Backed(p, d, records);
    CommittedMeans(p, d, records, tail);
    ReadShaped(p, d.log, records, tail);
  }
}
