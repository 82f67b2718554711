/** What the environment ledger keeps through a failure at any step. */
module EnvLedgerRuns {
  import opened Basics
  import opened EnvLedgers

  // ---------------------------------------------------------------- the shape of the log

  function Lines(p: Platform, records: seq<LogRecord>): Bytes {
    if records == [] then [] else Lines(p, records[..|records| - 1]) + Line(p, records[|records| - 1])
  }

  /** A tail that no append repairs: an unfinished line, or a line that torn bytes spoiled. */
  ghost predicate Spoiled(p: Platform, tail: Bytes) {
    && |tail| > 0 && tail[0] == 123
    && match LineEnd(tail)
       case None => true
       case Some(end) => !Blank(tail[..end - 1]) && p.decode(tail[..end - 1]) == None
  }

  ghost predicate Shaped(p: Platform, log: Bytes, records: seq<LogRecord>, tail: Bytes) {
    log == Lines(p, records) + tail && (tail == [] || Spoiled(p, tail))
  }

  lemma LineEndNone(line: Bytes)
    ensures LineEnd(line).Some? ==> NEWLINE in line
  {
    if LineEnd(line).Some? {
      assert line[LineEnd(line).value - 1] == NEWLINE;
    }
  }

  lemma ReadOne(p: Platform, r: LogRecord, rest: Bytes)
    requires Lawful(p)
    ensures ReadLog(p, Line(p, r) + rest) ==
            match ReadLog(p, rest) case Err(e) => Err(e) case Ok(more) => Ok([r] + more)
  {
    var log := Line(p, r) + rest;
    LineEndAt(p.encode(r), rest);
    assert log == p.encode(r) + [NEWLINE] + rest;
    assert log[..|p.encode(r)|] == p.encode(r) && log[|p.encode(r)| + 1..] == rest;
    assert !Blank(p.encode(r)) by {
      assert !IsAsciiWhitespace(p.encode(r)[0]);
    }
  }

  lemma {:induction false} ReadLines(p: Platform, records: seq<LogRecord>, rest: Bytes)
    requires Lawful(p)
    ensures ReadLog(p, Lines(p, records) + rest) ==
            match ReadLog(p, rest) case Err(e) => Err(e) case Ok(more) => Ok(records + more)
    decreases |records|
  {
    hide ReadLog, Line;
    if records == [] {
      assert [] + rest == rest;
      assert ReadLog(p, rest).Ok? ==> [] + ReadLog(p, rest).value == ReadLog(p, rest).value;
    } else {
      var (init, last) := (records[..|records| - 1], records[|records| - 1]);
      ReadOne(p, last, rest);
      ReadLines(p, init, Line(p, last) + rest);
      assert Lines(p, records) + rest == Lines(p, init) + (Line(p, last) + rest);
      if ReadLog(p, rest).Ok? {
        assert init + ([last] + ReadLog(p, rest).value) == records + ReadLog(p, rest).value;
      }
    }
  }

  /** A log of that shape reads as its records, or is refused. */
  lemma ReadShaped(p: Platform, log: Bytes, records: seq<LogRecord>, tail: Bytes)
    requires Lawful(p) && Shaped(p, log, records, tail)
    ensures if tail == [] then ReadLog(p, log) == Ok(records) else ReadLog(p, log).Err? && ReadLog(p, log).error in {IncompleteLog, BadRecord}
  {
    ReadLines(p, records, tail);
    if tail == [] {
      assert records + [] == records;
    }
  }

  /** Any bytes that one append can leave. */
  lemma AppendShaped(p: Platform, log: Bytes, records: seq<LogRecord>, tail: Bytes, r: LogRecord, bytes: Bytes)
    returns (records': seq<LogRecord>, tail': Bytes)
    requires Lawful(p) && Shaped(p, log, records, tail) && bytes <= Line(p, r)
    ensures Shaped(p, log + bytes, records', tail')
    ensures if tail == [] && bytes == Line(p, r) then records' == records + [r] && tail' == []
            else records' == records && tail' == tail + bytes
  {
    hide Lawful, Spoiled;
    if tail == [] && bytes == Line(p, r) {
      records', tail' := records + [r], [];
      assert records'[..|records|] == records;
      assert Lines(p, records') == Lines(p, records) + Line(p, r);
      hide Lines, Line;
      assert log + bytes == Lines(p, records') + [];
    } else {
      records', tail' := records, tail + bytes;
      if tail' != [] {
        SpoiledStays(p, tail, r, bytes);
      }
      hide Lines, Line;
      assert log + bytes == Lines(p, records) + tail';
    }
  }

  lemma SpoiledStays(p: Platform, tail: Bytes, r: LogRecord, bytes: Bytes)
    requires Lawful(p) && (tail == [] || Spoiled(p, tail)) && bytes <= Line(p, r) && tail + bytes != []
    requires tail != [] || bytes != Line(p, r)
    ensures Spoiled(p, tail + bytes)
  {
    if tail != [] && LineEnd(tail).Some? {
      BadLineStays(p, tail, bytes);
    } else if bytes == Line(p, r) {
      FusedIsBad(p, tail, r);
    } else {
      OpenStaysOpen(p, tail, r, bytes);
    }
  }

  /** A bad first line stays the first line. */
  lemma BadLineStays(p: Platform, tail: Bytes, bytes: Bytes)
    requires Spoiled(p, tail) && LineEnd(tail).Some?
    ensures Spoiled(p, tail + bytes)
  {
    var end := LineEnd(tail).value;
    LineEndAt(tail[..end - 1], tail[end..] + bytes);
    assert tail + bytes == tail[..end - 1] + [NEWLINE] + (tail[end..] + bytes);
    assert (tail + bytes)[..end - 1] == tail[..end - 1];
  }

  lemma BadLineSpoils(p: Platform, line: Bytes)
    requires |line| > 0 && line[0] == 123 && NEWLINE !in line && p.decode(line) == None
    ensures Spoiled(p, line + [NEWLINE] + [])
  {
    LineEndAt(line, []);
    assert (line + [NEWLINE] + [])[..|line|] == line;
    assert !IsAsciiWhitespace(line[0]);
  }

  /** A record appended to torn bytes makes one line with them, and that line is bad. */
  lemma FusedIsBad(p: Platform, torn: Bytes, r: LogRecord)
    requires Lawful(p) && Spoiled(p, torn) && LineEnd(torn).None?
    ensures Spoiled(p, torn + Line(p, r))
  {
    var line := torn + p.encode(r);
    assert p.decode(line) == None && NEWLINE !in p.encode(r);
    hide Lawful;
    assert line[0] == 123 && NEWLINE !in line;
    assert torn + Line(p, r) == line + [NEWLINE] + [];
    BadLineSpoils(p, line);
  }

  lemma OpenStaysOpen(p: Platform, tail: Bytes, r: LogRecord, bytes: Bytes)
    requires Lawful(p) && bytes <= Line(p, r) && bytes != Line(p, r) && tail + bytes != []
    requires tail == [] || (Spoiled(p, tail) && LineEnd(tail).None?)
    ensures Spoiled(p, tail + bytes)
  {
    var line := p.encode(r);
    assert |bytes| <= |line|;
    forall i | 0 <= i < |bytes| ensures bytes[i] == line[i] {
      assert bytes[i] == Line(p, r)[i];
    }
    assert NEWLINE !in bytes && NEWLINE !in tail + bytes;
    LineEndNone(tail + bytes);
  }

  // ---------------------------------------------------------------- the invariant

  /** Each env record's blob is there, and each blob has its digest. */
  ghost predicate Backed(p: Platform, d: Disk, records: seq<LogRecord>) {
    && (forall sha | sha in d.blobs :: p.sha(d.blobs[sha]) == sha)
    && (forall i | 0 <= i < |records| && records[i].kind == "env" :: records[i].sha256.Some? && records[i].sha256.value in d.blobs)
  }

  ghost predicate Good(p: Platform, d: Disk) {
    exists records, tail :: Shaped(p, d.log, records, tail) && Backed(p, d, records)
  }

  lemma {:induction false} LastKindIn(records: seq<LogRecord>, kind: string)
    ensures LastKind(records, kind).Some? ==> LastKind(records, kind).value in records && LastKind(records, kind).value.kind == kind
    decreases |records|
  {
    if records != [] {
      LastKindIn(records[..|records| - 1], kind);
    }
  }

  /** On such a disk the committed environment is the last env record with its own text, or the log is refused. */
  lemma CommittedMeans(p: Platform, d: Disk, records: seq<LogRecord>, tail: Bytes)
    requires Lawful(p) && Shaped(p, d.log, records, tail) && Backed(p, d, records)
    ensures var last := LastKind(records, "env");
            if tail != [] then Committed(p, d).Err? && Committed(p, d).error in {IncompleteLog, BadRecord}
            else Committed(p, d) == if last.None? then Ok((None, [])) else
                   if last.value.sha256.Some? && last.value.sha256.value in d.blobs
                   then Ok((last, d.blobs[last.value.sha256.value])) else Err(InvalidEnv)
    ensures tail == [] ==> Committed(p, d).Ok?
  {
    ReadShaped(p, d.log, records, tail);
    LastKindIn(records, "env");
  }

  lemma RefreshGood(p: Platform, d: Disk, f: Fault)
    requires Good(p, d)
    ensures Good(p, Refresh(p, d, f).0) && Refresh(p, d, f).0.log == d.log && Refresh(p, d, f).0.blobs == d.blobs
  {
    var records, tail :| Shaped(p, d.log, records, tail) && Backed(p, d, records);
    assert Shaped(p, Refresh(p, d, f).0.log, records, tail) && Backed(p, Refresh(p, d, f).0, records);
  }

  lemma BackedFits(p: Platform, d: Disk, d': Disk, records: seq<LogRecord>, r: LogRecord)
    requires Backed(p, d, records) && d'.blobs == d.blobs && (r.kind == "env" ==> r.sha256.Some? && r.sha256.value in d.blobs)
    ensures Backed(p, d', records) && Backed(p, d', records + [r])
  {
  }

  lemma AppendGood(p: Platform, d: Disk, r: LogRecord, f: Fault)
    requires Lawful(p) && Good(p, d) && (r.kind == "env" ==> r.sha256.Some? && r.sha256.value in d.blobs)
    ensures Good(p, Append(p, d, r, f).0)
  {
    hide Append, Lawful, Line, Shaped, Backed;
    var records, tail :| Shaped(p, d.log, records, tail) && Backed(p, d, records);
    var bytes := AppendForm(p, d, r, f);
    var d' := d.(log := d.log + bytes);
    var records', tail' := AppendShaped(p, d.log, records, tail, r, bytes);
    BackedFits(p, d, d', records, r);
    assert Backed(p, d', records');
  }

  lemma PublishGood(p: Platform, d: Disk, text: Bytes, f: Fault)
    requires Good(p, d)
    ensures var (d', e) := Publish(p, d, p.sha(text), text, f);
            Good(p, d') && d'.log == d.log && d.blobs.Keys <= d'.blobs.Keys && (e.None? ==> p.sha(text) in d'.blobs)
  {
    var records, tail :| Shaped(p, d.log, records, tail) && Backed(p, d, records);
    var d' := Publish(p, d, p.sha(text), text, f).0;
    assert Shaped(p, d'.log, records, tail) && Backed(p, d', records);
  }

  lemma PutGood(p: Platform, d: Disk, name: string, text: Bytes, id: string, f: Fault)
    requires Lawful(p) && Good(p, d)
    ensures Good(p, PutEnv(p, d, name, text, id, f).0)
  {
    hide Good, Lawful, Append, Publish, Refresh, LastNamed, EnvBytes;
    var sha := p.sha(text);
    RefreshGood(p, d, f);
    PublishGood(p, d, text, f);
    var (d1, e1) := Publish(p, d, sha, text, f);
    if e1.None? {
      AppendGood(p, d1, EnvRecord(id, sha, name), f);
      RefreshGood(p, Append(p, d1, EnvRecord(id, sha, name), f).0, f);
    }
  }

  // ---------------------------------------------------------------- one put

  predicate KeepsBlobs(d: Disk, d': Disk) {
    forall sha | sha in d.blobs :: sha in d'.blobs && d'.blobs[sha] == d.blobs[sha]
  }

  predicate AlreadyLogged(p: Platform, d: Disk, name: string, sha: string) {
    ReadLog(p, d.log).Ok? &&
    var existing := LastNamed(ReadLog(p, d.log).value, "env", name);
    existing.Some? && existing.value.sha256 == Some(sha)
  }

  lemma RefreshForm(p: Platform, d: Disk, f: Fault)
    ensures Refresh(p, d, f).0.log == d.log && Refresh(p, d, f).0.blobs == d.blobs
  {
  }

  lemma PublishForm(p: Platform, d: Disk, sha: string, text: Bytes, f: Fault)
    ensures var (d', e) := Publish(p, d, sha, text, f); d'.log == d.log && KeepsBlobs(d, d') && (e.None? ==> sha in d'.blobs)
  {
  }

  lemma AppendForm(p: Platform, d: Disk, r: LogRecord, f: Fault) returns (bytes: Bytes)
    ensures Append(p, d, r, f).0 == d.(log := d.log + bytes) && bytes <= Line(p, r)
  {
    match f
    case AtLogOpen => bytes := []; assert d.log + [] == d.log;
    case AtLogWrite(n) => bytes := Prefix(Line(p, r), n);
    case _ => bytes := Line(p, r);
  }

  /** Any put leaves the log with some first bytes of one record, written only after its blob. */
  lemma PutForm(p: Platform, d: Disk, name: string, text: Bytes, id: string, f: Fault) returns (bytes: Bytes)
    ensures var d' := PutEnv(p, d, name, text, id, f).0;
            && d'.log == d.log + bytes && bytes <= Line(p, EnvRecord(id, p.sha(text), name))
            && KeepsBlobs(d, d')
            && (ReadLog(p, d.log).Err? ==> d' == d)
            && (bytes != [] ==> p.sha(text) in d'.blobs)
            && (AlreadyLogged(p, d, name, p.sha(text)) ==> bytes == [])
  {
    var sha, r := p.sha(text), EnvRecord(id, p.sha(text), name);
    var (d1, e1) := Publish(p, d, sha, text, f);
    PublishForm(p, d, sha, text, f);
    RefreshForm(p, d, f);
    var written := AppendForm(p, d1, r, f);
    RefreshForm(p, Append(p, d1, r, f).0, f);
    hide ReadLog, LastNamed, Line, Publish, Refresh, Append;
    bytes := if f == AtRead || ReadLog(p, d.log).Err? || AlreadyLogged(p, d, name, sha) || e1.Some? then [] else written;
    assert d.log + [] == d.log;
  }

  lemma {:induction false} LastSnoc(records: seq<LogRecord>, r: LogRecord, kind: string, name: string)
    ensures LastKind(records + [r], kind) == if r.kind == kind then Some(r) else LastKind(records, kind)
    ensures LastNamed(records + [r], kind, name) == if r.kind == kind && r.name == Some(name) then Some(r) else LastNamed(records, kind, name)
  {
    assert (records + [r])[..|records|] == records;
  }

  /**
   Wherever a put stops, a later cite is refused because the log is torn, or gives the old
   generation, or gives the new one with exactly the text that was put: never a blob that no
   record names.
   */
  lemma CiteAfterPut(p: Platform, d: Disk, name: string, text: Bytes, id: string, f: Fault)
    requires Lawful(p) && CollisionFree(p) && Good(p, d)
    ensures var d' := PutEnv(p, d, name, text, id, f).0;
            || (Committed(p, d').Err? && Committed(p, d').error in {IncompleteLog, BadRecord})
            || Committed(p, d') == Committed(p, d)
            || Committed(p, d') == Ok((Some(EnvRecord(id, p.sha(text), name)), text))
  {
    hide PutEnv, Committed, Lawful, ReadLog, Shaped;
    var records, tail :| Shaped(p, d.log, records, tail) && Backed(p, d, records);
    var d' := PutEnv(p, d, name, text, id, f).0;
    var r := EnvRecord(id, p.sha(text), name);
    PutGood(p, d, name, text, id, f);
    var bytes := PutForm(p, d, name, text, id, f);
    BlobsBacked(p, d, name, text, id, f);
    ReadShaped(p, d.log, records, tail);
    CommittedMeans(p, d, records, tail);
    if tail == [] {
      var records', tail' := AppendShaped(p, d.log, records, tail, r, bytes);
      LastSnoc(records, r, "env", name);
      LastKindIn(records, "env");
      CommittedMeans(p, d', records', tail');
    } else {
      assert d' == d;
    }
  }

  /** A put changes the blobs at most by its publication. */
  lemma PutBlobs(p: Platform, d: Disk, name: string, text: Bytes, id: string, f: Fault)
    ensures var blobs := PutEnv(p, d, name, text, id, f).0.blobs;
            blobs == d.blobs || blobs == Publish(p, d, p.sha(text), text, f).0.blobs
  {
    var sha, r := p.sha(text), EnvRecord(id, p.sha(text), name);
    var d1 := Publish(p, d, sha, text, f).0;
    RefreshForm(p, d, f);
    var written := AppendForm(p, d1, r, f);
    RefreshForm(p, Append(p, d1, r, f).0, f);
    hide Publish, Refresh, Append, ReadLog, LastNamed, EnvBytes, Line;
  }

  lemma BlobsBacked(p: Platform, d: Disk, name: string, text: Bytes, id: string, f: Fault)
    requires forall sha | sha in d.blobs :: p.sha(d.blobs[sha]) == sha
    ensures var d' := PutEnv(p, d, name, text, id, f).0; forall sha | sha in d'.blobs :: p.sha(d'.blobs[sha]) == sha
  {
    hide PutEnv;
    PutBlobs(p, d, name, text, id, f);
  }

  /** A put that returns has the log name its text, and the projection repeats what the log commits. */
  lemma PutCompletes(p: Platform, d: Disk, name: string, text: Bytes, id: string, f: Fault)
    requires PutEnv(p, d, name, text, id, f).1.Ok?
    ensures var (d', r) := PutEnv(p, d, name, text, id, f);
            && r.value.sha256 == Some(p.sha(text))
            && Committed(p, d').Ok? && d'.projection == Some(Committed(p, d').value.1)
  {
    hide ReadLog, LastNamed, LastKind, Line;
  }

  lemma ReopenCompletes(p: Platform, d: Disk, f: Fault)
    requires Reopen(p, d, f).1.None?
    ensures var d' := Reopen(p, d, f).0;
            d'.log == d.log && Committed(p, d').Ok? && d'.projection == Some(Committed(p, d').value.1)
  {
  }

  // ---------------------------------------------------------------- whole runs

  datatype Op =
    | DoPut(name: string, text: Bytes, id: string, fault: Fault)
    | DoPush(name: string, body: Bytes, id: string, fault: Fault)
    | DoReopen(fault: Fault)

  function Apply(p: Platform, d: Disk, op: Op): Disk {
    match op
    case DoPut(name, text, id, f) => PutEnv(p, d, name, text, id, f).0
    case DoPush(name, body, id, f) => PushEvent(p, d, name, body, id, f).0
    case DoReopen(f) => Reopen(p, d, f).0
  }

  function Run(p: Platform, d: Disk, ops: seq<Op>): Disk {
    if ops == [] then d else Apply(p, Run(p, d, ops[..|ops| - 1]), ops[|ops| - 1])
  }

  /** The record of some put of the run. */
  predicate FromPut(p: Platform, ops: seq<Op>, r: LogRecord) {
    exists k | 0 <= k < |ops| :: ops[k].DoPut? && r == EnvRecord(ops[k].id, p.sha(ops[k].text), ops[k].name)
  }

  ghost predicate Traced(p: Platform, d: Disk, ops: seq<Op>) {
    exists records, tail :: Shaped(p, d.log, records, tail) && Backed(p, d, records) && AllFrom(p, ops, records)
  }

  ghost predicate AllFrom(p: Platform, ops: seq<Op>, records: seq<LogRecord>) {
    forall i | 0 <= i < |records| && records[i].kind == "env" :: FromPut(p, ops, records[i])
  }

  lemma AllFromGrows(p: Platform, ops: seq<Op>, op: Op, records: seq<LogRecord>)
    requires AllFrom(p, ops, records)
    ensures AllFrom(p, ops + [op], records)
  {
    forall i | 0 <= i < |records| && records[i].kind == "env" ensures FromPut(p, ops + [op], records[i]) {
      var k :| 0 <= k < |ops| && ops[k].DoPut? && records[i] == EnvRecord(ops[k].id, p.sha(ops[k].text), ops[k].name);
      assert (ops + [op])[k] == ops[k];
    }
  }

  lemma PutTraced(p: Platform, d: Disk, ops: seq<Op>, op: Op)
    requires Lawful(p) && Traced(p, d, ops) && op.DoPut?
    ensures Traced(p, Apply(p, d, op), ops + [op])
  {
    hide Lawful, Shaped, AllFrom, PutEnv;
    var records, tail :| Shaped(p, d.log, records, tail) && Backed(p, d, records) && AllFrom(p, ops, records);
    var d' := PutEnv(p, d, op.name, op.text, op.id, op.fault).0;
    var r := EnvRecord(op.id, p.sha(op.text), op.name);
    var bytes := PutForm(p, d, op.name, op.text, op.id, op.fault);
    BlobsBacked(p, d, op.name, op.text, op.id, op.fault);
    hide Line;
    var records', tail' := AppendShaped(p, d.log, records, tail, r, bytes);
    AllFromGrows(p, ops, op, records);
    PutFits(p, ops, op, records);
    assert Backed(p, d', records');
  }

  lemma PutFits(p: Platform, ops: seq<Op>, op: Op, records: seq<LogRecord>)
    requires op.DoPut? && AllFrom(p, ops + [op], records)
    ensures AllFrom(p, ops + [op], records + [EnvRecord(op.id, p.sha(op.text), op.name)])
  {
    assert FromPut(p, ops + [op], EnvRecord(op.id, p.sha(op.text), op.name)) by {
      assert (ops + [op])[|ops|] == op;
    }
    hide FromPut;
  }

  lemma PushForm(p: Platform, d: Disk, op: Op)
    requires op.DoPush?
    ensures Apply(p, d, op) == Append(p, d, LogRecord(op.id, "event", Some(op.body), None, Some(op.name)), op.fault).0
  {
  }

  lemma EventFits(p: Platform, ops: seq<Op>, records: seq<LogRecord>, r: LogRecord)
    requires AllFrom(p, ops, records) && r.kind != "env"
    ensures AllFrom(p, ops, records + [r])
  {
    hide FromPut;
  }

  lemma PushTraced(p: Platform, d: Disk, ops: seq<Op>, op: Op)
    requires Lawful(p) && Traced(p, d, ops) && op.DoPush?
    ensures Traced(p, Apply(p, d, op), ops + [op])
  {
    hide Append, Lawful, Line, Shaped, Backed, AllFrom, FromPut;
    var records, tail :| Shaped(p, d.log, records, tail) && Backed(p, d, records) && AllFrom(p, ops, records);
    var r := LogRecord(op.id, "event", Some(op.body), None, Some(op.name));
    var bytes := AppendForm(p, d, r, op.fault);
    PushForm(p, d, op);
    hide Apply;
    var records', tail' := AppendShaped(p, d.log, records, tail, r, bytes);
    AllFromGrows(p, ops, op, records);
    EventFits(p, ops + [op], records, r);
    BackedFits(p, d, d.(log := d.log + bytes), records, r);
  }

  lemma ReopenTraced(p: Platform, d: Disk, ops: seq<Op>, op: Op)
    requires Traced(p, d, ops) && op.DoReopen?
    ensures Traced(p, Apply(p, d, op), ops + [op])
  {
    RefreshForm(p, d, op.fault);
    hide Refresh, Shaped, AllFrom;
    var records, tail :| Shaped(p, d.log, records, tail) && Backed(p, d, records) && AllFrom(p, ops, records);
    AllFromGrows(p, ops, op, records);
    assert Backed(p, Apply(p, d, op), records);
  }

  lemma {:induction false} RunTraced(p: Platform, ops: seq<Op>)
    requires Lawful(p)
    ensures Traced(p, Run(p, EMPTY, ops), ops)
    decreases |ops|
  {
    if ops == [] {
      assert Shaped(p, EMPTY.log, [], []) && Backed(p, EMPTY, []) && AllFrom(p, ops, []);
    } else {
      hide Lawful, Traced, Apply;
      var (init, op) := (ops[..|ops| - 1], ops[|ops| - 1]);
      var d := Run(p, EMPTY, init);
      RunTraced(p, init);
      assert ops == init + [op];
      match op {
        case DoPut(_, _, _, _) => PutTraced(p, d, init, op);
        case DoPush(_, _, _, _) => PushTraced(p, d, init, op);
        case DoReopen(_) => ReopenTraced(p, d, init, op);
      }
    }
  }

  /**
   Over every run of puts, events and reopens, each stopped or failed at any step, a cite is
   refused because the log is torn, or finds no generation and gives the empty text, or gives
   a generation that some put of the run recorded, with exactly the text of that put.
   */
  lemma {:induction false} CiteIsSomePut(p: Platform, ops: seq<Op>)
    requires Lawful(p) && CollisionFree(p)
    ensures var c := Committed(p, Run(p, EMPTY, ops));
            || (c.Err? && c.error in {IncompleteLog, BadRecord})
            || c == Ok((None, []))
            || exists k | 0 <= k < |ops| :: ops[k].DoPut? && c == Ok((Some(EnvRecord(ops[k].id, p.sha(ops[k].text), ops[k].name)), ops[k].text))
  {
    var d := Run(p, EMPTY, ops);
    RunTraced(p, ops);
    hide Run, Committed, Lawful;
    var records, tail :| Shaped(p, d.log, records, tail) && Backed(p, d, records) && AllFrom(p, ops, records);
    CommittedMeans(p, d, records, tail);
    LastKindIn(records, "env");
    var last := LastKind(records, "env");
    if tail == [] && last.Some? {
      assert FromPut(p, ops, last.value);
      var k :| 0 <= k < |ops| && ops[k].DoPut? && last.value == EnvRecord(ops[k].id, p.sha(ops[k].text), ops[k].name);
      assert p.sha(d.blobs[p.sha(ops[k].text)]) == p.sha(ops[k].text);
    }
  }

  /** Every disk that a run reaches is good, so what holds of one put holds after any run. */
  lemma {:induction false} RunGood(p: Platform, ops: seq<Op>)
    requires Lawful(p)
    ensures Good(p, Run(p, EMPTY, ops))
  {
    RunTraced(p, ops);
    hide Run;
    var records, tail :| Shaped(p, Run(p, EMPTY, ops).log, records, tail) && Backed(p, Run(p, EMPTY, ops), records) && AllFrom(p, ops, records);
  }

  // ---------------------------------------------------------------- generations of one name

  /** The latest generation of the name has that digest, or the log takes no more records. */
  ghost predicate Logged(p: Platform, d: Disk, name: string, sha: string) {
    exists records, tail :: Shaped(p, d.log, records, tail) && (tail != [] || Names(LastNamed(records, "env", name), sha))
  }

  predicate Names(r: Option<LogRecord>, sha: string) {
    r.Some? && r.value.sha256 == Some(sha)
  }

  /** An append under another name, or of another kind, leaves it so. */
  lemma AppendLogged(p: Platform, d: Disk, name: string, sha: string, r: LogRecord, bytes: Bytes)
    requires Lawful(p) && Logged(p, d, name, sha) && bytes <= Line(p, r)
    requires r.kind == "env" && r.name == Some(name) ==> r.sha256 == Some(sha)
    ensures Logged(p, d.(log := d.log + bytes), name, sha)
  {
    hide Lawful, Shaped, Line;
    var records, tail :| Shaped(p, d.log, records, tail) && (tail != [] || Names(LastNamed(records, "env", name), sha));
    var records', tail' := AppendShaped(p, d.log, records, tail, r, bytes);
    LastSnoc(records, r, "env", name);
  }

  predicate SameText(p: Platform, op: Op, name: string, text: Bytes) {
    op.DoPut? && op.name == name ==> p.sha(op.text) == p.sha(text)
  }

  lemma ApplyLogged(p: Platform, d: Disk, op: Op, name: string, text: Bytes)
    requires Lawful(p) && Logged(p, d, name, p.sha(text)) && SameText(p, op, name, text)
    ensures Logged(p, Apply(p, d, op), name, p.sha(text))
  {
    match op {
      case DoPut(n, t, id, f) =>
        var bytes := PutForm(p, d, n, t, id, f);
        hide PutEnv, Lawful, Line;
        AppendLogged(p, d, name, p.sha(text), EnvRecord(id, p.sha(t), n), bytes);
      case DoPush(n, body, id, f) =>
        var bytes := AppendForm(p, d, LogRecord(id, "event", Some(body), None, Some(n)), f);
        hide Append, Lawful, Line;
        AppendLogged(p, d, name, p.sha(text), LogRecord(id, "event", Some(body), None, Some(n)), bytes);
      case DoReopen(f) =>
        RefreshForm(p, d, f);
        hide Refresh, Shaped, LastNamed;
    }
  }

  lemma {:induction false} RunLogged(p: Platform, d: Disk, ops: seq<Op>, name: string, text: Bytes)
    requires Lawful(p) && Logged(p, d, name, p.sha(text)) && forall k | 0 <= k < |ops| :: SameText(p, ops[k], name, text)
    ensures Logged(p, Run(p, d, ops), name, p.sha(text))
    decreases |ops|
  {
    hide Lawful, Logged, Apply, SameText;
    if ops != [] {
      RunLogged(p, d, ops[..|ops| - 1], name, text);
      ApplyLogged(p, Run(p, d, ops[..|ops| - 1]), ops[|ops| - 1], name, text);
    }
  }

  /** While it is so, a put of the same text under the name adds nothing to the log. */
  lemma LoggedIsFinal(p: Platform, d: Disk, name: string, text: Bytes, id: string, f: Fault)
    requires Lawful(p) && Logged(p, d, name, p.sha(text))
    ensures PutEnv(p, d, name, text, id, f).0.log == d.log
  {
    var records, tail :| Shaped(p, d.log, records, tail) && (tail != [] || Names(LastNamed(records, "env", name), p.sha(text)));
    ReadShaped(p, d.log, records, tail);
    var bytes := PutForm(p, d, name, text, id, f);
    hide PutEnv, Lawful, Shaped, ReadLog, LastNamed, Line;
    if tail == [] {
      assert AlreadyLogged(p, d, name, p.sha(text));
      assert d.log + [] == d.log;
    }
  }

  lemma PutLogged(p: Platform, d: Disk, name: string, text: Bytes, id: string, f: Fault)
    requires Lawful(p) && Good(p, d)
    ensures var d' := PutEnv(p, d, name, text, id, f).0; d'.log == d.log || Logged(p, d', name, p.sha(text))
  {
    var records, tail :| Shaped(p, d.log, records, tail) && Backed(p, d, records);
    var r := EnvRecord(id, p.sha(text), name);
    var bytes := PutForm(p, d, name, text, id, f);
    ReadShaped(p, d.log, records, tail);
    hide PutEnv, Lawful, ReadLog, Shaped, Backed, LastNamed, Line;
    if bytes != [] {
      assert tail == [];
      var records', tail' := AppendShaped(p, d.log, records, tail, r, bytes);
      LastSnoc(records, r, "env", name);
    } else {
      assert d.log + [] == d.log;
    }
  }

  /**
   After a put that wrote anything, finished or not, putting the same text under the same name
   never adds a generation, whatever events, reopens and puts come in between, stopped or failed
   at any step, as long as none of them puts another text under that name.
   */
  lemma RetryLogsOnce(p: Platform, before: seq<Op>, name: string, text: Bytes, id: string, f: Fault, between: seq<Op>, again: string, g: Fault)
    requires Lawful(p) && forall k | 0 <= k < |between| :: SameText(p, between[k], name, text)
    ensures var d := Run(p, EMPTY, before);
            var d1 := PutEnv(p, d, name, text, id, f).0;
            var d2 := Run(p, d1, between);
            d1.log == d.log || PutEnv(p, d2, name, text, again, g).0.log == d2.log
  {
    hide Lawful, Run, PutEnv, Logged, SameText;
    var d := Run(p, EMPTY, before);
    var d1 := PutEnv(p, d, name, text, id, f).0;
    RunGood(p, before);
    PutLogged(p, d, name, text, id, f);
    if d1.log != d.log {
      RunLogged(p, d1, between, name, text);
      LoggedIsFinal(p, Run(p, d1, between), name, text, again, g);
    }
  }

  predicate SameName(a: LogRecord, b: LogRecord) {
    a.kind == "env" && b.kind == "env" && a.name == b.name
  }

  /** Another generation of the name stands between. */
  ghost predicate Parted(records: seq<LogRecord>, i: int, j: int)
    requires 0 <= i < j < |records|
  {
    exists k | i < k < j :: SameName(records[k], records[j]) && records[k].sha256 != records[j].sha256
  }

  /** Two equal generations of one name never stand next to each other. */
  ghost predicate Alternate(records: seq<LogRecord>) {
    forall i, j | 0 <= i < j < |records| && SameName(records[i], records[j]) && records[i].sha256 == records[j].sha256 ::
      Parted(records, i, j)
  }

  lemma {:induction false} LastNamedAt(records: seq<LogRecord>, name: string)
    ensures match LastNamed(records, "env", name)
            case None => forall i | 0 <= i < |records| :: records[i].kind == "env" ==> records[i].name != Some(name)
            case Some(r) => exists k | 0 <= k < |records| :: records[k] == r && r.kind == "env" && r.name == Some(name)
                                                     && forall i | k < i < |records| :: records[i].kind == "env" ==> records[i].name != Some(name)
    decreases |records|
  {
    if records != [] {
      var n := |records| - 1;
      LastNamedAt(records[..n], name);
      assert forall i | 0 <= i < n :: records[..n][i] == records[i];
      if !(records[n].kind == "env" && records[n].name == Some(name)) && LastNamed(records[..n], "env", name).Some? {
        var r := LastNamed(records[..n], "env", name).value;
        var k :| 0 <= k < n && records[..n][k] == r && r.kind == "env" && r.name == Some(name)
                 && forall i | k < i < n :: records[..n][i].kind == "env" ==> records[..n][i].name != Some(name);
        assert records[k] == r;
      }
    }
  }

  lemma PartedGrows(records: seq<LogRecord>, r: LogRecord, i: int, j: int)
    requires 0 <= i < j < |records| && Parted(records, i, j)
    ensures Parted(records + [r], i, j)
  {
    var k :| i < k < j && SameName(records[k], records[j]) && records[k].sha256 != records[j].sha256;
    assert (records + [r])[k] == records[k];
  }

  /** The last generation of the name is another one, so it parts the new one from all before it. */
  lemma PartedLast(records: seq<LogRecord>, r: LogRecord, i: int)
    requires 0 <= i < |records| && SameName(records[i], r) && r.name.Some? && records[i].sha256 == r.sha256
    requires LastNamed(records, "env", r.name.value).Some? ==> LastNamed(records, "env", r.name.value).value.sha256 != r.sha256
    ensures Parted(records + [r], i, |records|)
  {
    var name := r.name.value;
    LastNamedAt(records, name);
    hide LastNamed;
    var last := LastNamed(records, "env", name).value;
    var k :| 0 <= k < |records| && records[k] == last && last.kind == "env" && last.name == Some(name)
             && forall i | k < i < |records| :: records[i].kind == "env" ==> records[i].name != Some(name);
    assert (records + [r])[k] == records[k];
  }

  lemma AlternateSnoc(records: seq<LogRecord>, r: LogRecord)
    requires Alternate(records) && (r.kind == "env" ==> r.name.Some?)
    requires r.kind == "env" && LastNamed(records, "env", r.name.value).Some? ==> LastNamed(records, "env", r.name.value).value.sha256 != r.sha256
    ensures Alternate(records + [r])
  {
    hide Parted, LastNamed;
    var more := records + [r];
    forall i, j | 0 <= i < j < |more| && SameName(more[i], more[j]) && more[i].sha256 == more[j].sha256 ensures Parted(more, i, j) {
      if j < |records| {
        PartedGrows(records, r, i, j);
      } else {
        PartedLast(records, r, i);
      }
    }
  }

  ghost predicate InTurns(p: Platform, d: Disk) {
    exists records, tail :: Shaped(p, d.log, records, tail) && Alternate(records)
  }

  lemma ApplyInTurns(p: Platform, d: Disk, op: Op)
    requires Lawful(p) && InTurns(p, d)
    ensures InTurns(p, Apply(p, d, op))
  {
    var records, tail :| Shaped(p, d.log, records, tail) && Alternate(records);
    match op {
      case DoPut(name, text, id, f) =>
        var r := EnvRecord(id, p.sha(text), name);
        var bytes := PutForm(p, d, name, text, id, f);
        ReadShaped(p, d.log, records, tail);
        hide PutEnv, Lawful, ReadLog, Shaped, LastNamed, Line, Alternate;
        var records', tail' := AppendShaped(p, d.log, records, tail, r, bytes);
        if records' != records && bytes != [] {
          AlternateSnoc(records, r);
        }
      case DoPush(name, body, id, f) =>
        var r := LogRecord(id, "event", Some(body), None, Some(name));
        var bytes := AppendForm(p, d, r, f);
        hide Append, Lawful, Shaped, Line, Alternate;
        var records', tail' := AppendShaped(p, d.log, records, tail, r, bytes);
        AlternateSnoc(records, r);
      case DoReopen(f) =>
        RefreshForm(p, d, f);
        hide Refresh, Shaped, Alternate;
    }
  }

  lemma {:induction false} RunInTurns(p: Platform, ops: seq<Op>)
    requires Lawful(p)
    ensures InTurns(p, Run(p, EMPTY, ops))
    decreases |ops|
  {
    if ops == [] {
      assert Shaped(p, EMPTY.log, [], []) && Alternate([]);
    } else {
      RunInTurns(p, ops[..|ops| - 1]);
      hide Lawful, InTurns, Apply;
      ApplyInTurns(p, Run(p, EMPTY, ops[..|ops| - 1]), ops[|ops| - 1]);
    }
  }

  /** After every run, a log that can be read never holds one generation of a name twice without another between. */
  lemma {:induction false} GenerationsAlternate(p: Platform, ops: seq<Op>)
    requires Lawful(p) && ReadLog(p, Run(p, EMPTY, ops).log).Ok?
    ensures Alternate(ReadLog(p, Run(p, EMPTY, ops).log).value)
  {
    RunInTurns(p, ops);
    hide Run, Lawful, Alternate;
    var records, tail :| Shaped(p, Run(p, EMPTY, ops).log, records, tail) && Alternate(records);
    ReadShaped(p, Run(p, EMPTY, ops).log, records, tail);
  }
}
