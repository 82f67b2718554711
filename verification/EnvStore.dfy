/** The workspace ledger as the object that writes the log, the blobs and the projection. */
module EnvStores {
  import opened Basics
  import opened EnvLedgers

  /** A reading that continues after these records. */
  function After(records: seq<LogRecord>, read: Result<seq<LogRecord>, Error>): Result<seq<LogRecord>, Error> {
    match read
    case Err(e) => Err(e)
    case Ok(rest) => Ok(records + rest)
  }

  lemma ReadStep(p: Platform, log: Bytes, end: nat, records: seq<LogRecord>)
    requires log != [] && LineEnd(log) == Some(end)
    ensures After(records, ReadLog(p, log)) ==
            if Blank(log[..end - 1]) then After(records, ReadLog(p, log[end..]))
            else match p.decode(log[..end - 1])
              case None => Err(BadRecord)
              case Some(r) => After(records + [r], ReadLog(p, log[end..]))
  {
    var decoded := p.decode(log[..end - 1]);
    if !Blank(log[..end - 1]) && decoded.Some? && ReadLog(p, log[end..]).Ok? {
      var rest := ReadLog(p, log[end..]).value;
      assert records + ([decoded.value] + rest) == records + [decoded.value] + rest;
    }
  }

  lemma ReadStart(p: Platform, log: Bytes)
    ensures After([], ReadLog(p, log)) == ReadLog(p, log)
  {
    var read := ReadLog(p, log);
    hide ReadLog;
    assert read.Ok? ==> [] + read.value == read.value;
  }

  lemma ReadOpen(p: Platform, rest: Bytes, records: seq<LogRecord>)
    requires rest != [] && LineEnd(rest).None?
    ensures After(records, ReadLog(p, rest)) == Err(IncompleteLog)
  {
  }

  lemma ReadEnd(p: Platform, records: seq<LogRecord>)
    ensures After(records, ReadLog(p, [])) == Ok(records)
  {
    assert records + [] == records;
  }

  class EnvStore {
    const platform: Platform
    var log: Bytes
    var blobs: map<string, Bytes>
    var projection: Option<Bytes>

    function View(): Disk
      reads this
    {
      Disk(log, blobs, projection)
    }

    /** A new workspace directory. */
    constructor (platform: Platform)
      ensures this.platform == platform && View() == EMPTY
    {
      this.platform := platform;
      log, blobs, projection := [], map[], None;
    }

    /** Reads line by line; the first line that is cut off or does not decode refuses the log. */
    method Read() returns (r: Result<seq<LogRecord>, Error>)
      ensures r == ReadLog(platform, log)
    {
      hide ReadLog, After, Blank;
      var records: seq<LogRecord> := [];
      var start := 0;
      assert log[0..] == log;
      ReadStart(platform, log);
      while start < |log|
        invariant start <= |log|
        invariant ReadLog(platform, log) == After(records, ReadLog(platform, log[start..]))
      {
        var rest := log[start..];
        var end := LineEnd(rest);
        if end.None? {
          ReadOpen(platform, rest, records);
          return Err(IncompleteLog);
        }
        ReadStep(platform, rest, end.value, records);
        assert rest[end.value..] == log[start + end.value..];
        var line := rest[..end.value - 1];
        if !Blank(line) {
          var decoded := platform.decode(line);
          if decoded.None? {
            return Err(BadRecord);
          }
          records := records + [decoded.value];
        }
        start := start + end.value;
      }
      assert log[start..] == [];
      ReadEnd(platform, records);
      return Ok(records);
    }

    method FindKind(records: seq<LogRecord>, kind: string) returns (found: Option<LogRecord>)
      ensures found == LastKind(records, kind)
    {
      var i := |records|;
      assert records[..i] == records;
      while i > 0
        invariant 0 <= i <= |records|
        invariant LastKind(records, kind) == LastKind(records[..i], kind)
      {
        i := i - 1;
        assert records[..i + 1][..i] == records[..i];
        if records[i].kind == kind {
          return Some(records[i]);
        }
      }
      return None;
    }

    method FindNamed(records: seq<LogRecord>, kind: string, name: string) returns (found: Option<LogRecord>)
      ensures found == LastNamed(records, kind, name)
    {
      var i := |records|;
      assert records[..i] == records;
      while i > 0
        invariant 0 <= i <= |records|
        invariant LastNamed(records, kind, name) == LastNamed(records[..i], kind, name)
      {
        i := i - 1;
        assert records[..i + 1][..i] == records[..i];
        if records[i].kind == kind && records[i].name == Some(name) {
          return Some(records[i]);
        }
      }
      return None;
    }

    method ReadBlob(sha: string) returns (r: Result<Bytes, Error>)
      ensures r == EnvBytes(platform, View(), sha)
    {
      if sha !in blobs {
        return Err(Io);
      }
      var bytes := blobs[sha];
      if platform.sha(bytes) != sha {
        return Err(InvalidEnv);
      }
      return Ok(bytes);
    }

    method CommittedEnv() returns (r: Result<(Option<LogRecord>, Bytes), Error>)
      ensures r == Committed(platform, View())
    {
      var read := Read();
      if read.Err? {
        return Err(read.error);
      }
      var last := FindKind(read.value, "env");
      if last.None? {
        return Ok((None, []));
      }
      if last.value.sha256.None? {
        return Err(InvalidEnv);
      }
      var text := ReadBlob(last.value.sha256.value);
      if text.Err? {
        return Err(text.error);
      }
      return Ok((last, text.value));
    }

    method PublishBlob(sha: string, text: Bytes, f: Fault) returns (error: Option<Error>)
      modifies this`blobs
      ensures (View(), error) == Publish(platform, old(View()), sha, text, f)
    {
      if sha in blobs {
        var checked := ReadBlob(sha);
        if checked.Err? {
          return Some(checked.error);
        }
        return if f == AtBlobSync then Some(Io) else None;
      }
      if f == AtBlobWrite {
        return Some(Io);
      }
      blobs := blobs[sha := text];
      return if f == AtBlobSync then Some(Io) else None;
    }

    method AppendRecord(r: LogRecord, f: Fault) returns (error: Option<Error>)
      modifies this`log
      ensures (View(), error) == Append(platform, old(View()), r, f)
    {
      if f == AtLogOpen {
        return Some(Io);
      }
      var line := platform.encode(r) + [NEWLINE];
      if f.AtLogWrite? {
        log := log + Prefix(line, f.written);
        return Some(Io);
      }
      log := log + line;
      return if f == AtLogSync then Some(Io) else None;
    }

    method RefreshProjection(f: Fault) returns (error: Option<Error>)
      modifies this`projection
      ensures (View(), error) == Refresh(platform, old(View()), f)
      ensures error.None? ==> Committed(platform, View()).Ok? && projection == Some(Committed(platform, View()).value.1)
      ensures projection == old(projection) || (Committed(platform, View()).Ok? && projection == Some(Committed(platform, View()).value.1))
    {
      var committed := CommittedEnv();
      if committed.Err? {
        return Some(committed.error);
      }
      if f == AtProjectionWrite {
        return Some(Io);
      }
      projection := Some(committed.value.1);
      return if f == AtProjectionSync then Some(Io) else None;
    }

    method PutEnv(name: string, text: Bytes, id: string, f: Fault) returns (r: Result<LogRecord, Error>)
      modifies this
      ensures (View(), r) == EnvLedgers.PutEnv(platform, old(View()), name, text, id, f)
    {
      hide ReadLog, LastNamed, Publish, Append, Refresh;
      var sha := platform.sha(text);
      if f == AtRead {
        return Err(Io);
      }
      var read := Read();
      if read.Err? {
        return Err(read.error);
      }
      var existing := FindNamed(read.value, "env", name);
      if existing.Some? && existing.value.sha256 == Some(sha) {
        var checked := ReadBlob(sha);
        if checked.Err? {
          return Err(checked.error);
        }
        if f == AtLogSync {
          return Err(Io);
        }
        var refreshed := RefreshProjection(f);
        return if refreshed.Some? then Err(refreshed.value) else Ok(existing.value);
      }
      var published := PublishBlob(sha, text, f);
      if published.Some? {
        return Err(published.value);
      }
      var record := EnvRecord(id, sha, name);
      var appended := AppendRecord(record, f);
      if appended.Some? {
        return Err(appended.value);
      }
      var refreshed := RefreshProjection(f);
      return if refreshed.Some? then Err(refreshed.value) else Ok(record);
    }

    method PushEvent(name: string, body: Bytes, id: string, f: Fault) returns (error: Option<Error>)
      modifies this`log
      ensures (View(), error) == EnvLedgers.PushEvent(platform, old(View()), name, body, id, f)
    {
      error := AppendRecord(LogRecord(id, "event", Some(body), None, Some(name)), f);
    }

    method Cite(f: Fault) returns (r: Result<(Option<LogRecord>, Bytes), Error>)
      ensures r == EnvLedgers.Cite(platform, View(), f)
    {
      if f == AtRead {
        return Err(Io);
      }
      r := CommittedEnv();
    }

    method Reopen(f: Fault) returns (error: Option<Error>)
      modifies this`projection
      ensures (View(), error) == EnvLedgers.Reopen(platform, old(View()), f)
    {
      if f == AtLogSync {
        return Some(Io);
      }
      error := RefreshProjection(f);
    }
  }
}
