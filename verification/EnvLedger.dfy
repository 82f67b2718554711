/**
 The workspace log and the environment it commits: a blob published under its digest, then
 one log record, then a projection that only repeats what the log says.
 */
module EnvLedgers {
  import opened Basics

  datatype LogRecord = LogRecord(id: string, kind: string, body: Option<Bytes>, sha256: Option<string>, name: Option<string>)

  /** The record format and the digest. Only the laws of `Lawful` are used of them. */
  datatype Platform = Platform(encode: LogRecord -> Bytes, decode: Bytes -> Option<LogRecord>, sha: Bytes -> string)

  /**
   A record is one line that opens with a brace; nothing that opens with a brace and runs on
   into a whole record decodes.
   */
  ghost predicate Lawful(p: Platform) {
    && (forall r :: |p.encode(r)| > 0 && p.encode(r)[0] == 123 && NEWLINE !in p.encode(r))
    && (forall r :: p.decode(p.encode(r)) == Some(r))
    && (forall torn, r | |torn| > 0 && torn[0] == 123 :: p.decode(torn + p.encode(r)) == None)
  }

  ghost predicate CollisionFree(p: Platform) {
    forall x, y :: p.sha(x) == p.sha(y) ==> x == y
  }

  datatype Disk = Disk(log: Bytes, blobs: map<string, Bytes>, projection: Option<Bytes>)

  datatype Error = Io | IncompleteLog | BadRecord | InvalidEnv

  /** Where a call stops. The state is the same whether the call fails there or the process dies there. */
  datatype Fault =
    | NoFault | AtRead | AtBlobWrite | AtBlobSync | AtLogOpen | AtLogWrite(written: nat) | AtLogSync
    | AtProjectionWrite | AtProjectionSync

  // ---------------------------------------------------------------- the log

  function ReadLog(p: Platform, log: Bytes): Result<seq<LogRecord>, Error>
    decreases |log|
  {
    if log == [] then Ok([])
    else
      match LineEnd(log)
      case None => Err(IncompleteLog)
      case Some(end) =>
        var line := log[..end - 1];
        if Blank(line) then ReadLog(p, log[end..])
        else
          match p.decode(line)
          case None => Err(BadRecord)
          case Some(r) =>
            match ReadLog(p, log[end..])
            case Err(e) => Err(e)
            case Ok(rest) => Ok([r] + rest)
  }

  function LastKind(records: seq<LogRecord>, kind: string): Option<LogRecord> {
    if records == [] then None
    else if records[|records| - 1].kind == kind then Some(records[|records| - 1])
    else LastKind(records[..|records| - 1], kind)
  }

  function LastNamed(records: seq<LogRecord>, kind: string, name: string): Option<LogRecord> {
    if records == [] then None
    else if records[|records| - 1].kind == kind && records[|records| - 1].name == Some(name) then Some(records[|records| - 1])
    else LastNamed(records[..|records| - 1], kind, name)
  }

  function Line(p: Platform, r: LogRecord): Bytes {
    p.encode(r) + [NEWLINE]
  }

  /** `append`: opening may fail, any number of bytes may land, and a sync may fail after all of them. */
  function Append(p: Platform, d: Disk, r: LogRecord, f: Fault): (Disk, Option<Error>) {
    match f
    case AtLogOpen => (d, Some(Io))
    case AtLogWrite(n) => (d.(log := d.log + Prefix(Line(p, r), n)), Some(Io))
    case AtLogSync => (d.(log := d.log + Line(p, r)), Some(Io))
    case _ => (d.(log := d.log + Line(p, r)), None)
  }

  // ---------------------------------------------------------------- the environment

  /** `env_bytes`: a blob is used only if it still has its digest. */
  function EnvBytes(p: Platform, d: Disk, sha: string): Result<Bytes, Error> {
    if sha !in d.blobs then Err(Io)
    else if p.sha(d.blobs[sha]) != sha then Err(InvalidEnv)
    else Ok(d.blobs[sha])
  }

  /** `committed_env`. */
  function Committed(p: Platform, d: Disk): Result<(Option<LogRecord>, Bytes), Error> {
    match ReadLog(p, d.log)
    case Err(e) => Err(e)
    case Ok(records) =>
      match LastKind(records, "env")
      case None => Ok((None, []))
      case Some(r) =>
        if r.sha256.None? then Err(InvalidEnv)
        else
          match EnvBytes(p, d, r.sha256.value)
          case Err(e) => Err(e)
          case Ok(text) => Ok((Some(r), text))
  }

  /** `publish_env_blob`: the link under the digest is atomic and never replaces a blob. */
  function Publish(p: Platform, d: Disk, sha: string, text: Bytes, f: Fault): (Disk, Option<Error>) {
    if sha in d.blobs then
      match EnvBytes(p, d, sha)
      case Err(e) => (d, Some(e))
      case Ok(_) => (d, if f == AtBlobSync then Some(Io) else None)
    else if f == AtBlobWrite then (d, Some(Io))
    else (d.(blobs := d.blobs[sha := text]), if f == AtBlobSync then Some(Io) else None)
  }

  /** `refresh_env_projection`: the rename is atomic. */
  function Refresh(p: Platform, d: Disk, f: Fault): (Disk, Option<Error>) {
    match Committed(p, d)
    case Err(e) => (d, Some(e))
    case Ok((_, text)) =>
      if f == AtProjectionWrite then (d, Some(Io))
      else (d.(projection := Some(text)), if f == AtProjectionSync then Some(Io) else None)
  }

  function EnvRecord(id: string, sha: string, name: string): LogRecord {
    LogRecord(id, "env", None, Some(sha), Some(name))
  }

  /** `put_env`. */
  function PutEnv(p: Platform, d: Disk, name: string, text: Bytes, id: string, f: Fault): (Disk, Result<LogRecord, Error>) {
    var sha := p.sha(text);
    if f == AtRead then (d, Err(Io))
    else
      match ReadLog(p, d.log)
      case Err(e) => (d, Err(e))
      case Ok(records) =>
        var existing := LastNamed(records, "env", name);
        if existing.Some? && existing.value.sha256 == Some(sha) then
          if EnvBytes(p, d, sha).Err? then (d, Err(EnvBytes(p, d, sha).error))
          else if f == AtLogSync then (d, Err(Io))
          else
            var (d', e) := Refresh(p, d, f);
            (d', if e.Some? then Err(e.value) else Ok(existing.value))
        else
          var (d1, e1) := Publish(p, d, sha, text, f);
          if e1.Some? then (d1, Err(e1.value))
          else
            var r := EnvRecord(id, sha, name);
            var (d2, e2) := Append(p, d1, r, f);
            if e2.Some? then (d2, Err(e2.value))
            else
              var (d3, e3) := Refresh(p, d2, f);
              (d3, if e3.Some? then Err(e3.value) else Ok(r))
  }

  /** `push_event`: it appends without reading. */
  function PushEvent(p: Platform, d: Disk, name: string, body: Bytes, id: string, f: Fault): (Disk, Option<Error>) {
    Append(p, d, LogRecord(id, "event", Some(body), None, Some(name)), f)
  }

  /** The environment part of `cite`. */
  function Cite(p: Platform, d: Disk, f: Fault): Result<(Option<LogRecord>, Bytes), Error> {
    if f == AtRead then Err(Io) else Committed(p, d)
  }

  /** `open` on a workspace that exists. */
  function Reopen(p: Platform, d: Disk, f: Fault): (Disk, Option<Error>) {
    if f == AtLogSync then (d, Some(Io)) else Refresh(p, d, f)
  }

  const EMPTY := Disk([], map[], None)
}
