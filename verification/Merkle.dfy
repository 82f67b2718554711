/**
 The content-addressed workspace as a value: an object map, HEAD, refs and the current
 branch, and what each operation makes of them.
 */
module Merkle {
  import opened Basics
  import opened ObjectIds

  datatype ResourceKind = File | Tree | Agent | Net | Cmd | Code

  /** `id` is text, as it stands in the serialized tree. */
  datatype TreeEntry = TreeEntry(kind: ResourceKind, id: Bytes)

  datatype Directory = Directory(entries: map<string, TreeEntry>)

  type Path = seq<string>

  /** The hash and the tree serialization. Only `TreeCodec` and `CollisionFree` are used of them. */
  datatype Platform = Platform(sha: Bytes -> ObjectId, encode: Directory -> Bytes, decode: Bytes -> Option<Directory>)

  ghost predicate TreeCodec(p: Platform) {
    forall t :: p.decode(p.encode(t)) == Some(t)
  }

  const BLOB: Bytes := [98, 108, 111, 98]
  const TREE: Bytes := [116, 114, 101, 101]

  /** The object files, and every frame that has been hashed so far. */
  datatype Objects = Objects(files: map<ObjectId, Bytes>, hashed: set<Bytes>)

  /** No two payloads of this history share a digest. */
  ghost predicate CollisionFree(p: Platform, o: Objects) {
    forall f, g | f in o.hashed && g in o.hashed :: p.sha(f) == p.sha(g) ==> f == g
  }

  datatype StoreError =
    | Missing | BadJson | BadHex | NotLead | EmptyPath | PrefixNotTree | NestUnderFile
    | UnknownRef | NotATree | BadRef | Interrupted

  // ---------------------------------------------------------------- objects

  function Identify(p: Platform, kind: Bytes, payload: Bytes): ObjectId {
    p.sha(Frame(kind, payload))
  }

  /** `write_object` after hashing: an id that is already present is not written again. */
  function Put(p: Platform, o: Objects, kind: Bytes, payload: Bytes): Objects {
    var id := Identify(p, kind, payload);
    Objects(if id in o.files then o.files else o.files[id := payload], o.hashed + {Frame(kind, payload)})
  }

  function GetTree(p: Platform, o: Objects, id: ObjectId): Result<Directory, StoreError> {
    if id !in o.files then Err(Missing)
    else
      match p.decode(o.files[id])
      case Some(t) => Ok(t)
      case None => Err(BadJson)
  }

  // ---------------------------------------------------------------- reading

  /** The id at a non-empty path below one directory. */
  function Walk(p: Platform, o: Objects, t: Directory, path: Path): Result<Option<ObjectId>, StoreError>
    requires path != []
    decreases |path|
  {
    if path[0] !in t.entries then Ok(None)
    else
      var entry := t.entries[path[0]];
      match FromHex(entry.id)
      case None => Err(BadHex)
      case Some(id) =>
        if |path| == 1 then Ok(Some(id))
        else if entry.kind != Tree then Err(PrefixNotTree)
        else
          match GetTree(p, o, id)
          case Err(e) => Err(e)
          case Ok(child) => Walk(p, o, child, path[1..])
  }

  function Lookup(p: Platform, o: Objects, root: ObjectId, path: Path): Result<Option<ObjectId>, StoreError> {
    match GetTree(p, o, root)
    case Err(e) => Err(e)
    case Ok(t) => if path == [] then Ok(Some(root)) else Walk(p, o, t, path)
  }

  function Fetch(o: Objects, found: Result<Option<ObjectId>, StoreError>): Result<Option<Bytes>, StoreError> {
    match found
    case Err(e) => Err(e)
    case Ok(None) => Ok(None)
    case Ok(Some(id)) => if id in o.files then Ok(Some(o.files[id])) else Err(Missing)
  }

  /** `read_file` at a given root. */
  function Read(p: Platform, o: Objects, root: ObjectId, path: Path): Result<Option<Bytes>, StoreError> {
    Fetch(o, Lookup(p, o, root, path))
  }

  // ---------------------------------------------------------------- writing

  /** `upsert`: the directory with `id` at `path`, and the objects written on the way up. */
  function Upsert(p: Platform, o: Objects, t: Directory, path: Path, kind: ResourceKind, id: ObjectId)
    : (Objects, Result<Directory, StoreError>)
    requires path != []
    decreases |path|
  {
    if |path| == 1 then (o, Ok(Directory(t.entries[path[0] := TreeEntry(kind, Hex(id))])))
    else
      match ChildOf(p, o, t, path[0])
      case Err(e) => (o, Err(e))
      case Ok(child) =>
        match Upsert(p, o, child, path[1..], kind, id)
        case (o1, Err(e)) => (o1, Err(e))
        case (o1, Ok(child')) =>
          var payload := p.encode(child');
          (Put(p, o1, TREE, payload), Ok(Directory(t.entries[path[0] := TreeEntry(Tree, Hex(Identify(p, TREE, payload)))])))
  }

  /** The directory an upsert descends into: an existing one, or a new empty one. */
  function ChildOf(p: Platform, o: Objects, t: Directory, name: string): Result<Directory, StoreError> {
    if name !in t.entries then Ok(Directory(map[]))
    else if t.entries[name].kind != Tree then Err(NestUnderFile)
    else
      match FromHex(t.entries[name].id)
      case None => Err(BadHex)
      case Some(id) => GetTree(p, o, id)
  }

  /** A new root with `bytes` at `path`: the objects part of `write_file`. */
  function Commit(p: Platform, o: Objects, root: ObjectId, path: Path, bytes: Bytes): (Objects, Result<ObjectId, StoreError>)
    requires path != []
  {
    var o1 := Put(p, o, BLOB, bytes);
    match GetTree(p, o1, root)
    case Err(e) => (o1, Err(e))
    case Ok(t) =>
      match Upsert(p, o1, t, path, File, Identify(p, BLOB, bytes))
      case (o2, Err(e)) => (o2, Err(e))
      case (o2, Ok(t')) => (Put(p, o2, TREE, p.encode(t')), Ok(Identify(p, TREE, p.encode(t'))))
  }

  // ---------------------------------------------------------------- HEAD, refs, branch

  datatype Repo = Repo(objects: Objects, head: ObjectId, refs: map<string, ObjectId>, branch: Option<string>)

  /** How many of the three files that `set_head_and_branch` writes are written. */
  datatype Stop = Completes | BeforeHead | AfterHead | AfterRef

  function SetHead(r: Repo, id: ObjectId, branch: Option<string>, stop: Stop): (Repo, Result<ObjectId, StoreError>) {
    if stop == BeforeHead then (r, Err(Interrupted))
    else
      var r1 := r.(head := id);
      if stop == AfterHead then (r1, Err(Interrupted))
      else
        var r2 := if branch.Some? then r1.(refs := r1.refs[branch.value := id]) else r1;
        if stop == AfterRef then (r2, Err(Interrupted))
        else (r2.(branch := branch), Ok(id))
  }

  function WriteFile(p: Platform, r: Repo, isLead: bool, path: Path, bytes: Bytes, stop: Stop): (Repo, Result<ObjectId, StoreError>) {
    if !isLead then (r, Err(NotLead))
    else if path == [] then (r, Err(EmptyPath))
    else
      var (o, root) := Commit(p, r.objects, r.head, path, bytes);
      match root
      case Err(e) => (r.(objects := o), Err(e))
      case Ok(id) => SetHead(r.(objects := o), id, r.branch, stop)
  }

  predicate IsRefChar(c: char) {
    'a' <= c <= 'z' || 'A' <= c <= 'Z' || '0' <= c <= '9' || c == '-' || c == '_'
  }

  predicate IsRefName(name: string) {
    name != "" && forall i | 0 <= i < |name| :: IsRefChar(name[i])
  }

  function Branch(r: Repo, isLead: bool, name: string): (Repo, Result<ObjectId, StoreError>) {
    if !isLead then (r, Err(NotLead))
    else if !IsRefName(name) then (r, Err(BadRef))
    else (r.(refs := r.refs[name := r.head]), Ok(r.head))
  }

  function MoveTo(p: Platform, r: Repo, id: ObjectId, branch: Option<string>, stop: Stop): (Repo, Result<ObjectId, StoreError>) {
    if GetTree(p, r.objects, id).Err? then (r, Err(NotATree)) else SetHead(r, id, branch, stop)
  }

  function Checkout(p: Platform, r: Repo, isLead: bool, name: string, stop: Stop): (Repo, Result<ObjectId, StoreError>) {
    if !isLead then (r, Err(NotLead))
    else if name !in r.refs then (r, Err(UnknownRef))
    else MoveTo(p, r, r.refs[name], Some(name), stop)
  }

  function Reset(p: Platform, r: Repo, isLead: bool, id: ObjectId, stop: Stop): (Repo, Result<ObjectId, StoreError>) {
    if !isLead then (r, Err(NotLead)) else MoveTo(p, r, id, r.branch, stop)
  }

  function MergeFf(p: Platform, r: Repo, isLead: bool, name: string, stop: Stop): (Repo, Result<ObjectId, StoreError>) {
    if !isLead then (r, Err(NotLead))
    else if name !in r.refs then (r, Err(UnknownRef))
    else MoveTo(p, r, r.refs[name], r.branch, stop)
  }

  /** `create`: an empty directory as HEAD. */
  function Create(p: Platform): Repo {
    var payload := p.encode(Directory(map[]));
    Repo(Put(p, Objects(map[], {}), TREE, payload), Identify(p, TREE, payload), map[], None)
  }
}
