/**
 The Merkle store refines a map from paths to bytes: one write changes that map at one path,
 and no operation changes the map that a former HEAD stands for.
 */
module MerkleLaws {
  import opened Basics
  import opened ObjectIds
  import opened Merkle

  // ---------------------------------------------------------------- objects only accumulate

  ghost predicate HashedAs(p: Platform, o: Objects, id: ObjectId, kind: Bytes)
    requires id in o.files
  {
    Frame(kind, o.files[id]) in o.hashed && p.sha(Frame(kind, o.files[id])) == id
  }

  /** Every stored id is the digest of what is stored under it. */
  ghost predicate Honest(p: Platform, o: Objects) {
    forall id | id in o.files :: HashedAs(p, o, id, BLOB) || HashedAs(p, o, id, TREE)
  }

  ghost predicate Grows(o: Objects, o': Objects) {
    && o.hashed <= o'.hashed
    && forall id | id in o.files :: id in o'.files && o'.files[id] == o.files[id]
  }

  lemma PutStores(p: Platform, o: Objects, kind: Bytes, payload: Bytes)
    requires Honest(p, o) && kind in {BLOB, TREE} && CollisionFree(p, Put(p, o, kind, payload))
    ensures var o' := Put(p, o, kind, payload);
            && Grows(o, o') && Honest(p, o')
            && Identify(p, kind, payload) in o'.files && o'.files[Identify(p, kind, payload)] == payload
  {
    var id := Identify(p, kind, payload);
    var o' := Put(p, o, kind, payload);
    if id in o.files {
      var kind' := if HashedAs(p, o, id, BLOB) then BLOB else TREE;
      assert Frame(kind', o.files[id]) in o'.hashed && Frame(kind, payload) in o'.hashed;
      FrameInjective(kind', o.files[id], kind, payload);
    }
    forall x | x in o'.files ensures HashedAs(p, o', x, BLOB) || HashedAs(p, o', x, TREE) {
      if x != id {
        assert HashedAs(p, o, x, BLOB) || HashedAs(p, o, x, TREE);
      }
    }
  }

  // ---------------------------------------------------------------- closure

  ghost predicate EntryIn(o: Objects, trees: set<ObjectId>, e: TreeEntry) {
    && FromHex(e.id).Some?
    && FromHex(e.id).value in (if e.kind == Tree then trees else o.files.Keys)
  }

  ghost predicate EntriesIn(o: Objects, trees: set<ObjectId>, t: Directory) {
    forall name | name in t.entries :: EntryIn(o, trees, t.entries[name])
  }

  /** Every member decodes as a directory whose entries are again members, or stored files. */
  ghost predicate Closed(p: Platform, o: Objects, trees: set<ObjectId>) {
    forall id | id in trees :: GetTree(p, o, id).Ok? && EntriesIn(o, trees, GetTree(p, o, id).value)
  }

  lemma ClosedGrows(p: Platform, o: Objects, o': Objects, trees: set<ObjectId>)
    requires Closed(p, o, trees) && Grows(o, o')
    ensures Closed(p, o', trees)
    ensures forall t | EntriesIn(o, trees, t) :: EntriesIn(o', trees, t)
  {
    forall t | EntriesIn(o, trees, t) ensures EntriesIn(o', trees, t) {
      forall name | name in t.entries ensures EntryIn(o', trees, t.entries[name]) {
        assert EntryIn(o, trees, t.entries[name]);
      }
    }
    forall id | id in trees ensures GetTree(p, o', id).Ok? && EntriesIn(o', trees, GetTree(p, o', id).value) {
      assert GetTree(p, o', id) == GetTree(p, o, id);
    }
  }

  // ---------------------------------------------------------------- the map a directory stands for

  /** The bytes of the file at `path` below `t`; None for directories and for absent paths. */
  function Content(p: Platform, o: Objects, t: Directory, path: Path): Option<Bytes>
    decreases |path|
  {
    if path == [] || path[0] !in t.entries || FromHex(t.entries[path[0]].id).None? then None
    else
      var entry, id := t.entries[path[0]], FromHex(t.entries[path[0]].id).value;
      if entry.kind != Tree then (if |path| == 1 && id in o.files then Some(o.files[id]) else None)
      else if GetTree(p, o, id).Err? then None
      else Content(p, o, GetTree(p, o, id).value, path[1..])
  }

  function ContentAt(p: Platform, o: Objects, root: ObjectId, path: Path): Option<Bytes> {
    if GetTree(p, o, root).Ok? then Content(p, o, GetTree(p, o, root).value, path) else None
  }

  /** In a closed store, reading does not see objects that were added later. */
  lemma {:induction false} ReadsStable(p: Platform, o: Objects, o': Objects, trees: set<ObjectId>, t: Directory, path: Path)
    requires Closed(p, o, trees) && EntriesIn(o, trees, t) && Grows(o, o')
    ensures Content(p, o', t, path) == Content(p, o, t, path)
    ensures path != [] ==> Fetch(o', Walk(p, o', t, path)) == Fetch(o, Walk(p, o, t, path))
    ensures path != [] ==> Walk(p, o', t, path) == Walk(p, o, t, path)
    decreases |path|
  {
    if path != [] && path[0] in t.entries {
      var entry := t.entries[path[0]];
      assert EntryIn(o, trees, entry);
      if entry.kind == Tree {
        var id := FromHex(entry.id).value;
        assert GetTree(p, o', id) == GetTree(p, o, id);
        ReadsStable(p, o, o', trees, GetTree(p, o, id).value, path[1..]);
      }
    }
  }

  /** A proper prefix of the path is a file. */
  ghost predicate FileOnTheWay(p: Platform, o: Objects, t: Directory, path: Path) {
    exists k :: 0 < k < |path| && Content(p, o, t, path[..k]).Some?
  }

  lemma WayThroughTree(p: Platform, o: Objects, trees: set<ObjectId>, t: Directory, path: Path)
    requires Closed(p, o, trees) && EntriesIn(o, trees, t) && path != [] && path[0] in t.entries && t.entries[path[0]].kind == Tree
    ensures var child := GetTree(p, o, FromHex(t.entries[path[0]].id).value).value;
            FileOnTheWay(p, o, t, path) <==> |path| > 1 && FileOnTheWay(p, o, child, path[1..])
  {
    assert EntryIn(o, trees, t.entries[path[0]]);
    var child := GetTree(p, o, FromHex(t.entries[path[0]].id).value).value;
    forall k | 0 < k < |path|
      ensures Content(p, o, t, path[..k]).Some? <==> 0 < k - 1 && Content(p, o, child, path[1..][..k - 1]).Some?
    {
      assert path[..k][1..] == path[1..][..k - 1];
    }
    hide Content, GetTree, FromHex;
    if |path| > 1 && FileOnTheWay(p, o, child, path[1..]) {
      var k :| 0 < k < |path[1..]| && Content(p, o, child, path[1..][..k]).Some?;
      assert Content(p, o, t, path[..k + 1]).Some?;
    }
  }

  lemma WayThroughFile(p: Platform, o: Objects, trees: set<ObjectId>, t: Directory, path: Path)
    requires EntriesIn(o, trees, t) && path != [] && path[0] in t.entries && t.entries[path[0]].kind != Tree
    ensures FileOnTheWay(p, o, t, path) <==> |path| > 1
  {
    assert EntryIn(o, trees, t.entries[path[0]]);
    if |path| > 1 {
      assert Content(p, o, t, path[..1]).Some?;
    }
  }

  lemma WayThroughNothing(p: Platform, o: Objects, t: Directory, path: Path)
    requires path != [] && path[0] !in t.entries
    ensures !FileOnTheWay(p, o, t, path)
  {
    forall k | 0 < k < |path| ensures Content(p, o, t, path[..k]).None? {
    }
  }

  /** What a walk finds in a closed store: nothing, a file, a directory, or a file in the way. */
  lemma {:induction false} WalkMeaning(p: Platform, o: Objects, trees: set<ObjectId>, t: Directory, path: Path)
    requires Closed(p, o, trees) && EntriesIn(o, trees, t) && path != []
    ensures match Walk(p, o, t, path)
            case Ok(None) => Content(p, o, t, path) == None
            case Ok(Some(id)) => id in o.files && (id in trees || Content(p, o, t, path) == Some(o.files[id]))
            case Err(e) => e == PrefixNotTree && Content(p, o, t, path) == None
    ensures Content(p, o, t, path).Some? ==> Fetch(o, Walk(p, o, t, path)) == Ok(Some(Content(p, o, t, path).value))
    ensures Walk(p, o, t, path).Err? <==> FileOnTheWay(p, o, t, path)
    decreases |path|
  {
    if path[0] in t.entries {
      var entry := t.entries[path[0]];
      assert EntryIn(o, trees, entry);
      if entry.kind == Tree {
        var child := GetTree(p, o, FromHex(entry.id).value).value;
        if |path| > 1 {
          WalkMeaning(p, o, trees, child, path[1..]);
        }
        WayThroughTree(p, o, trees, t, path);
      } else {
        WayThroughFile(p, o, trees, t, path);
      }
    } else {
      WayThroughNothing(p, o, t, path);
    }
    hide FileOnTheWay, FromHex;
  }

  // ---------------------------------------------------------------- one write

  /** An upsert only adds objects, and its directory closes over what it added. */
  lemma {:induction false} UpsertCloses(p: Platform, o: Objects, t: Directory, path: Path, id: ObjectId, trees: set<ObjectId>)
    returns (trees': set<ObjectId>)
    requires TreeCodec(p) && Honest(p, o) && path != [] && id in o.files
    requires Closed(p, o, trees) && EntriesIn(o, trees, t)
    requires CollisionFree(p, Upsert(p, o, t, path, File, id).0)
    ensures var (o', r) := Upsert(p, o, t, path, File, id);
            && Grows(o, o') && Honest(p, o') && trees <= trees' && Closed(p, o', trees')
            && (r.Ok? ==> EntriesIn(o', trees', r.value))
    decreases |path|
  {
    trees' := trees;
    var (o', r) := Upsert(p, o, t, path, File, id);
    if |path| == 1 {
      HexRoundTrip(id);
    } else if r.Ok? {
      var child := ChildOf(p, o, t, path[0]).value;
      ChildEntries(p, o, t, path[0], trees);
      var (o1, r1) := Upsert(p, o, child, path[1..], File, id);
      var payload := p.encode(r1.value);
      var below := UpsertCloses(p, o, child, path[1..], id, trees);
      PutStores(p, o1, TREE, payload);
      ClosedGrows(p, o1, o', below);
      trees' := AddTree(p, o', below, r1.value);
      HexRoundTrip(Identify(p, TREE, payload));
      EntriesWiden(o, o', trees, trees', t);
    } else if ChildOf(p, o, t, path[0]).Ok? {
      ChildEntries(p, o, t, path[0], trees);
      trees' := UpsertCloses(p, o, ChildOf(p, o, t, path[0]).value, path[1..], id, trees);
    }
  }

  lemma EntriesWiden(o: Objects, o': Objects, trees: set<ObjectId>, trees': set<ObjectId>, t: Directory)
    requires EntriesIn(o, trees, t) && Grows(o, o') && trees <= trees'
    ensures EntriesIn(o', trees', t)
  {
    forall name | name in t.entries ensures EntryIn(o', trees', t.entries[name]) {
      assert EntryIn(o, trees, t.entries[name]);
    }
  }

  lemma ChildEntries(p: Platform, o: Objects, t: Directory, name: string, trees: set<ObjectId>)
    requires Closed(p, o, trees) && EntriesIn(o, trees, t)
    ensures ChildOf(p, o, t, name).Ok? ==> EntriesIn(o, trees, ChildOf(p, o, t, name).value)
    ensures ChildOf(p, o, t, name).Err? ==> ChildOf(p, o, t, name).error == NestUnderFile
  {
    if name in t.entries {
      assert EntryIn(o, trees, t.entries[name]);
    }
  }

  /** A directory just stored joins the closed set. */
  lemma AddTree(p: Platform, o: Objects, trees: set<ObjectId>, t: Directory) returns (trees': set<ObjectId>)
    requires TreeCodec(p) && Closed(p, o, trees) && EntriesIn(o, trees, t)
    requires var id := Identify(p, TREE, p.encode(t)); id in o.files && o.files[id] == p.encode(t)
    ensures trees' == trees + {Identify(p, TREE, p.encode(t))} && Closed(p, o, trees')
  {
    trees' := trees + {Identify(p, TREE, p.encode(t))};
    forall id | id in trees' ensures GetTree(p, o, id).Ok? && EntriesIn(o, trees', GetTree(p, o, id).value) {
      EntriesWiden(o, o, trees, trees', GetTree(p, o, id).value);
    }
  }

  /** The map after a write of `bytes` at `path`, given the map before it. */
  function Written(before: Option<Bytes>, path: Path, bytes: Bytes, q: Path): Option<Bytes> {
    if q == path then Some(bytes) else if path <= q then None else before
  }

  /** An upsert of a file changes the map at its path, and removes what was below that path. */
  lemma {:induction false} UpsertContent(p: Platform, o: Objects, t: Directory, path: Path, id: ObjectId, trees: set<ObjectId>, q: Path)
    requires TreeCodec(p) && Honest(p, o) && path != [] && id in o.files
    requires Closed(p, o, trees) && EntriesIn(o, trees, t)
    requires var (o', r) := Upsert(p, o, t, path, File, id); CollisionFree(p, o') && r.Ok?
    ensures var (o', r) := Upsert(p, o, t, path, File, id);
            Content(p, o', r.value, q) == Written(Content(p, o, t, q), path, o.files[id], q)
    decreases |path|
  {
    var (o', r) := Upsert(p, o, t, path, File, id);
    var trees' := UpsertCloses(p, o, t, path, id, trees);
    if q == [] {
    } else if q[0] != path[0] {
      ContentElsewhere(p, o, o', trees, t, r.value, q);
    } else if |path| == 1 {
      HexRoundTrip(id);
      assert path == [path[0]];
      if |q| == 1 {
        assert q == path;
      } else {
        assert path == q[..1];
      }
    } else {
      UpsertDescends(p, o, t, path, id, trees, q);
      ChildEntries(p, o, t, path[0], trees);
      var child := ChildOf(p, o, t, path[0]).value;
      ContentOfChild(p, o, t, trees, q);
      PrefixTail(path, q);
      hide Upsert, Content, Closed, EntriesIn, Honest, CollisionFree, TreeCodec;
      UpsertContent(p, o, child, path[1..], id, trees, q[1..]);
    }
  }

  /** What lies below a name is what its directory holds. */
  lemma ContentOfChild(p: Platform, o: Objects, t: Directory, trees: set<ObjectId>, q: Path)
    requires Closed(p, o, trees) && EntriesIn(o, trees, t) && q != [] && ChildOf(p, o, t, q[0]).Ok?
    ensures Content(p, o, ChildOf(p, o, t, q[0]).value, q[1..]) == Content(p, o, t, q)
  {
    if q[0] in t.entries {
      assert EntryIn(o, trees, t.entries[q[0]]);
    }
  }

  lemma PrefixTail(a: Path, b: Path)
    requires a != [] && b != [] && a[0] == b[0]
    ensures a <= b <==> a[1..] <= b[1..]
    ensures a == b <==> a[1..] == b[1..]
  {
    assert a == [a[0]] + a[1..] && b == [b[0]] + b[1..];
    if a <= b {
      assert b == a + b[|a|..];
      assert b[1..] == a[1..] + b[|a|..];
    }
    if a[1..] <= b[1..] {
      assert b[1..] == a[1..] + b[1..][|a| - 1..];
      assert b == [b[0]] + b[1..] && a == [a[0]] + a[1..];
      assert b == a + b[1..][|a| - 1..];
    }
  }

  /** Below another name nothing changes. */
  lemma ContentElsewhere(p: Platform, o: Objects, o': Objects, trees: set<ObjectId>, t: Directory, t': Directory, q: Path)
    requires Closed(p, o, trees) && EntriesIn(o, trees, t) && Grows(o, o') && q != []
    requires q[0] in t'.entries <==> q[0] in t.entries
    requires q[0] in t.entries ==> t'.entries[q[0]] == t.entries[q[0]]
    ensures Content(p, o', t', q) == Content(p, o, t, q)
    ensures Walk(p, o', t', q) == Walk(p, o, t, q)
  {
    ReadsStable(p, o, o', trees, t, q);
    if q[0] in t.entries {
      assert Content(p, o', t', q) == Content(p, o', t, q);
      assert Walk(p, o', t', q) == Walk(p, o', t, q);
    }
  }

  /** Below the first name of the path, the new directory leads into the new child. */
  lemma UpsertDescends(p: Platform, o: Objects, t: Directory, path: Path, id: ObjectId, trees: set<ObjectId>, q: Path)
    requires TreeCodec(p) && Honest(p, o) && |path| > 1 && id in o.files
    requires Closed(p, o, trees) && EntriesIn(o, trees, t)
    requires var (o', r) := Upsert(p, o, t, path, File, id); CollisionFree(p, o') && r.Ok?
    requires q != [] && q[0] == path[0]
    ensures ChildOf(p, o, t, path[0]).Ok?
    ensures var (o1, r1) := Upsert(p, o, ChildOf(p, o, t, path[0]).value, path[1..], File, id);
            var (o', r) := Upsert(p, o, t, path, File, id);
            && r1.Ok? && CollisionFree(p, o1)
            && Content(p, o', r.value, q) == Content(p, o1, r1.value, q[1..])
            && (|q| > 1 ==> Walk(p, o', r.value, q) == Walk(p, o1, r1.value, q[1..]))
  {
    var (o', r) := Upsert(p, o, t, path, File, id);
    var child := ChildOf(p, o, t, path[0]).value;
    hide Content, Walk, Hex, FromHex;
    ChildEntries(p, o, t, path[0], trees);
    var (o1, r1) := Upsert(p, o, child, path[1..], File, id);
    var payload := p.encode(r1.value);
    assert o' == Put(p, o1, TREE, payload);
    var below := UpsertCloses(p, o, child, path[1..], id, trees);
    PutStores(p, o1, TREE, payload);
    assert GetTree(p, o', Identify(p, TREE, payload)) == Ok(r1.value);
    ReadsStable(p, o1, o', below, r1.value, q[1..]);
    Through(p, o', r.value, q, Identify(p, TREE, payload), r1.value);
  }

  /** Reading through a directory entry is reading in the directory it names. */
  lemma Through(p: Platform, o: Objects, t: Directory, q: Path, id: ObjectId, child: Directory)
    requires q != [] && q[0] in t.entries && t.entries[q[0]] == TreeEntry(Tree, Hex(id)) && GetTree(p, o, id) == Ok(child)
    ensures Content(p, o, t, q) == Content(p, o, child, q[1..])
    ensures |q| > 1 ==> Walk(p, o, t, q) == Walk(p, o, child, q[1..])
  {
    HexRoundTrip(id);
  }

  /** A path that neither contains nor is contained in the written one is walked as before. */
  lemma {:induction false} UpsertWalk(p: Platform, o: Objects, t: Directory, path: Path, id: ObjectId, trees: set<ObjectId>, q: Path)
    requires TreeCodec(p) && Honest(p, o) && path != [] && id in o.files
    requires Closed(p, o, trees) && EntriesIn(o, trees, t)
    requires var (o', r) := Upsert(p, o, t, path, File, id); CollisionFree(p, o') && r.Ok?
    requires !(path <= q) && !(q <= path)
    ensures var (o', r) := Upsert(p, o, t, path, File, id); Walk(p, o', r.value, q) == Walk(p, o, t, q)
    decreases |path|
  {
    var (o', r) := Upsert(p, o, t, path, File, id);
    if q[0] != path[0] {
      var trees' := UpsertCloses(p, o, t, path, id, trees);
      ContentElsewhere(p, o, o', trees, t, r.value, q);
    } else {
      PrefixTail(path, q);
      PrefixTail(q, path);
      assert |path| > 1 && |q| > 1;
      ChildEntries(p, o, t, path[0], trees);
      UpsertDescends(p, o, t, path, id, trees, q);
      UpsertWalk(p, o, ChildOf(p, o, t, path[0]).value, path[1..], id, trees, q[1..]);
      if path[0] in t.entries {
        assert EntryIn(o, trees, t.entries[path[0]]);
      }
    }
  }

  /** In a closed store an upsert is refused exactly when a file lies on the way. */
  lemma {:induction false} UpsertRefused(p: Platform, o: Objects, t: Directory, path: Path, id: ObjectId, trees: set<ObjectId>)
    requires Closed(p, o, trees) && EntriesIn(o, trees, t) && path != []
    ensures Upsert(p, o, t, path, File, id).1.Err? <==> Walk(p, o, t, path).Err?
    ensures Upsert(p, o, t, path, File, id).1.Err? ==> Upsert(p, o, t, path, File, id) == (o, Err(NestUnderFile))
    decreases |path|
  {
    if path[0] in t.entries {
      assert EntryIn(o, trees, t.entries[path[0]]);
    }
    if |path| > 1 {
      ChildEntries(p, o, t, path[0], trees);
      if ChildOf(p, o, t, path[0]).Ok? {
        UpsertRefused(p, o, ChildOf(p, o, t, path[0]).value, path[1..], id, trees);
      }
    }
  }
}
