/** What a read answers at a path of any kind: a file, a directory, nothing, or a path behind a file. */
module MerkleDirs {
  import opened Basics
  import opened ObjectIds
  import opened Merkle
  import opened MerkleLaws
  import opened MerkleRuns

  /** A path goes on below another. */
  lemma Below(path: Path, q: Path)
    requires path != []
    ensures path + q != [] && (path + q)[0] == path[0] && (path + q)[1..] == path[1..] + q
    ensures |path| == 1 ==> (path + q)[1..] == q
  {
  }

  ghost predicate NothingBelow(p: Platform, o: Objects, t: Directory, path: Path) {
    forall q :: Content(p, o, t, path + q) == None
  }

  /** The directory stands for all that lies below the path. */
  ghost predicate StandsFor(p: Platform, o: Objects, t: Directory, path: Path, below: Directory) {
    forall q :: Content(p, o, t, path + q) == Content(p, o, below, q)
  }

  lemma {:induction false} WalkBelow(p: Platform, o: Objects, trees: set<ObjectId>, t: Directory, path: Path)
    requires Closed(p, o, trees) && EntriesIn(o, trees, t) && path != []
    ensures match Walk(p, o, t, path)
            case Ok(Some(id)) => id in o.files && (Content(p, o, t, path).None? ==>
                                                     GetTree(p, o, id).Ok? && StandsFor(p, o, t, path, GetTree(p, o, id).value))
            case Ok(None) => NothingBelow(p, o, t, path)
            case Err(_) => NothingBelow(p, o, t, path)
    decreases |path|
  {
    hide FromHex;
    forall q {
      Below(path, q);
    }
    if path[0] in t.entries {
      var entry := t.entries[path[0]];
      assert EntryIn(o, trees, entry);
      if entry.kind == Tree {
        var child := GetTree(p, o, FromHex(entry.id).value).value;
        assert forall q :: Content(p, o, t, path + q) == Content(p, o, child, path[1..] + q);
        if |path| > 1 {
          WalkBelow(p, o, trees, child, path[1..]);
        } else {
          assert forall q: Path :: path[1..] + q == q;
        }
      }
    }
  }

  lemma WholeRoot(p: Platform, o: Objects, t: Directory)
    ensures StandsFor(p, o, t, [], t)
  {
    assert forall q: Path :: [] + q == q;
  }

  /**
   A read from a closed directory answers the bytes of the file at the path; at a directory its
   bytes, which decode to exactly what lies below the path; nothing exactly where no file lies at or
   below it; and an error exactly behind a file.
   */
  lemma ReadMeans(p: Platform, o: Objects, root: ObjectId, trees: set<ObjectId>, path: Path)
    requires Closed(p, o, trees) && root in trees
    ensures var (r, t) := (Read(p, o, root, path), GetTree(p, o, root).value);
            && (r.Err? <==> exists k :: 0 < k < |path| && ContentAt(p, o, root, path[..k]).Some?)
            && (r.Err? ==> r.error == PrefixNotTree && NothingBelow(p, o, t, path))
            && (r == Ok(None) ==> NothingBelow(p, o, t, path))
            && (r.Ok? && r.value.Some? && ContentAt(p, o, root, path).Some? ==> r.value == ContentAt(p, o, root, path))
            && (r.Ok? && r.value.Some? && ContentAt(p, o, root, path).None? ==>
                  p.decode(r.value.value).Some? && StandsFor(p, o, t, path, p.decode(r.value.value).value))
  {
    hide FromHex, Content, Walk, StandsFor, NothingBelow;
    var t := GetTree(p, o, root).value;
    WholeRoot(p, o, t);
    if path != [] {
      WalkBelow(p, o, trees, t, path);
      WalkMeaning(p, o, trees, t, path);
      assert Walk(p, o, t, path).Err? <==> FileOnTheWay(p, o, t, path);
    } else {
      EmptyContent(p, o, t);
    }
  }
}
