/** When every read from a root answers: exactly when all that the root leads to is there. */
module MerkleReads {
  import opened Basics
  import opened ObjectIds
  import opened Merkle
  import opened MerkleLaws

  /** The root lies in a set of directories that is closed under their entries. */
  ghost predicate Whole(p: Platform, o: Objects, root: ObjectId) {
    exists trees :: Closed(p, o, trees) && root in trees
  }

  /** A read answers, or stops at a file in the way. */
  predicate Answers(p: Platform, o: Objects, root: ObjectId, path: Path) {
    Read(p, o, root, path).Err? ==> Read(p, o, root, path).error == PrefixNotTree
  }

  ghost predicate Readable(p: Platform, o: Objects, root: ObjectId) {
    forall path :: Answers(p, o, root, path)
  }

  // ---------------------------------------------------------------- directories below a directory

  /** The names of `q` lead through directories to the entry of the directory `x`. */
  predicate Leads(p: Platform, o: Objects, t: Directory, q: Path, x: ObjectId)
    decreases |q|
  {
    && q != [] && q[0] in t.entries && t.entries[q[0]].kind == Tree
    && FromHex(t.entries[q[0]].id).Some?
    && var y := FromHex(t.entries[q[0]].id).value;
       if |q| == 1 then y == x
       else GetTree(p, o, y).Ok? && Leads(p, o, GetTree(p, o, y).value, q[1..], x)
  }

  /** Walking past the directory `x` is walking in it. */
  lemma {:induction false} WalkPast(p: Platform, o: Objects, t: Directory, q: Path, x: ObjectId, rest: Path)
    requires Leads(p, o, t, q, x) && rest != []
    ensures Walk(p, o, t, q + rest) == match GetTree(p, o, x) case Err(e) => Err(e) case Ok(child) => Walk(p, o, child, rest)
    decreases |q|
  {
    assert (q + rest)[0] == q[0];
    if |q| == 1 {
      assert (q + rest)[1..] == rest;
    } else {
      assert (q + rest)[1..] == q[1..] + rest;
      WalkPast(p, o, GetTree(p, o, FromHex(t.entries[q[0]].id).value).value, q[1..], x, rest);
    }
  }

  lemma {:induction false} LeadsOn(p: Platform, o: Objects, t: Directory, q: Path, x: ObjectId, name: string, y: ObjectId)
    requires Leads(p, o, t, q, x) && GetTree(p, o, x).Ok?
    requires Leads(p, o, GetTree(p, o, x).value, [name], y)
    ensures Leads(p, o, t, q + [name], y)
    decreases |q|
  {
    assert (q + [name])[0] == q[0];
    if |q| == 1 {
      assert (q + [name])[1..] == [name];
    } else {
      assert (q + [name])[1..] == q[1..] + [name];
      LeadsOn(p, o, GetTree(p, o, FromHex(t.entries[q[0]].id).value).value, q[1..], x, name, y);
    }
  }

  // ---------------------------------------------------------------- both directions

  /** Every directory that the root leads to, and the root. */
  ghost function Reached(p: Platform, o: Objects, root: ObjectId, t: Directory): set<ObjectId> {
    set x | x in o.files && (x == root || exists q :: Leads(p, o, t, q, x))
  }

  /** At a place where every read answers, each entry names something that is there. */
  lemma EntryThere(p: Platform, o: Objects, root: ObjectId, t: Directory, x: ObjectId, q: Path, name: string)
    requires Readable(p, o, root) && GetTree(p, o, root) == Ok(t)
    requires (x == root && q == []) || Leads(p, o, t, q, x)
    requires GetTree(p, o, x).Ok? && name in GetTree(p, o, x).value.entries
    ensures EntryIn(o, Reached(p, o, root, t), GetTree(p, o, x).value.entries[name])
  {
    var child := GetTree(p, o, x).value;
    var path := q + [name];
    assert Answers(p, o, root, path);
    if q == [] {
      assert path == [name];
    } else {
      WalkPast(p, o, t, q, x, [name]);
    }
    assert Walk(p, o, t, path) == Walk(p, o, child, [name]);
    var y := FromHex(child.entries[name].id).value;
    if child.entries[name].kind == Tree {
      assert Leads(p, o, child, [name], y);
      if q == [] {
        assert Leads(p, o, t, [name], y);
      } else {
        LeadsOn(p, o, t, q, x, name, y);
      }
    }
  }

  /** And the directory itself is there. */
  lemma PlaceThere(p: Platform, o: Objects, root: ObjectId, t: Directory, x: ObjectId, q: Path)
    requires Readable(p, o, root) && GetTree(p, o, root) == Ok(t) && Leads(p, o, t, q, x)
    ensures GetTree(p, o, x).Ok?
  {
    WalkPast(p, o, t, q, x, ["x"]);
    assert Answers(p, o, root, q + ["x"]);
  }

  lemma ReadableIsWhole(p: Platform, o: Objects, root: ObjectId)
    requires Readable(p, o, root)
    ensures Whole(p, o, root)
  {
    assert Answers(p, o, root, []);
    var t := GetTree(p, o, root).value;
    var trees := Reached(p, o, root, t);
    forall x | x in trees ensures GetTree(p, o, x).Ok? && EntriesIn(o, trees, GetTree(p, o, x).value) {
      var q: Path := [];
      if x != root {
        q :| Leads(p, o, t, q, x);
        PlaceThere(p, o, root, t, x, q);
      }
      forall name | name in GetTree(p, o, x).value.entries ensures EntryIn(o, trees, GetTree(p, o, x).value.entries[name]) {
        EntryThere(p, o, root, t, x, q, name);
      }
    }
    assert Closed(p, o, trees) && root in trees;
  }

  /** Every read from a root answers, or stops at a file in the way, exactly if the root is whole. */
  lemma ReadableIffWhole(p: Platform, o: Objects, root: ObjectId)
    ensures Readable(p, o, root) <==> Whole(p, o, root)
  {
    if Readable(p, o, root) {
      ReadableIsWhole(p, o, root);
    }
    if Whole(p, o, root) {
      var trees :| Closed(p, o, trees) && root in trees;
      forall path ensures Answers(p, o, root, path) {
        WholeAnswers(p, o, root, trees, path);
      }
    }
  }

  lemma WholeAnswers(p: Platform, o: Objects, root: ObjectId, trees: set<ObjectId>, path: Path)
    requires Closed(p, o, trees) && root in trees
    ensures Answers(p, o, root, path)
  {
    if path != [] {
      WalkMeaning(p, o, trees, GetTree(p, o, root).value, path);
    }
  }

  lemma WholeGrows(p: Platform, o: Objects, o': Objects, root: ObjectId)
    requires Whole(p, o, root) && Grows(o, o')
    ensures Whole(p, o', root)
  {
    var trees :| Closed(p, o, trees) && root in trees;
    ClosedGrows(p, o, o', trees);
  }
}
