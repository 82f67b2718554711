/** The parents that a recorder's tape gives back, against the parents in its tree. */
module TapeSeats {
  import opened Basics
  import opened Chains
  import opened Charters
  import opened Seats
  import opened Recorders

  // ---------------------------------------------------------------- parents on the tape, parents in the tree

  /**
   The tape's parents against the tree's: they agree on live workers, no cut worker is on the
   tape, and only workers at or below a cut one may be missing from it.
   */
  ghost predicate Tracks(up: map<Id, Id>, t: Nodes, cut: set<Id>, me: Id) {
    && me !in up
    && cut <= Edges(t).Keys
    && (forall x | x in up && x in Edges(t) :: up[x] == Edges(t)[x])
    && (forall x | x in cut :: x !in up)
    && (forall x | x in Edges(t) && x !in Under(t, cut) :: x in up)
  }

  predicate OneRoot(t: Nodes, me: Id) {
    forall x | x in t :: t[x].parent.None? <==> x == me
  }

  ghost function CutUp(up: map<Id, Id>, root: Id): map<Id, Id> {
    map x | x in up && !Above(up, x, root) :: up[x]
  }

  /** From a live seat the tape's chain runs through live seats, as the tree's does. */
  lemma LiveEdge(up: map<Id, Id>, t: Nodes, cut: set<Id>, me: Id, x: Id)
    requires Tracks(up, t, cut, me) && Rooted(t) && OneRoot(t, me) && x in t && x in up
    ensures x in Edges(t) && Edges(t)[x] == up[x] && up[x] in t
  {
    hide Under;
  }

  lemma {:induction false} LiveChain(up: map<Id, Id>, t: Nodes, cut: set<Id>, me: Id, x: Id, n: nat)
    requires Tracks(up, t, cut, me) && Rooted(t) && OneRoot(t, me) && x in t
    ensures Up(up, x, n).Some? ==> Up(up, x, n).value in t && Up(Edges(t), x, n) == Up(up, x, n)
    decreases n
  {
    hide Tracks, Rooted, OneRoot, Edges;
    if n > 0 && x in up {
      LiveEdge(up, t, cut, me, x);
      LiveChain(up, t, cut, me, up[x], n - 1);
    }
  }

  lemma LiveAbove(up: map<Id, Id>, t: Nodes, cut: set<Id>, me: Id, x: Id, y: Id)
    requires Tracks(up, t, cut, me) && Rooted(t) && OneRoot(t, me) && x in t && Above(up, x, y)
    ensures y in t && Above(Edges(t), x, y)
  {
    var n: nat :| Up(up, x, n) == Some(y);
    LiveChain(up, t, cut, me, x, n);
  }

  /** Every chain of parents ends at the one seat that has none. */
  lemma EveryoneUnderRoot(t: Nodes, me: Id, x: Id)
    requires Forest(t) && OneRoot(t, me) && x in t
    ensures me in t && Above(Edges(t), x, me)
  {
    var rank :| Ranked(Edges(t), rank);
    UnderRootBy(t, me, rank, x);
  }

  lemma {:induction false} UnderRootBy(t: Nodes, me: Id, rank: map<Id, nat>, x: Id)
    requires Rooted(t) && OneRoot(t, me) && x in t && Ranked(Edges(t), rank)
    ensures me in t && Above(Edges(t), x, me)
    decreases Rank(rank, x)
  {
    AboveStep(Edges(t), x, me);
    if x != me {
      UnderRootBy(t, me, rank, Edges(t)[x]);
    }
  }

  /** Every worker lies at or below a child of the recorder. */
  lemma {:induction false} UnderSomeHead(t: Nodes, me: Id, x: Id, n: nat) returns (head: Id)
    requires OneRoot(t, me) && x in Edges(t) && Up(Edges(t), x, n) == Some(me)
    ensures head in Edges(t) && Edges(t)[head] == me && Above(Edges(t), x, head)
    decreases n
  {
    if Edges(t)[x] == me {
      head := x;
    } else {
      head := UnderSomeHead(t, me, Edges(t)[x], n - 1);
    }
    AboveStep(Edges(t), x, head);
  }

  lemma HeadIsCut(up: map<Id, Id>, t: Nodes, cut: set<Id>, me: Id, root: Id, x: Id)
    requires Tracks(up, t, cut, me) && x in cut + Heads(t, me, root)
    ensures x !in CutUp(up, root)
  {
    hide Under;
    AboveStep(up, x, root);
    if x in up {
      AboveStep(up, up[x], root);
    }
  }

  lemma OutsideStays(up: map<Id, Id>, t: Nodes, cut: set<Id>, me: Id, root: Id, x: Id)
    requires Tracks(up, t, cut, me) && Forest(t) && OneRoot(t, me) && root in t
    requires x in Edges(t) && x !in Under(t, cut + Heads(t, me, root))
    ensures x in CutUp(up, root)
  {
    var cut' := cut + Heads(t, me, root);
    UnderMore(t, cut, cut', x);
    if Above(up, x, root) {
      LiveAbove(up, t, cut, me, x, root);
      CutIsUnder(t, me, root, x);
      UnderMore(t, Heads(t, me, root), cut', x);
    }
    hide Above, Under, Acyclic, Mirrored;
  }

  lemma CutTracks(up: map<Id, Id>, t: Nodes, cut: set<Id>, me: Id, root: Id)
    requires Tracks(up, t, cut, me) && Forest(t) && OneRoot(t, me) && root in t
    ensures Tracks(CutUp(up, root), t, cut + Heads(t, me, root), me)
  {
    forall x | x in cut + Heads(t, me, root) ensures x !in CutUp(up, root) {
      HeadIsCut(up, t, cut, me, root, x);
    }
    forall x | x in Edges(t) && x !in Under(t, cut + Heads(t, me, root)) ensures x in CutUp(up, root) {
      OutsideStays(up, t, cut, me, root, x);
    }
    hide Above, Acyclic, Mirrored, Under;
  }

  lemma UnderMore(t: Nodes, roots: set<Id>, more: set<Id>, x: Id)
    requires roots <= more
    ensures x in Under(t, roots) ==> x in Under(t, more)
  {
    if x in Under(t, roots) {
      var r :| r in roots && Above(Edges(t), x, r);
      assert r in more;
    }
  }

  lemma CutIsUnder(t: Nodes, me: Id, root: Id, x: Id)
    requires Forest(t) && OneRoot(t, me) && root in t && x in Edges(t) && Above(Edges(t), x, root)
    ensures x in Under(t, Heads(t, me, root))
  {
    if root == me {
      var n: nat :| Up(Edges(t), x, n) == Some(me);
      var head := UnderSomeHead(t, me, x, n);
      assert head in Heads(t, me, root);
    } else {
      assert root in Heads(t, me, root);
    }
  }

  /** A record that names no live seat cuts no live seat. */
  lemma AbsentTracks(up: map<Id, Id>, t: Nodes, cut: set<Id>, me: Id, id: Id)
    requires Tracks(up, t, cut, me) && Rooted(t) && OneRoot(t, me) && id !in t
    ensures Tracks(CutUp(up, id), t, cut, me)
  {
    var up' := CutUp(up, id);
    forall x | x in Edges(t) && x !in Under(t, cut) ensures x in up' {
      if Above(up, x, id) {
        LiveAbove(up, t, cut, me, x, id);
      }
    }
    hide Above, Under;
  }

  /** A spawn record for a seat that is not there touches no live seat, and makes no cycle. */
  lemma StrayTracks(up: map<Id, Id>, t: Nodes, cut: set<Id>, me: Id, id: Id, parent: Id)
    requires Tracks(up, t, cut, me) && Rooted(t) && OneRoot(t, me) && id !in t && id != me && parent in t && Acyclic(up)
    ensures Tracks(up[id := parent], t, cut, me) && Acyclic(up[id := parent])
  {
    if Above(up, parent, id) {
      LiveAbove(up, t, cut, me, parent, id);
    }
    LinkAcyclic(up, id, parent);
    hide Above, Under, Acyclic;
  }

  lemma MountEdges(t: Nodes, parent: Id, id: Id)
    requires Rooted(t) && id !in t && parent in t
    ensures Edges(Mount(t, id, Some(parent)).0) == Edges(t)[id := parent]
    ensures id !in Edges(t) && forall x | x in Edges(t) :: Edges(t)[x] != id
  {
  }

  lemma MountRoot(t: Nodes, me: Id, parent: Id, id: Id)
    requires OneRoot(t, me) && id !in t && parent in t && me in t
    ensures OneRoot(Mount(t, id, Some(parent)).0, me)
    ensures parent == me || parent in Edges(t)
  {
  }

  lemma StillUnder(t: Nodes, id: Id, parent: Id, cut: set<Id>, x: Id)
    requires Rooted(t) && id !in t && parent in t && x in Under(t, cut)
    ensures x in Under(Mount(t, id, Some(parent)).0, cut)
  {
    var t' := Mount(t, id, Some(parent)).0;
    MountEdges(t, parent, id);
    var r :| r in cut && Above(Edges(t), x, r);
    AboveInMore(Edges(t), Edges(t'), x, r);
    assert x in t';
  }

  /** A spawn record beside its mounted seat. */
  lemma MountTracks(up: map<Id, Id>, t: Nodes, cut: set<Id>, me: Id, id: Id, parent: Id)
    requires Tracks(up, t, cut, me) && Forest(t) && OneRoot(t, me) && id !in t && id != me && parent in t && me in t
    ensures Tracks(up[id := parent], Mount(t, id, Some(parent)).0, cut, me)
  {
    hide Under, Mount, Rooted, Mirrored, Acyclic, Edges, OneRoot;
    var t' := Mount(t, id, Some(parent)).0;
    var up' := up[id := parent];
    MountEdges(t, parent, id);
    forall x | x in Edges(t') && x !in Under(t', cut) ensures x in up' {
      if x != id && x in Under(t, cut) {
        StillUnder(t, id, parent, cut, x);
      }
    }
    assert forall x | x in up' && x in Edges(t') :: up'[x] == Edges(t')[x];
  }

  /** Removing seats keeps what the tape says of the others. */
  lemma PruneTracks(up: map<Id, Id>, t: Nodes, cut: set<Id>, me: Id, roots: set<Id>)
    requires Tracks(up, t, cut, me) && Forest(t)
    ensures Tracks(up, Pruned(t, roots), cut * Pruned(t, roots).Keys, me)
  {
    var t' := Pruned(t, roots);
    PrunedEdges(t, roots);
    forall x | x in Edges(t') && x !in Under(t', cut * t'.Keys) ensures x in up {
      if x in Under(t, cut) {
        CutBelowStays(t, cut, roots, x);
      }
    }
    hide Under, Above, Acyclic, Mirrored;
  }

  /** A seat that stays below a cut one stays below it: the cut one stays too. */
  lemma CutBelowStays(t: Nodes, cut: set<Id>, roots: set<Id>, x: Id)
    requires Forest(t) && x in Under(t, cut) && x in Pruned(t, roots)
    ensures x in Under(Pruned(t, roots), cut * Pruned(t, roots).Keys)
  {
    var t' := Pruned(t, roots);
    var r :| r in cut && Above(Edges(t), x, r);
    var n: nat :| Up(Edges(t), x, n) == Some(r);
    StaysAbove(t, roots, x, n);
    PrunedKeeps(t, roots);
    assert Above(Edges(t'), x, r);
    AboveIsThere(t', x, r);
    assert r in cut * t'.Keys;
  }

  // ---------------------------------------------------------------- nothing but live seats

  /** Everything on the tape is a live seat that lies below no cut one. */
  ghost predicate Clean(up: map<Id, Id>, t: Nodes, cut: set<Id>) {
    forall x | x in up :: x in t && x !in Under(t, cut)
  }

  lemma {:induction false} SameChain(up: map<Id, Id>, over: map<Id, Id>, x: Id, n: nat)
    requires forall y | y in up :: y in over && over[y] == up[y] && (up[y] in up || up[y] !in over)
    requires x in up
    ensures Up(up, x, n) == Up(over, x, n)
    decreases n
  {
    if n > 0 && up[x] in up {
      SameChain(up, over, up[x], n - 1);
    }
  }

  lemma CleanChain(up: map<Id, Id>, t: Nodes, cut: set<Id>, me: Id, x: Id, n: nat)
    requires Tracks(up, t, cut, me) && Clean(up, t, cut) && Rooted(t) && OneRoot(t, me) && x in up
    ensures Up(up, x, n) == Up(Edges(t), x, n)
  {
    hide Tracks, Clean, Rooted, OneRoot, Edges;
    forall y | y in up ensures y in Edges(t) && Edges(t)[y] == up[y] && (up[y] in up || up[y] !in Edges(t)) {
      CleanEdge(up, t, cut, me, y);
    }
    SameChain(up, Edges(t), x, n);
  }

  lemma CleanEdge(up: map<Id, Id>, t: Nodes, cut: set<Id>, me: Id, x: Id)
    requires Tracks(up, t, cut, me) && Clean(up, t, cut) && Rooted(t) && OneRoot(t, me) && x in up
    ensures x in Edges(t) && Edges(t)[x] == up[x] && (up[x] !in up ==> up[x] !in Edges(t))
  {
    UnderStep(t, cut, x);
    hide Under;
  }

  lemma CutClean(up: map<Id, Id>, t: Nodes, cut: set<Id>, me: Id, root: Id)
    requires Tracks(up, t, cut, me) && Clean(up, t, cut) && Forest(t) && OneRoot(t, me) && root in t
    ensures Clean(CutUp(up, root), t, cut + Heads(t, me, root))
    ensures forall x | x in CutUp(up, root) :: x !in Under(t, {root})
  {
    var cut' := cut + Heads(t, me, root);
    forall x | x in CutUp(up, root) ensures x !in Under(t, cut') && x !in Under(t, {root}) {
      if Above(Edges(t), x, root) {
        var n: nat :| Up(Edges(t), x, n) == Some(root);
        CleanChain(up, t, cut, me, x, n);
        assert Above(up, x, root);
      }
      NotUnderHeads(t, cut, me, root, x);
    }
  }

  lemma NotUnderHeads(t: Nodes, cut: set<Id>, me: Id, root: Id, x: Id)
    requires Forest(t) && x in t && x !in Under(t, cut) && !Above(Edges(t), x, root)
    ensures x !in Under(t, cut + Heads(t, me, root)) && x !in Under(t, {root})
  {
    if x in Under(t, cut + Heads(t, me, root)) {
      var r :| r in cut + Heads(t, me, root) && Above(Edges(t), x, r);
      AboveStep(Edges(t), r, root);
      if r !in cut {
        if r != root {
          AboveStep(Edges(t), Edges(t)[r], root);
        }
        AboveTrans(Edges(t), x, r, root);
      }
    }
  }

  /** Cutting at a seat that is not there leaves a clean tape as it is. */
  lemma AbsentClean(up: map<Id, Id>, t: Nodes, cut: set<Id>, me: Id, id: Id)
    requires Tracks(up, t, cut, me) && Clean(up, t, cut) && Rooted(t) && OneRoot(t, me) && id !in t
    ensures CutUp(up, id) == up
  {
    forall x | x in up ensures !Above(up, x, id) {
      if Above(up, x, id) {
        LiveAbove(up, t, cut, me, x, id);
      }
    }
  }

  lemma MountClean(up: map<Id, Id>, t: Nodes, cut: set<Id>, me: Id, id: Id, parent: Id)
    requires Tracks(up, t, cut, me) && Clean(up, t, cut) && Forest(t) && id !in t && parent in t && parent !in Under(t, cut)
    ensures Clean(up[id := parent], Mount(t, id, Some(parent)).0, cut)
  {
    var t' := Mount(t, id, Some(parent)).0;
    MountEdges(t, parent, id);
    forall x | x in up[id := parent] ensures x in t' && x !in Under(t', cut) {
      var y := if x == id then parent else x;
      assert y in t && y !in Under(t, cut);
      MountedNotUnder(t, id, parent, cut, y);
      if x == id {
        MountKeeps(t, id, Some(parent));
        UnderStep(t', cut, id);
      }
    }
  }

  lemma MountedNotUnder(t: Nodes, id: Id, parent: Id, cut: set<Id>, y: Id)
    requires Forest(t) && id !in t && parent in t && y in t && y !in Under(t, cut)
    ensures y !in Under(Mount(t, id, Some(parent)).0, cut)
  {
    var t' := Mount(t, id, Some(parent)).0;
    MountEdges(t, parent, id);
    if y in Under(t', cut) {
      var r :| r in cut && Above(Edges(t'), y, r);
      var n: nat :| Up(Edges(t'), y, n) == Some(r);
      ChainBeforeMount(t, id, parent, y, n);
      assert Above(Edges(t), y, r);
    }
  }

  lemma {:induction false} ChainBeforeMount(t: Nodes, id: Id, parent: Id, y: Id, n: nat)
    requires Rooted(t) && id !in t && parent in t && y in t
    ensures Up(Edges(Mount(t, id, Some(parent)).0), y, n) == Up(Edges(t), y, n)
    decreases n
  {
    MountEdges(t, parent, id);
    if n > 0 && y in Edges(t) {
      ChainBeforeMount(t, id, parent, Edges(t)[y], n - 1);
    }
  }

  lemma PrunedUnderLess(t: Nodes, roots: set<Id>, cut: set<Id>, x: Id)
    ensures x in Under(Pruned(t, roots), cut * Pruned(t, roots).Keys) ==> x in Under(t, cut)
  {
    var t' := Pruned(t, roots);
    PrunedEdges(t, roots);
    if x in Under(t', cut * t'.Keys) {
      var r :| r in cut * t'.Keys && Above(Edges(t'), x, r);
      AboveInMore(Edges(t'), Edges(t), x, r);
      assert r in cut;
    }
  }

  lemma PruneClean(up: map<Id, Id>, t: Nodes, cut: set<Id>, roots: set<Id>)
    requires Clean(up, t, cut) && Forest(t) && forall x | x in up :: x !in Under(t, roots)
    ensures Clean(up, Pruned(t, roots), cut * Pruned(t, roots).Keys)
  {
    PrunedEdges(t, roots);
    forall x | x in up ensures x in Pruned(t, roots) && x !in Under(Pruned(t, roots), cut * Pruned(t, roots).Keys) {
      PrunedUnderLess(t, roots, cut, x);
    }
  }
}
