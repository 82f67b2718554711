/** Chains of single upward links: supervisors of instances, and parents of seats. */
module Chains {
  import opened Basics

  /** `n` links up from `x`. */
  function Up<T(==)>(up: map<T, T>, x: T, n: nat): Option<T>
    decreases n
  {
    if n == 0 then Some(x)
    else if x !in up then None
    else Up(up, up[x], n - 1)
  }

  /** `y` is `x` or lies above it. */
  ghost predicate Above<T>(up: map<T, T>, x: T, y: T) {
    exists n: nat :: Up(up, x, n) == Some(y)
  }

  function Rank<T(==)>(rank: map<T, nat>, x: T): nat {
    if x in rank then rank[x] else 0
  }

  ghost predicate Ranked<T(!new)>(up: map<T, T>, rank: map<T, nat>) {
    forall c | c in up :: Rank(rank, up[c]) < Rank(rank, c)
  }

  ghost predicate Acyclic<T(!new)>(up: map<T, T>) {
    exists rank :: Ranked(up, rank)
  }

  lemma {:induction false} UpDescends<T(!new)>(up: map<T, T>, rank: map<T, nat>, x: T, n: nat)
    requires Ranked(up, rank)
    ensures Up(up, x, n).Some? ==> Rank(rank, Up(up, x, n).value) + n <= Rank(rank, x)
    decreases n
  {
    if n > 0 && x in up {
      UpDescends(up, rank, up[x], n - 1);
    }
  }

  /** Nothing lies above itself. */
  lemma NobodyAboveItself<T(!new)>(up: map<T, T>, x: T, n: nat)
    requires Acyclic(up) && n > 0
    ensures Up(up, x, n) != Some(x)
  {
    var rank :| Ranked(up, rank);
    UpDescends(up, rank, x, n);
  }

  lemma AboveStep<T(!new)>(up: map<T, T>, x: T, y: T)
    ensures Above(up, x, y) <==> x == y || (x in up && Above(up, up[x], y))
  {
    if Above(up, x, y) && x != y {
      var n: nat :| Up(up, x, n) == Some(y);
      assert Up(up, up[x], n - 1) == Some(y);
    }
    if x == y {
      assert Up(up, x, 0) == Some(y);
    }
    if x in up && Above(up, up[x], y) {
      var n: nat :| Up(up, up[x], n) == Some(y);
      assert Up(up, x, n + 1) == Some(y);
    }
  }

  lemma {:induction false} UpTrans<T(!new)>(up: map<T, T>, x: T, n: nat, m: nat)
    ensures Up(up, x, n).Some? ==> Up(up, x, n + m) == Up(up, Up(up, x, n).value, m)
    decreases n
  {
    if n > 0 && x in up {
      UpTrans(up, up[x], n - 1, m);
    }
  }

  lemma AboveTrans<T(!new)>(up: map<T, T>, x: T, y: T, z: T)
    requires Above(up, x, y) && Above(up, y, z)
    ensures Above(up, x, z)
  {
    var n: nat :| Up(up, x, n) == Some(y);
    var m: nat :| Up(up, y, m) == Some(z);
    UpTrans(up, x, n, m);
  }

  /** A new link from `c` to something `c` is not above keeps the links acyclic, also when it replaces one. */
  lemma LinkAcyclic<T(!new)>(up: map<T, T>, c: T, p: T)
    requires Acyclic(up) && !Above(up, p, c)
    ensures Acyclic(up[c := p])
  {
    var rank :| Ranked(up, rank);
    var lift := Rank(rank, p) + 1;
    var names := rank.Keys + up.Keys + {c, p};
    var rank' := map x | x in names :: if Above(up, x, c) then Rank(rank, x) + lift else Rank(rank, x);
    var up' := up[c := p];
    forall x | x in up' ensures Rank(rank', up'[x]) < Rank(rank', x) {
      AboveStep(up, x, c);
      if x != c {
        if up[x] in names {
        } else {
          AboveStep(up, up[x], c);
        }
      }
    }
    assert Ranked(up', rank');
  }

  lemma FewerAcyclic<T(!new)>(up: map<T, T>, up': map<T, T>)
    requires Acyclic(up) && forall c | c in up' :: c in up && up'[c] == up[c]
    ensures Acyclic(up')
  {
    var rank :| Ranked(up, rank);
    assert Ranked(up', rank);
  }

  /** A chain is no longer than the map it runs through. */
  lemma ChainFits<T(!new)>(up: map<T, T>, x: T, n: nat)
    requires Acyclic(up) && Up(up, x, n).Some?
    ensures n <= |up|
  {
    var rank :| Ranked(up, rank);
    ChainFitsBelow(up, rank, x, n, up.Keys);
  }

  lemma {:induction false} ChainFitsBelow<T(!new)>(up: map<T, T>, rank: map<T, nat>, x: T, n: nat, names: set<T>)
    requires Ranked(up, rank) && Up(up, x, n).Some?
    requires forall c | c in up && Rank(rank, c) <= Rank(rank, x) :: c in names
    ensures n <= |names|
    decreases n
  {
    if n > 0 {
      ChainFitsBelow(up, rank, up[x], n - 1, names - {x});
    }
  }
}
