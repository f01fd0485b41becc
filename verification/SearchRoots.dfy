// Removing overlap between the agent's search roots
// (crates/catalerum-agent/src/ops.rs, `AgentState::search`).

module SearchRoots {
  /** A canonical path, as its components. `a` is an ancestor of (or equal to) `b` exactly
      when `a <= b`, which is what `b.starts_with(a)` tests. */
  type Path = seq<string>

  predicate Covers(roots: seq<Path>, p: Path) {
    exists r :: r in roots && r <= p
  }

  /** No root is under another, and none is listed twice. */
  ghost predicate Antichain(roots: seq<Path>) {
    forall i, j :: 0 <= i < |roots| && 0 <= j < |roots| && i != j ==> Apart(roots, i, j)
  }

  ghost predicate Apart(roots: seq<Path>, i: int, j: int)
    requires 0 <= i < |roots| && 0 <= j < |roots|
  {
    !(roots[i] <= roots[j])
  }

  /** A root with no other root strictly above it. */
  ghost predicate Topmost(roots: seq<Path>, p: Path) {
    p in roots && forall r :: r in roots && r <= p ==> r == p
  }

  /** `retain`: the roots that are not under `root`, in order. */
  function NotUnder(roots: seq<Path>, root: Path): (kept: seq<Path>)
    ensures forall p :: p in kept <==> p in roots && !(root <= p)
  {
    if roots == [] then []
    else
      var rest := NotUnder(roots[1..], root);
      if root <= roots[0] then rest else [roots[0]] + rest
  }

  lemma AddIncomparable(roots: seq<Path>, p: Path)
    requires Antichain(roots)
    requires forall r :: r in roots ==> !(p <= r) && !(r <= p)
    ensures Antichain([p] + roots) && Antichain(roots + [p])
  {
    forall i, j | 0 <= i < |roots| + 1 && 0 <= j < |roots| + 1 && i != j
      ensures Apart([p] + roots, i, j)
    {
      assert i > 0 ==> ([p] + roots)[i] == roots[i - 1] && roots[i - 1] in roots;
      assert j > 0 ==> ([p] + roots)[j] == roots[j - 1] && roots[j - 1] in roots;
      assert i > 0 && j > 0 ==> Apart(roots, i - 1, j - 1);
    }
    forall i, j | 0 <= i < |roots| + 1 && 0 <= j < |roots| + 1 && i != j
      ensures Apart(roots + [p], i, j)
    {
      assert i < |roots| ==> (roots + [p])[i] == roots[i] && roots[i] in roots;
      assert j < |roots| ==> (roots + [p])[j] == roots[j] && roots[j] in roots;
      assert i < |roots| && j < |roots| ==> Apart(roots, i, j);
    }
  }

  lemma TakeFirst(roots: seq<Path>)
    requires Antichain(roots) && roots != []
    ensures Antichain(roots[1..])
    ensures forall p :: p in roots[1..] ==> !(roots[0] <= p) && !(p <= roots[0])
  {
    forall i, j | 0 <= i < |roots| - 1 && 0 <= j < |roots| - 1 && i != j
      ensures Apart(roots[1..], i, j)
    {
      assert Apart(roots, i + 1, j + 1);
    }
    forall p | p in roots[1..]
      ensures !(roots[0] <= p) && !(p <= roots[0])
    {
      var k :| 0 <= k < |roots| - 1 && roots[1..][k] == p;
      assert Apart(roots, 0, k + 1) && Apart(roots, k + 1, 0);
    }
  }

  lemma {:induction false} NotUnderKeepsAntichain(roots: seq<Path>, root: Path)
    requires Antichain(roots)
    ensures Antichain(NotUnder(roots, root))
  {
    if roots != [] {
      TakeFirst(roots);
      NotUnderKeepsAntichain(roots[1..], root);
      AddIncomparable(NotUnder(roots[1..], root), roots[0]);
    }
  }

  /** What the loop has after the roots seen so far: an antichain of them that covers them. */
  ghost predicate Kept(seen: seq<Path>, unique: seq<Path>) {
    && Antichain(unique)
    && (forall r :: r in unique ==> r in seen)
    && (forall r :: r in seen ==> Covers(unique, r))
  }

  lemma PushKeeps(seen: seq<Path>, unique: seq<Path>, root: Path)
    requires Kept(seen, unique) && !Covers(unique, root)
    ensures Kept(seen + [root], NotUnder(unique, root) + [root])
  {
    NotUnderKeepsAntichain(unique, root);
    AddIncomparable(NotUnder(unique, root), root);
    PushKeepsCover(unique, root, seen);
  }

  lemma NextRoot(roots: seq<Path>, i: nat)
    requires i < |roots|
    ensures roots[..i + 1] == roots[..i] + [roots[i]]
  {
  }

  /** The skip/retain/push loop: an antichain drawn from the input, covering exactly the
      same paths. */
  method UniqueRoots(roots: seq<Path>) returns (unique: seq<Path>)
    ensures Antichain(unique)
    ensures forall r :: r in unique ==> r in roots
    ensures forall p :: Covers(unique, p) <==> Covers(roots, p)
  {
    unique := [];
    for i := 0 to |roots|
      invariant Kept(roots[..i], unique)
    {
      var root := roots[i];
      NextRoot(roots, i);
      if exists existing :: existing in unique && existing <= root {
        continue;
      }
      PushKeeps(roots[..i], unique, root);
      unique := NotUnder(unique, root);
      unique := unique + [root];
    }
    assert roots[..|roots|] == roots;
  }

  lemma PushKeepsCover(unique: seq<Path>, root: Path, seen: seq<Path>)
    requires forall r :: r in seen ==> Covers(unique, r)
    ensures forall r :: r in seen + [root] ==> Covers(NotUnder(unique, root) + [root], r)
  {
    var after := NotUnder(unique, root) + [root];
    forall r | r in seen + [root]
      ensures Covers(after, r)
    {
      if r in seen {
        var u :| u in unique && u <= r;
        if root <= u {
          assert root in after && root <= r;
        } else {
          assert u in after;
        }
      } else {
        assert root in after;
      }
    }
  }

  /** An antichain drawn from `roots` that covers them can only be their topmost elements:
      so what the loop keeps does not depend on the order of the input. */
  lemma CoveringAntichainIsTopmost(roots: seq<Path>, unique: seq<Path>, p: Path)
    requires Antichain(unique)
    requires forall r :: r in unique ==> r in roots
    requires forall q :: Covers(unique, q) <==> Covers(roots, q)
    ensures p in unique <==> Topmost(roots, p)
  {
    if p in unique {
      forall r | r in roots && r <= p
        ensures r == p
      {
        assert Covers(roots, r);
        var u :| u in unique && u <= r;
        AntichainMembers(unique, u, p);
      }
    }
    if Topmost(roots, p) {
      assert Covers(roots, p);
      var u :| u in unique && u <= p;
      assert u == p;
    }
  }

  lemma AntichainMembers(unique: seq<Path>, u: Path, p: Path)
    requires Antichain(unique) && u in unique && p in unique && u <= p
    ensures u == p
  {
    var i :| 0 <= i < |unique| && unique[i] == u;
    var j :| 0 <= j < |unique| && unique[j] == p;
    assert i != j ==> Apart(unique, i, j);
  }

  lemma OrderDoesNotMatter(roots: seq<Path>, shuffled: seq<Path>, u: seq<Path>, v: seq<Path>)
    requires forall r :: r in roots <==> r in shuffled
    requires Antichain(u) && (forall r :: r in u ==> r in roots)
    requires Antichain(v) && (forall r :: r in v ==> r in shuffled)
    requires forall q :: Covers(u, q) <==> Covers(roots, q)
    requires forall q :: Covers(v, q) <==> Covers(shuffled, q)
    ensures multiset(u) == multiset(v)
  {
    forall p
      ensures p in u <==> p in v
    {
      assert forall q :: Covers(roots, q) <==> Covers(shuffled, q) by {
        forall q
          ensures Covers(roots, q) <==> Covers(shuffled, q)
        {
        }
      }
      CoveringAntichainIsTopmost(roots, u, p);
      CoveringAntichainIsTopmost(shuffled, v, p);
    }
    AntichainOnce(u);
    AntichainOnce(v);
    assert forall p :: multiset(u)[p] == multiset(v)[p];
  }

  lemma {:induction false} AntichainOnce(u: seq<Path>)
    requires Antichain(u)
    ensures forall p :: multiset(u)[p] == if p in u then 1 else 0
  {
    if u != [] {
      TakeFirst(u);
      AntichainOnce(u[1..]);
      assert u == [u[0]] + u[1..];
    }
  }
}
