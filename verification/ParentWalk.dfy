/** Walking up a parent map: what a chain of ancestors is, when it reaches a root, and
    how re-parenting one node changes every other node's chain.  Nothing here assumes
    that the map is acyclic or that parents exist. */
module ParentWalk {
  import opened Domain

  type Parents = map<Id, Option<Id>>

  function ParentOf(p: Parents, x: Id): Option<Id> {
    if x in p then p[x] else None
  }

  /** The loop of ancestorChain: follow parents until there is none or one was seen. */
  function Walk(p: Parents, current: Option<Id>, seen: set<Id>): seq<Id>
    decreases p.Keys - seen, current.Some?
  {
    if current.None? || current.value in seen then []
    else
      assert current.value !in p ==> p.Keys - (seen + {current.value}) == p.Keys - seen;
      [current.value] + Walk(p, ParentOf(p, current.value), seen + {current.value})
  }

  /** x followed by its ancestors, nearest first. */
  function Chain(p: Parents, x: Id): seq<Id> {
    Walk(p, Some(x), {})
  }

  ghost predicate Distinct(c: seq<Id>) {
    forall i, j :: 0 <= i < j < |c| ==> c[i] != c[j]
  }

  ghost predicate Links(p: Parents, c: seq<Id>) {
    forall i :: 0 <= i < |c| - 1 ==> ParentOf(p, c[i]) == Some(c[i + 1])
  }

  ghost predicate StopsAfter(p: Parents, c: seq<Id>, seen: set<Id>)
    requires c != []
  {
    var q := ParentOf(p, c[|c| - 1]);
    q.None? || q.value in seen || q.value in c
  }

  /** What ancestorChain promises, without reference to how it computes it. */
  ghost predicate IsAncestorChain(p: Parents, x: Id, c: seq<Id>) {
    c != [] && c[0] == x && Links(p, c) && Distinct(c) && StopsAfter(p, c, {})
  }

  /** A chain that ends at a node without a parent. */
  ghost predicate RootPath(p: Parents, x: Id, c: seq<Id>) {
    c != [] && c[0] == x && Links(p, c) && ParentOf(p, c[|c| - 1]) == None
  }

  ghost predicate Rooted(p: Parents, x: Id) {
    RootPath(p, x, Chain(p, x))
  }

  ghost predicate CyclePath(p: Parents, c: seq<Id>) {
    |c| >= 2 && Links(p, c) && c[0] == c[|c| - 1]
  }

  ghost predicate OnCycle(p: Parents, x: Id) {
    exists c :: CyclePath(p, c) && c[0] == x
  }

  ghost predicate Acyclic(p: Parents) {
    forall c :: !CyclePath(p, c)
  }

  ghost predicate Closed(p: Parents) {
    forall x :: x in p && p[x].Some? ==> p[x].value in p
  }

  function Depth(p: Parents, x: Id): nat {
    |Chain(p, x)|
  }

  lemma {:induction false} WalkProperties(p: Parents, x: Id, seen: set<Id>)
    requires x !in seen
    ensures var c := Walk(p, Some(x), seen);
            && c != [] && c[0] == x && Links(p, c) && Distinct(c) && StopsAfter(p, c, seen)
            && forall i :: 0 <= i < |c| ==> c[i] !in seen
    decreases p.Keys - seen, 1
  {
    var q := ParentOf(p, x);
    var seen' := seen + {x};
    var c := Walk(p, Some(x), seen);
    var rest := Walk(p, q, seen');
    assert c == [x] + rest;
    if q.Some? && q.value !in seen' {
      assert x in p;
      WalkProperties(p, q.value, seen');
      assert forall i :: 1 <= i < |c| ==> c[i] == rest[i - 1];
      assert ParentOf(p, c[|c| - 1]) == ParentOf(p, rest[|rest| - 1]);
    }
  }

  /** Following parents is deterministic. */
  lemma {:induction false} LinksAgree(p: Parents, c: seq<Id>, d: seq<Id>, i: nat)
    requires Links(p, c) && Links(p, d) && i < |c| && i < |d| && c[0] == d[0]
    ensures c[i] == d[i]
  {
    if i > 0 {
      LinksAgree(p, c, d, i - 1);
      assert ParentOf(p, c[i - 1]) == Some(c[i]) && ParentOf(p, d[i - 1]) == Some(d[i]);
    }
  }

  lemma ChainsAgree(p: Parents, x: Id, c: seq<Id>, d: seq<Id>)
    requires IsAncestorChain(p, x, c) && IsAncestorChain(p, x, d) && |c| <= |d|
    ensures c == d
  {
    assert |c| < |d| ==> ParentOf(p, d[|c| - 1]) == Some(d[|c|]);
    forall i | 0 <= i < |c| ensures c[i] == d[i] { LinksAgree(p, c, d, i); }
  }

  /** ancestorChain returns, for every parent map, cyclic and dangling ones included, the
      one repetition-free chain that stops only at a root or just before a repeat. */
  lemma ChainIsTheAncestorChain(p: Parents, x: Id, c: seq<Id>)
    ensures IsAncestorChain(p, x, c) <==> c == Chain(p, x)
  {
    WalkProperties(p, x, {});
    if IsAncestorChain(p, x, c) {
      if |c| <= Depth(p, x) { ChainsAgree(p, x, c, Chain(p, x)); } else { ChainsAgree(p, x, Chain(p, x), c); }
    }
  }

  lemma RootPathUnique(p: Parents, x: Id, c: seq<Id>, d: seq<Id>)
    requires RootPath(p, x, c) && RootPath(p, x, d)
    ensures c == d
  {
    var n := if |c| <= |d| then |c| else |d|;
    assert n < |d| ==> ParentOf(p, d[n - 1]) == Some(d[n]);
    assert n < |c| ==> ParentOf(p, c[n - 1]) == Some(c[n]);
    forall i | 0 <= i < n ensures c[i] == d[i] { LinksAgree(p, c, d, i); }
  }

  /** A path that reaches a root has no repeats, so it is what the walk computes. */
  lemma RootPathIsChain(p: Parents, x: Id, c: seq<Id>)
    requires RootPath(p, x, c)
    ensures c == Chain(p, x) && Rooted(p, x)
  {
    forall i, j | 0 <= i < j < |c| ensures c[i] != c[j] {
      if c[i] == c[j] { RootPathUnique(p, c[i], c[i..], c[j..]); }
    }
    ChainIsTheAncestorChain(p, x, c);
  }

  /** Every ancestor of a rooted node is rooted, and its chain is a tail of the node's. */
  lemma SubChain(p: Parents, x: Id, i: nat)
    requires Rooted(p, x) && i < Depth(p, x)
    ensures Rooted(p, Chain(p, x)[i]) && Chain(p, Chain(p, x)[i]) == Chain(p, x)[i..]
  {
    RootPathIsChain(p, Chain(p, x)[i], Chain(p, x)[i..]);
  }

  lemma ChainOfChild(p: Parents, x: Id, q: Id)
    requires ParentOf(p, x) == Some(q) && (Rooted(p, q) || Rooted(p, x))
    ensures Rooted(p, q) && Rooted(p, x) && Chain(p, x) == [x] + Chain(p, q)
  {
    if Rooted(p, x) {
      var c := Chain(p, x);
      assert |c| > 1;
      SubChain(p, x, 1);
      assert c == [x] + c[1..];
    } else {
      RootPathIsChain(p, x, [x] + Chain(p, q));
    }
  }

  lemma ChainOfRoot(p: Parents, x: Id)
    requires ParentOf(p, x) == None
    ensures Rooted(p, x) && Chain(p, x) == [x]
  {
    RootPathIsChain(p, x, [x]);
  }

  lemma ChainDistinct(p: Parents, x: Id)
    ensures Distinct(Chain(p, x)) && Chain(p, x) != [] && Chain(p, x)[0] == x
  {
    WalkProperties(p, x, {});
  }

  lemma RootedNotOnCycle(p: Parents, y: Id)
    requires Rooted(p, y)
    ensures !OnCycle(p, y)
  {
    var e := Chain(p, y);
    forall d | CyclePath(p, d) && d[0] == y ensures false {
      var n := if |e| <= |d| then |e| else |d|;
      assert n < |d| ==> ParentOf(p, d[n - 1]) == Some(d[n]);
      ChainDistinct(p, y);
      LinksAgree(p, e, d, n - 1);
    }
  }

  lemma UnrootedReachesCycle(p: Parents, x: Id)
    requires !Rooted(p, x)
    ensures exists y :: y in Chain(p, x) && OnCycle(p, y)
  {
    var c := Chain(p, x);
    WalkProperties(p, x, {});
    var q := ParentOf(p, c[|c| - 1]);
    var j :| 0 <= j < |c| && c[j] == q.value;
    assert CyclePath(p, c[j..] + [q.value]);
    assert OnCycle(p, c[j]);
  }

  /** A node's parent chain fails to end exactly when some node on it lies on a cycle. */
  lemma RootedIffNoCycleAbove(p: Parents, x: Id)
    ensures Rooted(p, x) <==> forall y :: y in Chain(p, x) ==> !OnCycle(p, y)
  {
    if Rooted(p, x) {
      forall y | y in Chain(p, x) ensures !OnCycle(p, y) {
        var i :| 0 <= i < Depth(p, x) && Chain(p, x)[i] == y;
        SubChain(p, x, i);
        RootedNotOnCycle(p, y);
      }
    } else {
      UnrootedReachesCycle(p, x);
    }
  }

  lemma AcyclicIffAllRooted(p: Parents)
    ensures Acyclic(p) <==> forall x :: Rooted(p, x)
  {
    if Acyclic(p) {
      forall x ensures Rooted(p, x) { RootedIffNoCycleAbove(p, x); }
    }
    if forall x :: Rooted(p, x) {
      forall c | CyclePath(p, c) ensures false {
        RootedNotOnCycle(p, c[0]);
      }
    }
  }

  // ----- re-parenting -----

  /** May s be put under np: np exists and s is not np or one of np's ancestors. */
  ghost predicate CanMove(p: Parents, s: Id, np: Option<Id>) {
    && s in p
    && (np.Some? ==> Rooted(p, np.value) && s !in Chain(p, np.value))
  }

  function DepthOption(p: Parents, np: Option<Id>): nat {
    if np.None? then 0 else Depth(p, np.value)
  }

  lemma MoveChainElsewhere(p: Parents, s: Id, np: Option<Id>, x: Id)
    requires Rooted(p, x) && s !in Chain(p, x)
    ensures Rooted(p[s := np], x) && Chain(p[s := np], x) == Chain(p, x)
  {
    hide Chain;
    var p', c := p[s := np], Chain(p, x);
    forall k | 0 <= k < |c| ensures ParentOf(p', c[k]) == ParentOf(p, c[k]) { assert c[k] != s; }
    RootPathIsChain(p', x, c);
  }

  lemma MoveChainBelow(p: Parents, s: Id, np: Option<Id>, x: Id)
    requires CanMove(p, s, np) && Rooted(p, x) && s in Chain(p, x)
    ensures Rooted(p[s := np], x) && s in Chain(p[s := np], x)
    ensures Depth(p[s := np], x) == Depth(p, x) - Depth(p, s) + DepthOption(p, np) + 1
  {
    hide Chain;
    var p', c := p[s := np], Chain(p, x);
    ChainDistinct(p, x);
    var i :| 0 <= i < |c| && c[i] == s;
    SubChain(p, x, i);
    var top := if np.None? then [] else Chain(p, np.value);
    if np.Some? { ChainDistinct(p, np.value); }
    var d := c[..i + 1] + top;
    forall k | 0 <= k < |d| - 1 ensures ParentOf(p', d[k]) == Some(d[k + 1]) {
      if k < i { assert c[k] != c[i]; }
      else if k > i { assert d[k] == top[k - i - 1] && d[k + 1] == top[k - i]; }
    }
    RootPathIsChain(p', x, d);
    assert d[i] == s;
  }

  /** The depth law of a move: a node below s shifts by the same amount as s, which lands
      one below its new parent; every other node keeps its depth. */
  lemma MoveChain(p: Parents, s: Id, np: Option<Id>, x: Id)
    requires CanMove(p, s, np) && Rooted(p, x)
    ensures Rooted(p[s := np], x)
    ensures s !in Chain(p, x) ==> Chain(p[s := np], x) == Chain(p, x)
    ensures s in Chain(p, x) ==>
              && Depth(p[s := np], x) == Depth(p, x) - Depth(p, s) + DepthOption(p, np) + 1
              && s in Chain(p[s := np], x)
  {
    if s in Chain(p, x) { MoveChainBelow(p, s, np, x); } else { MoveChainElsewhere(p, s, np, x); }
  }

  /** createsCycle is exact: on an acyclic map the re-parenting creates a cycle precisely
      when the moved node is the new parent or one of its ancestors. */
  lemma MoveCreatesCycleIff(p: Parents, s: Id, np: Id)
    requires Acyclic(p) && s in p
    ensures s in Chain(p, np) <==> !Acyclic(p[s := Some(np)])
  {
    var p' := p[s := Some(np)];
    AcyclicIffAllRooted(p);
    if s in Chain(p, np) {
      var c := Chain(p, np);
      WalkProperties(p, np, {});
      var i :| 0 <= i < |c| && c[i] == s;
      var d := [s] + c[..i + 1];
      forall k | 0 <= k < |d| - 1 ensures ParentOf(p', d[k]) == Some(d[k + 1]) {
        if k > 0 { assert c[k - 1] != c[i]; }
      }
      assert CyclePath(p', d);
    } else {
      forall x ensures Rooted(p', x) { MoveChain(p, s, Some(np), x); }
      AcyclicIffAllRooted(p');
    }
  }

  lemma MoveKeepsForest(p: Parents, s: Id, np: Option<Id>)
    requires Acyclic(p) && Closed(p) && s in p
    requires np.Some? ==> np.value in p && s !in Chain(p, np.value)
    ensures Acyclic(p[s := np]) && Closed(p[s := np]) && CanMove(p, s, np)
  {
    AcyclicIffAllRooted(p);
    var p' := p[s := np];
    forall x ensures Rooted(p', x) { MoveChain(p, s, np, x); }
    AcyclicIffAllRooted(p');
  }

  // ----- subtrees, heights and the depth limit -----

  ghost function Subtree(p: Parents, s: Id): set<Id> {
    set x | x in p && s in Chain(p, x)
  }

  ghost function MaxDepth(p: Parents, xs: set<Id>): nat {
    if xs == {} then 0
    else var x :| x in xs;
      var rest := MaxDepth(p, xs - {x});
      if rest < Depth(p, x) then Depth(p, x) else rest
  }

  lemma {:induction false} MaxDepthIsLeastBound(p: Parents, xs: set<Id>, b: nat)
    ensures MaxDepth(p, xs) <= b <==> forall x :: x in xs ==> Depth(p, x) <= b
    decreases xs
  {
    if xs != {} {
      var x :| x in xs && MaxDepth(p, xs) == var rest := MaxDepth(p, xs - {x});
                                             if rest < Depth(p, x) then Depth(p, x) else rest;
      MaxDepthIsLeastBound(p, xs - {x}, b);
      assert xs == (xs - {x}) + {x};
    }
  }

  /** Levels in the subtree of s, s itself included. */
  ghost function Height(p: Parents, s: Id): int {
    MaxDepth(p, Subtree(p, s)) - Depth(p, s) + 1
  }

  ghost predicate WithinLimit(p: Parents, limit: nat) {
    forall x :: x in p ==> Depth(p, x) <= limit
  }

  /** A forest within the limit stays within it exactly when the new parent's depth plus
      the height of the moved subtree does not exceed the limit. */
  lemma MoveKeepsLimitIff(p: Parents, s: Id, np: Option<Id>, limit: nat)
    requires Acyclic(p) && CanMove(p, s, np) && WithinLimit(p, limit)
    ensures WithinLimit(p[s := np], limit) <==> DepthOption(p, np) + Height(p, s) <= limit
  {
    var p' := p[s := np];
    AcyclicIffAllRooted(p);
    var below := Subtree(p, s);
    ChainDistinct(p, s);
    assert s in below;
    MaxDepthIsLeastBound(p, below, MaxDepth(p, below));
    forall x | x in p ensures (x in below ==> Depth(p', x) == Depth(p, x) - Depth(p, s) + DepthOption(p, np) + 1)
                           && (x !in below ==> Depth(p', x) == Depth(p, x)) {
      MoveChain(p, s, np, x);
    }
    var shift := limit + Depth(p, s) - DepthOption(p, np) - 1;
    if shift >= 0 {
      MaxDepthIsLeastBound(p, below, shift);
    }
    if WithinLimit(p', limit) {
      assert s in p' && Depth(p', s) <= limit;
      assert shift >= 0;
      forall x | x in below ensures Depth(p, x) <= shift { assert x in p' && Depth(p', x) <= limit; }
    }
  }

  // ----- adding a node, removing a subtree -----

  lemma AddKeepsForest(p: Parents, x: Id, np: Option<Id>)
    requires Acyclic(p) && Closed(p) && x !in p && (np.Some? ==> np.value in p)
    ensures Acyclic(p[x := np]) && Closed(p[x := np])
    ensures forall y :: y in p ==> Chain(p[x := np], y) == Chain(p, y)
    ensures Depth(p[x := np], x) == DepthOption(p, np) + 1
  {
    var p' := p[x := np];
    AcyclicIffAllRooted(p);
    forall y | y in p ensures Rooted(p', y) && Chain(p', y) == Chain(p, y) {
      ChainStaysInside(p, y);
      assert RootPath(p', y, Chain(p, y));
      RootPathIsChain(p', y, Chain(p, y));
    }
    if np.Some? { ChainOfChild(p', x, np.value); } else { ChainOfRoot(p', x); }
    forall y ensures Rooted(p', y) {
      if y !in p && y != x { ChainOfRoot(p', y); }
    }
    AcyclicIffAllRooted(p');
  }

  lemma ChainStaysInside(p: Parents, x: Id)
    requires Closed(p) && Rooted(p, x) && x in p
    ensures forall i :: 0 <= i < Depth(p, x) ==> Chain(p, x)[i] in p
  {
    var c := Chain(p, x);
    forall i | 0 <= i < |c| ensures c[i] in p {
      if i > 0 { assert ParentOf(p, c[i - 1]) == Some(c[i]); }
    }
  }

  /** Deleting a whole subtree leaves a closed forest in which every survivor keeps its chain. */
  lemma RemoveKeepsForest(p: Parents, s: Id)
    requires Acyclic(p) && Closed(p)
    ensures Acyclic(p - Subtree(p, s)) && Closed(p - Subtree(p, s))
    ensures forall y :: y in p && y !in Subtree(p, s) ==> Chain(p - Subtree(p, s), y) == Chain(p, y)
  {
    var p' := p - Subtree(p, s);
    AcyclicIffAllRooted(p);
    forall y | y in p' ensures (p'[y].Some? ==> p'[y].value in p') && Rooted(p', y) && Chain(p', y) == Chain(p, y) {
      if p[y].Some? { ChainOfChild(p, y, p[y].value); }
      var c := Chain(p, y);
      ChainStaysInside(p, y);
      forall i | 0 <= i < |c| ensures c[i] in p' {
        SubChain(p, y, i);
      }
      assert RootPath(p', y, c);
      RootPathIsChain(p', y, c);
    }
    forall y ensures Rooted(p', y) {
      if y !in p' { ChainOfRoot(p', y); }
    }
    AcyclicIffAllRooted(p');
  }
}
