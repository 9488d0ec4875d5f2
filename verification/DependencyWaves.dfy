/**
 Dependency graphs and the waves in which they can be worked off.

 A graph maps every node to the set of nodes it depends on. Peeled(g, k) is what k waves
 have completed: a node joins a wave as soon as everything it depends on is done. The
 lemmas give waves an independent meaning: a node is done after k waves exactly when no
 dependency chain ending in it has more than k nodes, and everything gets done exactly
 when the graph has no cycle.
 */
module DependencyWaves {
  import opened Common

  type Graph<!T> = map<T, set<T>>

  ghost predicate Closed<T>(g: Graph<T>) {
    forall n <- g :: g[n] <= g.Keys
  }

  ghost predicate DependsOn<T>(g: Graph<T>, n: T, d: T) {
    n in g && d in g[n]
  }

  /** A dependency chain: every node is a dependency of the next one. */
  ghost predicate Chain<T>(g: Graph<T>, p: seq<T>) {
    && p != []
    && (forall j :: 0 <= j < |p| ==> p[j] in g)
    && (forall j :: 0 < j < |p| ==> DependsOn(g, p[j], p[j - 1]))
  }

  ghost predicate ChainTo<T>(g: Graph<T>, p: seq<T>, n: T) {
    Chain(g, p) && p[|p| - 1] == n
  }

  ghost predicate Acyclic<T(!new)>(g: Graph<T>) {
    forall p: seq<T> :: Chain(g, p) && |p| > 1 ==> p[0] != p[|p| - 1]
  }

  ghost function Peeled<T>(g: Graph<T>, k: nat): (done: set<T>)
    ensures done <= g.Keys
  {
    if k == 0 then {} else set n | n in g && g[n] <= Peeled(g, k - 1)
  }

  lemma {:induction false} PeeledGrows<T>(g: Graph<T>, k: nat)
    ensures Peeled(g, k) <= Peeled(g, k + 1)
  {
    if k > 0 {
      PeeledGrows(g, k - 1);
    }
  }

  lemma {:induction false} PeeledMonotone<T>(g: Graph<T>, j: nat, k: nat)
    requires j <= k
    ensures Peeled(g, j) <= Peeled(g, k)
    decreases k
  {
    if j < k {
      PeeledMonotone(g, j, k - 1);
      PeeledGrows(g, k - 1);
    }
  }

  lemma ExtendChain<T>(g: Graph<T>, p: seq<T>, d: T, n: T)
    requires ChainTo(g, p, d) && DependsOn(g, n, d)
    ensures ChainTo(g, p + [n], n)
  {}

  /** Chains into a peeled node are no longer than the number of waves. */
  lemma {:induction false} PeeledBoundsChains<T>(g: Graph<T>, k: nat, p: seq<T>, n: T)
    requires n in Peeled(g, k) && ChainTo(g, p, n)
    ensures |p| <= k
  {
    if |p| > 1 {
      var d := p[|p| - 2];
      assert DependsOn(g, p[|p| - 1], p[|p| - 1 - 1]);
      PeeledBoundsChains(g, k - 1, p[..|p| - 1], d);
    }
  }

  /** A node that is still waiting after k waves ends a chain of k + 1 nodes. */
  lemma {:induction false} WaitingNodeHasChain<T>(g: Graph<T>, k: nat, n: T) returns (p: seq<T>)
    requires Closed(g) && n in g && n !in Peeled(g, k)
    ensures ChainTo(g, p, n) && |p| == k + 1
  {
    if k == 0 {
      p := [n];
    } else {
      var d :| d in g[n] && d !in Peeled(g, k - 1);
      var q := WaitingNodeHasChain(g, k - 1, d);
      ExtendChain(g, q, d, n);
      p := q + [n];
    }
  }

  /** The meaning of waves: n is done after k waves iff no chain into n has more than k nodes. */
  lemma {:induction false} PeeledIffChainsShort<T(!new)>(g: Graph<T>, k: nat, n: T)
    requires Closed(g) && n in g
    ensures n in Peeled(g, k) <==> forall p: seq<T> :: ChainTo(g, p, n) ==> |p| <= k
  {
    if n in Peeled(g, k) {
      forall p: seq<T> | ChainTo(g, p, n)
        ensures |p| <= k
      {
        PeeledBoundsChains(g, k, p, n);
      }
    } else {
      var p := WaitingNodeHasChain(g, k, n);
    }
  }

  /** No node on a cycle is ever peeled. */
  lemma {:induction false} CycleNeverPeeled<T>(g: Graph<T>, p: seq<T>, k: nat, j: nat)
    requires Chain(g, p) && |p| > 1 && p[0] == p[|p| - 1] && j < |p|
    ensures p[j] !in Peeled(g, k)
    decreases k
  {
    if k > 0 {
      var i := if j == 0 then |p| - 1 else j;
      assert DependsOn(g, p[i], p[i - 1]);
      CycleNeverPeeled(g, p, k - 1, i - 1);
    }
  }

  lemma ChainSlice<T>(g: Graph<T>, p: seq<T>, i: nat, j: nat)
    requires Chain(g, p) && i < j < |p|
    ensures Chain(g, p[i..j + 1])
  {}

  /** A chain with more nodes than the graph runs through a cycle. */
  lemma LongChainHasCycle<T(!new)>(g: Graph<T>, p: seq<T>)
    requires Chain(g, p) && |p| > |g|
    ensures !Acyclic(g)
  {
    assert |g.Keys| == |g|;
    if Distinct(p) {
      DistinctFits(p, g.Keys);
    } else {
      var i, j :| 0 <= i < j < |p| && p[i] == p[j];
      var q := p[i..j + 1];
      ChainSlice(g, p, i, j);
      assert q[0] == q[|q| - 1];
    }
  }

  /** Acyclicity, decided by waves: |g| waves finish every node iff there is no cycle. */
  lemma AcyclicIffAllPeeled<T(!new)>(g: Graph<T>)
    requires Closed(g)
    ensures Acyclic(g) <==> Peeled(g, |g|) == g.Keys
  {
    if Peeled(g, |g|) == g.Keys {
      forall p: seq<T> | Chain(g, p) && |p| > 1
        ensures p[0] != p[|p| - 1]
      {
        if p[0] == p[|p| - 1] {
          CycleNeverPeeled(g, p, |g|, 0);
          assert false;
        }
      }
    } else {
      var n :| n in g && n !in Peeled(g, |g|);
      var p := WaitingNodeHasChain(g, |g|, n);
      LongChainHasCycle(g, p);
    }
  }

  /** Once a wave adds nothing, no later wave does. */
  lemma {:induction false} StalledForever<T>(g: Graph<T>, k: nat, m: nat)
    requires Peeled(g, k + 1) == Peeled(g, k) && k <= m
    ensures Peeled(g, m) == Peeled(g, k)
    decreases m
  {
    if k < m {
      StalledForever(g, k, m - 1);
    }
  }
}
