/** MiniFlow workflows and their wave-by-wave topological order (backend/miniflow/model.py). */
module MiniflowModel {
  import opened Common
  import opened DependencyWaves

  datatype Step = Step(name: string, dependsOn: seq<string>)

  datatype OrderError =
    | DuplicateNames(names: set<string>)
    | UnknownDependencies(names: set<string>)
    | Cycle

  function Names(steps: seq<Step>): set<string> {
    set s | s in steps :: s.name
  }

  ghost predicate UniqueNames(steps: seq<Step>) {
    forall i, j :: 0 <= i < j < |steps| ==> steps[i].name != steps[j].name
  }

  ghost predicate KnownDependencies(steps: seq<Step>) {
    forall s <- steps, d <- s.dependsOn :: d in Names(steps)
  }

  /** The dependency graph a workflow declares. */
  function Dependencies(steps: seq<Step>): (g: Graph<string>)
    ensures g.Keys == Names(steps)
  {
    map n | n in Names(steps) :: set s, d | s in steps && s.name == n && d in s.dependsOn :: d
  }

  /** The steps whose names are given, in the order in which the workflow declares them. */
  function InDeclarationOrder(steps: seq<Step>, names: set<string>): seq<Step> {
    if steps == [] then []
    else
      var last := steps[|steps| - 1];
      InDeclarationOrder(steps[..|steps| - 1], names) + if last.name in names then [last] else []
  }

  /** The first k waves one after the other, each in declaration order. */
  ghost function WaveOrder(steps: seq<Step>, g: Graph<string>, k: nat): seq<Step> {
    if k == 0 then []
    else WaveOrder(steps, g, k - 1) + InDeclarationOrder(steps, Peeled(g, k) - Peeled(g, k - 1))
  }

  ghost function Order(steps: seq<Step>): seq<Step> {
    WaveOrder(steps, Dependencies(steps), |Dependencies(steps)|)
  }

  // ---------------------------------------------------------------------------
  // What the order means
  // ---------------------------------------------------------------------------

  /** The longest dependency chain that ends in n has d nodes. */
  ghost predicate LongestChain(g: Graph<string>, n: string, d: nat) {
    && (exists p: seq<string> :: ChainTo(g, p, n) && |p| == d)
    && (forall p: seq<string> :: ChainTo(g, p, n) ==> |p| <= d)
  }

  ghost predicate DeclaredBefore(steps: seq<Step>, s: Step, t: Step) {
    exists i, j :: 0 <= i < j < |steps| && steps[i] == s && steps[j] == t
  }

  /** Sort key of the order: length of the longest chain first, declaration index second. */
  ghost predicate Precedes(steps: seq<Step>, g: Graph<string>, s: Step, t: Step) {
    forall d: nat, e: nat :: LongestChain(g, s.name, d) && LongestChain(g, t.name, e) ==>
      d < e || (d == e && DeclaredBefore(steps, s, t))
  }

  ghost predicate SortedByChain(steps: seq<Step>, g: Graph<string>, r: seq<Step>) {
    forall a, b :: 0 <= a < b < |r| ==> Precedes(steps, g, r[a], r[b])
  }

  ghost predicate DependenciesFirst(r: seq<Step>) {
    forall i, d :: 0 <= i < |r| && d in r[i].dependsOn ==> exists j :: 0 <= j < i && r[j].name == d
  }

  lemma {:induction false} DeclarationOrderMembers(steps: seq<Step>, names: set<string>)
    ensures forall s :: s in InDeclarationOrder(steps, names) <==> s in steps && s.name in names
  {
    if steps != [] {
      DeclarationOrderMembers(steps[..|steps| - 1], names);
      assert steps == steps[..|steps| - 1] + [steps[|steps| - 1]];
    }
  }

  lemma {:induction false} DeclarationOrderSorted(steps: seq<Step>, names: set<string>, a: nat, b: nat)
    requires a < b < |InDeclarationOrder(steps, names)|
    ensures DeclaredBefore(steps, InDeclarationOrder(steps, names)[a], InDeclarationOrder(steps, names)[b])
  {
    var front := steps[..|steps| - 1];
    var r := InDeclarationOrder(front, names);
    if b < |r| {
      DeclarationOrderSorted(front, names, a, b);
      var i, j :| 0 <= i < j < |front| && front[i] == r[a] && front[j] == r[b];
      assert steps[i] == r[a] && steps[j] == r[b];
    } else {
      DeclarationOrderMembers(front, names);
      assert r[a] in front;
      var i :| 0 <= i < |front| && front[i] == r[a];
      assert steps[i] == r[a] && steps[|steps| - 1] == InDeclarationOrder(steps, names)[b];
    }
  }

  lemma {:induction false} DeclarationOrderSplits(steps: seq<Step>, names: set<string>, more: set<string>)
    requires names !! more
    ensures multiset(InDeclarationOrder(steps, names + more))
         == multiset(InDeclarationOrder(steps, names)) + multiset(InDeclarationOrder(steps, more))
  {
    if steps != [] {
      DeclarationOrderSplits(steps[..|steps| - 1], names, more);
    }
  }

  lemma AppendSelection(steps: seq<Step>, r: seq<Step>, before: set<string>, after: set<string>)
    requires before <= after && multiset(r) == multiset(InDeclarationOrder(steps, before))
    ensures multiset(r + InDeclarationOrder(steps, after - before)) == multiset(InDeclarationOrder(steps, after))
  {
    DeclarationOrderSplits(steps, before, after - before);
    assert before + (after - before) == after;
  }

  lemma {:induction false} DeclarationOrderOfAll(steps: seq<Step>, names: set<string>)
    requires forall s <- steps :: s.name in names
    ensures InDeclarationOrder(steps, names) == steps
  {
    if steps != [] {
      DeclarationOrderOfAll(steps[..|steps| - 1], names);
      assert steps == steps[..|steps| - 1] + [steps[|steps| - 1]];
    }
  }

  lemma {:induction false} DeclarationOrderOfNone(steps: seq<Step>)
    ensures InDeclarationOrder(steps, {}) == []
  {
    if steps != [] {
      DeclarationOrderOfNone(steps[..|steps| - 1]);
    }
  }

  lemma DependenciesClosed(steps: seq<Step>)
    requires KnownDependencies(steps)
    ensures Closed(Dependencies(steps))
  {}

  /** With unique names the graph knows exactly what each step declares. */
  lemma DependenciesOfStep(steps: seq<Step>, s: Step)
    requires UniqueNames(steps) && s in steps
    ensures forall d :: DependsOn(Dependencies(steps), s.name, d) <==> d in s.dependsOn
  {}

  lemma LongestChainIsWave(g: Graph<string>, n: string, d: nat)
    requires Closed(g)
    ensures LongestChain(g, n, d) <==> d > 0 && n in Peeled(g, d) && n !in Peeled(g, d - 1)
  {
    if n in g {
      PeeledIffChainsShort(g, d, n);
      assert ChainTo(g, [n], n);
      if d > 0 {
        PeeledIffChainsShort(g, d - 1, n);
        if n !in Peeled(g, d - 1) {
          var p := WaitingNodeHasChain(g, d - 1, n);
        }
      }
    }
  }

  lemma LevelAtMost(g: Graph<string>, n: string, k: nat, d: nat)
    requires Closed(g) && LongestChain(g, n, d) && n in Peeled(g, k)
    ensures d <= k
  {
    LongestChainIsWave(g, n, d);
    if k < d {
      PeeledMonotone(g, k, d - 1);
    }
  }

  lemma WaveIs(g: Graph<string>, n: string, k: nat, d: nat)
    requires Closed(g) && LongestChain(g, n, d) && k > 0
    requires n in Peeled(g, k) && n !in Peeled(g, k - 1)
    ensures d == k
  {
    LevelAtMost(g, n, k, d);
    LongestChainIsWave(g, n, d);
    if d < k {
      PeeledMonotone(g, d, k - 1);
    }
  }

  /** Every node that is ever peeled has a longest chain, so the sort key is defined for it. */
  lemma {:induction false} PeeledHasLevel(g: Graph<string>, n: string, k: nat) returns (d: nat)
    requires Closed(g) && n in Peeled(g, k)
    ensures LongestChain(g, n, d)
  {
    if n in Peeled(g, k - 1) {
      d := PeeledHasLevel(g, n, k - 1);
    } else {
      d := k;
      LongestChainIsWave(g, n, k);
    }
  }

  lemma {:induction false} WaveOrderPermutes(steps: seq<Step>, g: Graph<string>, k: nat)
    ensures multiset(WaveOrder(steps, g, k)) == multiset(InDeclarationOrder(steps, Peeled(g, k)))
  {
    if k == 0 {
      DeclarationOrderOfNone(steps);
    } else {
      WaveOrderPermutes(steps, g, k - 1);
      PeeledGrows(g, k - 1);
      AppendSelection(steps, WaveOrder(steps, g, k - 1), Peeled(g, k - 1), Peeled(g, k));
    }
  }

  lemma WaveOrderMembers(steps: seq<Step>, g: Graph<string>, k: nat)
    ensures forall s <- WaveOrder(steps, g, k) :: s in steps && s.name in Peeled(g, k)
    ensures forall s <- steps :: s.name in Peeled(g, k) ==> s in WaveOrder(steps, g, k)
  {
    var a, b := WaveOrder(steps, g, k), InDeclarationOrder(steps, Peeled(g, k));
    WaveOrderPermutes(steps, g, k);
    DeclarationOrderMembers(steps, Peeled(g, k));
    assert forall s :: s in a <==> s in multiset(a);
    assert forall s :: s in b <==> s in multiset(b);
  }

  /** A step of an earlier wave precedes every step of wave k. */
  lemma EarlierWavePrecedes(steps: seq<Step>, g: Graph<string>, s: Step, t: Step, k: nat)
    requires Closed(g) && k > 0 && s.name in Peeled(g, k - 1)
    requires t.name in Peeled(g, k) && t.name !in Peeled(g, k - 1)
    ensures Precedes(steps, g, s, t)
  {
    forall d: nat, e: nat | LongestChain(g, s.name, d) && LongestChain(g, t.name, e)
      ensures d < e
    {
      LevelAtMost(g, s.name, k - 1, d);
      WaveIs(g, t.name, k, e);
    }
  }

  /** Steps of the same wave precede each other as declared. */
  lemma SameWavePrecedes(steps: seq<Step>, g: Graph<string>, s: Step, t: Step, k: nat)
    requires Closed(g) && k > 0 && DeclaredBefore(steps, s, t)
    requires s.name in Peeled(g, k) && s.name !in Peeled(g, k - 1)
    requires t.name in Peeled(g, k) && t.name !in Peeled(g, k - 1)
    ensures Precedes(steps, g, s, t)
  {
    forall d: nat, e: nat | LongestChain(g, s.name, d) && LongestChain(g, t.name, e)
      ensures d == e
    {
      WaveIs(g, s.name, k, d);
      WaveIs(g, t.name, k, e);
    }
  }

  lemma WaveSorted(steps: seq<Step>, g: Graph<string>, k: nat)
    requires Closed(g) && k > 0
    ensures SortedByChain(steps, g, InDeclarationOrder(steps, Peeled(g, k) - Peeled(g, k - 1)))
  {
    var names := Peeled(g, k) - Peeled(g, k - 1);
    var wave := InDeclarationOrder(steps, names);
    DeclarationOrderMembers(steps, names);
    forall a, b | 0 <= a < b < |wave|
      ensures Precedes(steps, g, wave[a], wave[b])
    {
      assert wave[a] in wave && wave[b] in wave;
      DeclarationOrderSorted(steps, names, a, b);
      SameWavePrecedes(steps, g, wave[a], wave[b], k);
    }
  }

  lemma SortedConcat(steps: seq<Step>, g: Graph<string>, r: seq<Step>, q: seq<Step>)
    requires SortedByChain(steps, g, r) && SortedByChain(steps, g, q)
    requires forall s <- r, t <- q :: Precedes(steps, g, s, t)
    ensures SortedByChain(steps, g, r + q)
  {}

  lemma WavePrecedes(steps: seq<Step>, g: Graph<string>, k: nat)
    requires Closed(g) && k > 0
    ensures forall s <- WaveOrder(steps, g, k - 1),
      t <- InDeclarationOrder(steps, Peeled(g, k) - Peeled(g, k - 1)) :: Precedes(steps, g, s, t)
  {
    var names := Peeled(g, k) - Peeled(g, k - 1);
    WaveOrderMembers(steps, g, k - 1);
    DeclarationOrderMembers(steps, names);
    forall s, t | s in WaveOrder(steps, g, k - 1) && t in InDeclarationOrder(steps, names)
      ensures Precedes(steps, g, s, t)
    {
      EarlierWavePrecedes(steps, g, s, t, k);
    }
  }

  lemma {:induction false} WaveOrderSorted(steps: seq<Step>, g: Graph<string>, k: nat)
    requires Closed(g)
    ensures SortedByChain(steps, g, WaveOrder(steps, g, k))
  {
    if k > 0 {
      WaveOrderSorted(steps, g, k - 1);
      WaveSorted(steps, g, k);
      WavePrecedes(steps, g, k);
      SortedConcat(steps, g, WaveOrder(steps, g, k - 1),
                   InDeclarationOrder(steps, Peeled(g, k) - Peeled(g, k - 1)));
    }
  }

  /** In a sorted order, what a step depends on stands before it. */
  lemma DependencyComesEarlier(steps: seq<Step>, g: Graph<string>, r: seq<Step>, i: nat, j: nat, k: nat)
    requires Closed(g) && SortedByChain(steps, g, r)
    requires i < |r| && j < |r| && DependsOn(g, r[i].name, r[j].name)
    requires r[i].name in Peeled(g, k) && r[j].name in Peeled(g, k)
    ensures j < i
  {
    assert i < j ==> Precedes(steps, g, r[i], r[j]);
    var low := PeeledHasLevel(g, r[j].name, k);
    var high := PeeledHasLevel(g, r[i].name, k);
    var p: seq<string> :| ChainTo(g, p, r[j].name) && |p| == low;
    ExtendChain(g, p, r[j].name, r[i].name);
  }

  lemma SortedNamesUnique(steps: seq<Step>, g: Graph<string>, r: seq<Step>, k: nat)
    requires UniqueNames(steps) && Closed(g) && SortedByChain(steps, g, r)
    requires forall s <- r :: s.name in Peeled(g, k)
    ensures UniqueNames(r)
  {
    forall a, b | 0 <= a < b < |r|
      ensures r[a].name != r[b].name
    {
      assert Precedes(steps, g, r[a], r[b]);
      var d := PeeledHasLevel(g, r[a].name, k);
    }
  }

  /**
   The order of a valid workflow is the permutation of its steps that is sorted by
   (longest dependency chain, declaration index), and so no step precedes what it needs.
   */
  lemma OrderIsSortedPermutation(steps: seq<Step>)
    requires UniqueNames(steps) && KnownDependencies(steps) && Acyclic(Dependencies(steps))
    ensures multiset(Order(steps)) == multiset(steps)
    ensures SortedByChain(steps, Dependencies(steps), Order(steps))
    ensures forall s <- steps :: exists d: nat :: LongestChain(Dependencies(steps), s.name, d)
    ensures DependenciesFirst(Order(steps)) && UniqueNames(Order(steps))
  {
    var g := Dependencies(steps);
    var k, r := |g|, WaveOrder(steps, g, |g|);
    DependenciesClosed(steps);
    AcyclicIffAllPeeled(g);
    WaveOrderPermutes(steps, g, k);
    WaveOrderMembers(steps, g, k);
    DeclarationOrderOfAll(steps, g.Keys);
    WaveOrderSorted(steps, g, k);
    SortedNamesUnique(steps, g, r, k);
    forall s | s in steps
      ensures exists d: nat :: LongestChain(g, s.name, d)
    {
      var d := PeeledHasLevel(g, s.name, k);
    }
    SortedMeansDependenciesFirst(steps, r);
  }

  lemma SortedMeansDependenciesFirst(steps: seq<Step>, r: seq<Step>)
    requires UniqueNames(steps) && KnownDependencies(steps) && Acyclic(Dependencies(steps))
    requires forall s :: s in r <==> s in steps
    requires SortedByChain(steps, Dependencies(steps), r)
    ensures DependenciesFirst(r)
  {
    var g := Dependencies(steps);
    DependenciesClosed(steps);
    AcyclicIffAllPeeled(g);
    forall i, d | 0 <= i < |r| && d in r[i].dependsOn
      ensures exists j :: 0 <= j < i && r[j].name == d
    {
      assert r[i] in steps;
      DependenciesOfStep(steps, r[i]);
      assert DependsOn(g, r[i].name, d);
      var t :| t in steps && t.name == d;
      var j :| 0 <= j < |r| && r[j] == t;
      DependencyComesEarlier(steps, g, r, i, j, |g|);
    }
  }

  // ---------------------------------------------------------------------------
  // The algorithm
  // ---------------------------------------------------------------------------

  /** Kahn's algorithm in waves: nodes become ready once everything they depend on is done. */
  class TopologicalSorter {
    var preds: map<string, set<string>>
    var passedOut: set<string>
    var finished: set<string>
    ghost var wave: nat

    ghost predicate Valid()
      reads this
    {
      && Closed(preds)
      && finished == Peeled(preds, wave)
      && finished <= passedOut <= preds.Keys
    }

    ghost predicate Idle()
      reads this
    {
      Valid() && passedOut == finished
    }

    constructor ()
      ensures Idle() && preds == map[] && wave == 0
    {
      preds, passedOut, finished, wave := map[], {}, {}, 0;
    }

    /** Nodes may be added until the first wave; dependencies become nodes as well. */
    method Add(node: string, deps: set<string>)
      requires Idle() && wave == 0
      modifies this
      ensures Idle() && wave == 0
      ensures preds.Keys == old(preds).Keys + {node} + deps
      ensures forall n <- preds ::
        preds[n] == (if n in old(preds) then old(preds)[n] else {}) + (if n == node then deps else {})
    {
      var known := preds;
      preds := map n | n in known.Keys + {node} + deps ::
        (if n in known then known[n] else {}) + (if n == node then deps else {});
    }

    /** Refuses a graph with a cycle; the graph itself is left alone. */
    method Prepare() returns (acyclic: bool)
      requires Idle() && wave == 0
      ensures acyclic <==> Acyclic(preds)
    {
      var done: set<string> := {};
      ghost var k := 0;
      var stuck := false;
      while !stuck
        invariant done == Peeled(preds, k) && k <= |done| <= |preds|
        invariant stuck ==> Peeled(preds, k + 1) == Peeled(preds, k)
        decreases !stuck, |preds| - k
      {
        var next := set n | n in preds && preds[n] <= done;
        assert next == Peeled(preds, k + 1);
        if next == done {
          stuck := true;
        } else {
          WaveProgress(preds, k);
          done, k := next, k + 1;
        }
      }
      StalledForever(preds, k, |preds|);
      AcyclicIffAllPeeled(preds);
      acyclic := done == preds.Keys;
    }

    /** More nodes will be handed out, or some are still being worked on. */
    method IsActive() returns (active: bool)
      requires Idle()
      ensures active <==> Peeled(preds, wave + 1) != Peeled(preds, wave)
    {
      PeeledGrows(preds, wave);
      var ready := set n | n in preds && preds[n] <= finished && n !in passedOut;
      assert ready == Peeled(preds, wave + 1) - Peeled(preds, wave);
      assert Peeled(preds, wave + 1) == Peeled(preds, wave) + ready;
      active := finished != passedOut || ready != {};
    }

    method GetReady() returns (ready: set<string>)
      requires Idle()
      modifies this
      ensures Valid() && unchanged(`preds) && unchanged(`wave) && unchanged(`finished)
      ensures ready == Peeled(preds, wave + 1) - Peeled(preds, wave)
      ensures passedOut == finished + ready
    {
      ready := set n | n in preds && preds[n] <= finished && n !in passedOut;
      passedOut := passedOut + ready;
    }

    method Done(nodes: set<string>)
      requires Valid() && passedOut == finished + nodes
      requires nodes == Peeled(preds, wave + 1) - Peeled(preds, wave)
      modifies this
      ensures Idle() && unchanged(`preds) && wave == old(wave) + 1
    {
      PeeledGrows(preds, wave);
      finished := finished + nodes;
      wave := wave + 1;
    }
  }

  /** A wave that is not empty brings the number of finished nodes closer to the total. */
  lemma WaveProgress(g: Graph<string>, k: nat)
    requires Peeled(g, k + 1) != Peeled(g, k) && k <= |Peeled(g, k)|
    ensures k < |Peeled(g, k + 1)| <= |g|
  {
    PeeledGrows(g, k);
    SubsetSize(Peeled(g, k), Peeled(g, k + 1));
    SubsetSize(Peeled(g, k + 1), g.Keys);
    assert |g.Keys| == |g|;
  }

  lemma SubsetSize<T>(a: set<T>, b: set<T>)
    requires a <= b
    ensures if a == b then |a| == |b| else |a| < |b|
  {
    assert b == a + (b - a);
  }

  method SortByDeclaration(steps: seq<Step>, ready: set<string>) returns (r: seq<Step>)
    ensures r == InDeclarationOrder(steps, ready)
  {
    r := [];
    for i := 0 to |steps|
      invariant r == InDeclarationOrder(steps[..i], ready)
    {
      assert steps[..i + 1][..i] == steps[..i];
      if steps[i].name in ready {
        r := r + [steps[i]];
      }
    }
    assert steps[..|steps|] == steps;
  }

  /**
   Workflow.ordered: fails on repeated names, then on unknown dependencies, then on a
   cycle; otherwise returns the wave order, whose meaning OrderIsSortedPermutation gives.
   */
  method Ordered(steps: seq<Step>) returns (r: Result<seq<Step>, OrderError>)
    ensures r.Ok? <==> UniqueNames(steps) && KnownDependencies(steps) && Acyclic(Dependencies(steps))
    ensures r.Ok? ==> r.value == Order(steps)
    ensures r.Err? && r.error.DuplicateNames? <==> !UniqueNames(steps)
    ensures r.Err? && r.error.DuplicateNames? ==>
      forall n :: n in r.error.names <==>
        exists i, j :: 0 <= i < j < |steps| && steps[i].name == n && steps[j].name == n
    ensures r.Err? && r.error.UnknownDependencies? <==> UniqueNames(steps) && !KnownDependencies(steps)
    ensures r.Err? && r.error.UnknownDependencies? ==>
      r.error.names == set s, d | s in steps && d in s.dependsOn && d !in Names(steps) :: d
  {
    var duplicates := set i, j | 0 <= i < j < |steps| && steps[i].name == steps[j].name :: steps[i].name;
    if duplicates != {} {
      return Err(DuplicateNames(duplicates));
    }
    assert forall i, j :: 0 <= i < j < |steps| && steps[i].name == steps[j].name ==> steps[i].name in duplicates;
    var unknown := set s, d | s in steps && d in s.dependsOn && d !in Names(steps) :: d;
    if unknown != {} {
      return Err(UnknownDependencies(unknown));
    }
    assert forall s, d :: s in steps && d in s.dependsOn && d !in Names(steps) ==> d in unknown;
    var sorter := new TopologicalSorter();
    AddSteps(sorter, steps);
    var acyclic := sorter.Prepare();
    if !acyclic {
      return Err(Cycle);
    }
    var ordered := DrainSorter(sorter, steps, Dependencies(steps));
    return Ok(ordered);
  }

  /** One pass of the loop: take what is ready, sort it by declaration, mark it done. */
  method NextWave(sorter: TopologicalSorter, steps: seq<Step>) returns (batch: seq<Step>)
    requires sorter.Idle()
    modifies sorter
    ensures sorter.Idle() && unchanged(sorter`preds) && sorter.wave == old(sorter.wave) + 1
    ensures batch == InDeclarationOrder(steps,
      Peeled(sorter.preds, sorter.wave) - Peeled(sorter.preds, sorter.wave - 1))
  {
    var ready := sorter.GetReady();
    batch := SortByDeclaration(steps, ready);
    sorter.Done(ready);
  }

  method DrainSorter(sorter: TopologicalSorter, steps: seq<Step>, ghost g: Graph<string>)
    returns (ordered: seq<Step>)
    requires sorter.Idle() && sorter.wave == 0 && sorter.preds == g
    modifies sorter
    ensures ordered == WaveOrder(steps, g, |g|)
  {
    ordered := [];
    var active := sorter.IsActive();
    while active
      invariant sorter.Idle() && sorter.preds == g
      invariant ordered == WaveOrder(steps, g, sorter.wave)
      invariant sorter.wave <= |Peeled(g, sorter.wave)| <= |g|
      invariant active <==> Peeled(g, sorter.wave + 1) != Peeled(g, sorter.wave)
      decreases |g| - sorter.wave
    {
      WaveProgress(g, sorter.wave);
      var batch := NextWave(sorter, steps);
      ordered := ordered + batch;
      active := sorter.IsActive();
    }
    QuietWavesAddNothing(steps, g, sorter.wave, |g|);
  }

  lemma {:induction false} QuietWavesAddNothing(steps: seq<Step>, g: Graph<string>, k: nat, m: nat)
    requires Peeled(g, k + 1) == Peeled(g, k) && k <= m
    ensures WaveOrder(steps, g, m) == WaveOrder(steps, g, k)
    decreases m
  {
    if k < m {
      QuietWavesAddNothing(steps, g, k, m - 1);
      StalledForever(g, k, m);
      StalledForever(g, k, m - 1);
      DeclarationOrderOfNone(steps);
      assert Peeled(g, m) - Peeled(g, m - 1) == {};
    }
  }

  method AddSteps(sorter: TopologicalSorter, steps: seq<Step>)
    requires sorter.Idle() && sorter.wave == 0 && sorter.preds == map[]
    requires KnownDependencies(steps)
    modifies sorter
    ensures sorter.Idle() && sorter.wave == 0 && sorter.preds == Dependencies(steps)
  {
    for i := 0 to |steps|
      invariant sorter.Idle() && sorter.wave == 0
      invariant forall n :: n in sorter.preds <==>
        n in Names(steps[..i]) || exists s :: s in steps[..i] && n in s.dependsOn
      invariant forall n <- sorter.preds ::
        sorter.preds[n] == set s, d | s in steps[..i] && s.name == n && d in s.dependsOn :: d
    {
      assert steps[..i + 1] == steps[..i] + [steps[i]];
      sorter.Add(steps[i].name, set d | d in steps[i].dependsOn);
    }
    assert steps[..|steps|] == steps;
  }
}
