/** Batch scheduling: layering the unfinished steps, and the steps affected by a failure. */
module Scheduling {
  import opened Basics
  import opened Graphs
  import opened InDegrees
  import opened PlanModel

  /** The dependency lists of the pending steps. */
  function PendingLists(pending: map<Id, StepDef>): DepLists {
    map id | id in pending :: pending[id].dependsOn
  }

  /** Dependencies among the pending steps only. */
  function PendingGraph(pending: map<Id, StepDef>): Graph {
    Listed(PendingLists(pending))
  }

  // ----- layers -----

  /** R is what is left after m layers: the nodes from which a path of m edges starts. */
  ghost predicate Left(g: Graph, R: set<Id>, m: nat) {
    R <= g.Keys && forall u :: u in g ==> (u in R <==> Deep(g, u, m))
  }

  /** The nodes without an edge into R. */
  ghost predicate IsLayer(g: Graph, R: set<Id>, layer: seq<Id>) {
    forall u :: u in layer <==> u in R && !HasEdgeInto(g, u, R)
  }

  lemma LayerStep(g: Graph, R: set<Id>, m: nat, layer: seq<Id>)
    requires Left(g, R, m) && IsLayer(g, R, layer)
    requires forall u :: u in g ==> g[u] <= g.Keys
    ensures Left(g, R - Elems(layer), m + 1)
    ensures forall u :: u in g ==> (u in layer <==> LongestPath(g, u, m))
  {
    forall u | u in g
      ensures u in R - Elems(layer) <==> Deep(g, u, m + 1)
      ensures u in layer <==> LongestPath(g, u, m)
    {
      assert Deep(g, u, m + 1) <==> HasEdgeInto(g, u, R) by {
        if v :| v in R && Edge(g, u, v) { assert Deep(g, v, m); }
        if v :| Edge(g, u, v) && Deep(g, v, m) { assert v in g && v in R; }
      }
      if Deep(g, u, m + 1) { DeepMonotone(g, u, m, m + 1); }
    }
  }

  lemma {:induction false} StuckIsDeep(g: Graph, S: set<Id>, u: Id, k: nat)
    requires Stuck(g, S) && u in S && S <= g.Keys
    ensures Deep(g, u, k)
    decreases k
  {
    if k > 0 {
      assert HasEdgeInto(g, u, S);
      var v :| v in S && Edge(g, u, v);
      StuckIsDeep(g, S, v, k - 1);
    }
  }

  /** Nothing left after m layers, or nothing that can still be layered: no longer paths are longest. */
  lemma NoMoreLayers(g: Graph, R: set<Id>, m: nat)
    requires Left(g, R, m) && Stuck(g, R)
    ensures forall u, k: nat :: u in g && k >= m ==> !LongestPath(g, u, k)
  {
    forall u, k: nat | u in g && k >= m ensures !LongestPath(g, u, k) {
      if u in R {
        StuckIsDeep(g, R, u, k + 1);
      } else if Deep(g, u, k) {
        DeepMonotone(g, u, m, k);
      }
    }
  }

  /** Layering ends with nothing left exactly on the acyclic graphs. */
  lemma EmptyIffAcyclic(g: Graph, R: set<Id>, m: nat)
    requires Left(g, R, m) && Stuck(g, R)
    ensures R == {} <==> Acyclic(g)
  {
    AcyclicIffNoneReachesCycle(g);
    if u :| u in R {
      StuckReachesCycle(g, R, u);
    } else {
      forall u | u in g ensures !ReachesCycle(g, u) {
        if ReachesCycle(g, u) {
          var c :| Reaches(g, u, c) && OnCycle(g, c);
          var p :| |p| >= 2 && PathBetween(g, p, c, c);
          CycleIsDeep(g, p, 0, m);
        }
      }
    }
  }

  /** Around a cycle one can walk for ever. */
  lemma {:induction false} CycleIsDeep(g: Graph, p: seq<Id>, i: nat, k: nat)
    requires IsPath(g, p) && |p| >= 2 && p[0] == p[|p| - 1] && i < |p| - 1
    ensures Deep(g, p[i], k)
    decreases k
  {
    assert Edge(g, p[i], p[i + 1]);
    if k > 0 {
      CycleIsDeep(g, p, if i + 1 == |p| - 1 then 0 else i + 1, k - 1);
    }
  }

  // ----- topoSortPending -----

  /** The batches hold, at position k, exactly the pending steps whose longest path among pending
      dependencies has k edges; the order within a batch is arbitrary. All pending steps are
      scheduled exactly if their dependencies have no cycle. */
  ghost predicate Layers(g: Graph, batches: seq<seq<Id>>) {
    && (forall k :: 0 <= k < |batches| ==> batches[k] != [] && Distinct(batches[k]))
    && (forall k, u :: 0 <= k < |batches| && u in batches[k] ==> u in g)
    && (forall k: nat, u :: u in g ==> (k < |batches| && u in batches[k] <==> LongestPath(g, u, k)))
  }

  predicate Scheduled(batches: seq<seq<Id>>, u: Id) {
    exists k :: 0 <= k < |batches| && u in batches[k]
  }

  /** The loop's state: the layers found so far, and what is left. */
  ghost predicate LayersSoFar(g: Graph, R: set<Id>, batches: seq<seq<Id>>) {
    && Left(g, R, |batches|)
    && (forall k :: 0 <= k < |batches| ==> batches[k] != [] && Distinct(batches[k]))
    && (forall k, u :: 0 <= k < |batches| && u in batches[k] ==> u in g)
    && (forall k, u :: 0 <= k < |batches| && u in g ==> (u in batches[k] <==> LongestPath(g, u, k)))
    && (forall u :: u in g ==> u in R || Scheduled(batches, u))
  }

  method TopoSortPending(pending: map<Id, StepDef>) returns (batches: seq<seq<Id>>)
    ensures Layers(PendingGraph(pending), batches)
    ensures (forall u :: u in pending ==> Scheduled(batches, u)) <==> Acyclic(PendingGraph(pending))
  {
    hide *;
    ghost var deps, g := PendingLists(pending), PendingGraph(pending);
    PendingClosed(pending);
    var inDegree, adj := BuildPending(pending);
    batches := [];
    NoLayersYet(g, inDegree.Keys);
    while |inDegree| > 0
      invariant Counts(deps, inDegree.Keys, inDegree)
      invariant LayersSoFar(g, inDegree.Keys, batches)
      decreases |inDegree|
    {
      var batch := CollectReady(deps, inDegree);
      if |batch| == 0 {
        EmptyLayerIsStuck(g, inDegree.Keys);
        break;
      }
      ghost var R := inDegree.Keys;
      AddLayer(g, R, batches, batch);
      inDegree := RemoveBatch(deps, adj, inDegree, batch);
      batches := batches + [batch];
      SmallerMap(R, inDegree, batch[0]);
    }
    NothingIsStuck(g, inDegree.Keys);
    LayersDone(g, inDegree.Keys, batches);
  }

  lemma PendingClosed(pending: map<Id, StepDef>)
    ensures Listed(PendingLists(pending)) == PendingGraph(pending)
    ensures PendingGraph(pending).Keys == pending.Keys
    ensures forall u :: u in PendingGraph(pending) ==> PendingGraph(pending)[u] <= PendingGraph(pending).Keys
  {
  }

  lemma NoLayersYet(g: Graph, R: set<Id>)
    requires Left(g, R, 0)
    ensures LayersSoFar(g, R, [])
  {
  }

  lemma NothingIsStuck(g: Graph, R: set<Id>)
    ensures R == {} ==> Stuck(g, R)
  {
  }

  lemma EmptyLayerIsStuck(g: Graph, R: set<Id>)
    requires IsLayer(g, R, [])
    ensures Stuck(g, R)
  {
    forall u | u in R ensures HasEdgeInto(g, u, R) {
      assert u !in [];
    }
  }

  lemma SmallerMap(R: set<Id>, m: map<Id, int>, x: Id)
    requires m.Keys <= R && x in R && x !in m
    ensures |m| < |R|
  {
    assert |m| == |m.Keys|;
    assert R == m.Keys + (R - m.Keys);
  }

  lemma AddLayer(g: Graph, R: set<Id>, batches: seq<seq<Id>>, batch: seq<Id>)
    requires LayersSoFar(g, R, batches) && IsLayer(g, R, batch) && batch != [] && Distinct(batch)
    requires forall u :: u in g ==> g[u] <= g.Keys
    ensures LayersSoFar(g, R - Elems(batch), batches + [batch])
    ensures forall u :: u in batch ==> u in R
    ensures batch[0] !in R - Elems(batch)
  {
    hide Deep, LongestPath;
    var longer := batches + [batch];
    LayerStep(g, R, |batches|, batch);
    forall u | u in g ensures u in R - Elems(batch) || Scheduled(longer, u) {
      if Scheduled(batches, u) {
        var k :| 0 <= k < |batches| && u in batches[k];
        assert u in longer[k];
      } else if u in batch {
        assert u in longer[|batches|];
      }
    }
    assert forall u :: u in batch ==> u in R;
  }

  lemma LayersDone(g: Graph, R: set<Id>, batches: seq<seq<Id>>)
    requires LayersSoFar(g, R, batches) && Stuck(g, R)
    ensures Layers(g, batches)
    ensures (forall u :: u in g ==> Scheduled(batches, u)) <==> Acyclic(g)
  {
    hide Deep, Acyclic;
    NoMoreLayers(g, R, |batches|);
    EmptyIffAcyclic(g, R, |batches|);
    if u :| u in R && Scheduled(batches, u) {
      var k :| 0 <= k < |batches| && u in batches[k];
      assert LongestPath(g, u, k);
      DeepMonotone(g, u, k + 1, |batches|);
    }
  }

  /** In-degrees over pending dependencies, and the reverse adjacency lists. */
  method BuildPending(pending: map<Id, StepDef>) returns (inDegree: map<Id, int>, adj: map<Id, seq<Id>>)
    ensures Counts(PendingLists(pending), inDegree.Keys, inDegree)
    ensures Transposed(PendingLists(pending), adj)
    ensures Left(PendingGraph(pending), inDegree.Keys, 0)
  {
    ghost var deps := PendingLists(pending);
    inDegree := map id | id in pending :: 0;
    adj := map[];
    var todo := pending.Keys;
    while todo != {}
      invariant todo <= pending.Keys == inDegree.Keys
      invariant forall u :: u in pending ==> inDegree[u] == if u in todo then 0 else Hits(deps[u], pending.Keys)
      invariant forall d, u :: d in pending ==> Occurs(adj, d, u) == if u in todo then 0 else Wants(deps, u, d)
      decreases todo
    {
      var id :| id in todo;
      var list := pending[id].dependsOn;
      var n := CountPending(list, pending.Keys);
      inDegree := inDegree[id := inDegree[id] + n];
      adj := AddDependents(adj, id, list, pending.Keys);
      todo := todo - {id};
    }
  }

  method CountPending(list: seq<Id>, scope: set<Id>) returns (n: nat)
    ensures n == Hits(list, scope)
  {
    n := 0;
    for m := 0 to |list|
      invariant n == Hits(list[..m], scope)
    {
      assert list[..m + 1][..m] == list[..m];
      if list[m] in scope {
        n := n + 1;
      }
    }
    assert list[..|list|] == list;
  }

  /** The nodes with in-degree zero, in some order. */
  method CollectReady(ghost deps: DepLists, inDegree: map<Id, int>) returns (batch: seq<Id>)
    requires Counts(deps, inDegree.Keys, inDegree)
    ensures Distinct(batch)
    ensures IsLayer(Listed(deps), inDegree.Keys, batch)
  {
    batch := [];
    var todo := inDegree.Keys;
    while todo != {}
      invariant todo <= inDegree.Keys && Distinct(batch)
      invariant forall u :: u in batch <==> u in inDegree.Keys - todo && inDegree[u] == 0
      decreases todo
    {
      var id :| id in todo;
      if inDegree[id] == 0 {
        batch := batch + [id];
      }
      todo := todo - {id};
    }
    forall u | u in inDegree ensures inDegree[u] == 0 <==> !HasEdgeInto(Listed(deps), u, inDegree.Keys) {
      ZeroIsReady(deps, inDegree.Keys, inDegree, u);
    }
  }

  /** Deletes a batch and lowers the in-degrees of what depends on it. */
  method RemoveBatch(ghost deps: DepLists, adj: map<Id, seq<Id>>, inDegree0: map<Id, int>, batch: seq<Id>)
    returns (inDegree: map<Id, int>)
    requires Transposed(deps, adj) && Counts(deps, inDegree0.Keys, inDegree0)
    requires Distinct(batch) && forall u :: u in batch ==> u in inDegree0
    ensures inDegree.Keys == inDegree0.Keys - Elems(batch)
    ensures Counts(deps, inDegree.Keys, inDegree)
  {
    inDegree := inDegree0;
    for i := 0 to |batch|
      invariant inDegree.Keys == inDegree0.Keys - Elems(batch[..i])
      invariant Counts(deps, inDegree.Keys, inDegree)
    {
      assert batch[..i + 1] == batch[..i] + [batch[i]];
      assert Elems(batch[..i + 1]) == Elems(batch[..i]) + {batch[i]};
      assert batch[i] in inDegree by { assert batch[i] in batch; }
      inDegree := RemoveNode(deps, adj, inDegree, batch[i]);
    }
    assert batch[..|batch|] == batch;
  }

  method RemoveNode(ghost deps: DepLists, adj: map<Id, seq<Id>>, inDegree0: map<Id, int>, node: Id)
    returns (inDegree: map<Id, int>)
    requires Transposed(deps, adj) && Counts(deps, inDegree0.Keys, inDegree0) && node in inDegree0
    ensures inDegree.Keys == inDegree0.Keys - {node}
    ensures Counts(deps, inDegree.Keys, inDegree)
  {
    inDegree := inDegree0 - {node};
    var next := Lookup(adj, node);
    for k := 0 to |next|
      invariant inDegree.Keys == inDegree0.Keys - {node}
      invariant forall u :: u in inDegree ==> inDegree[u] == inDegree0[u] - multiset(next[..k])[u]
    {
      assert next[..k + 1] == next[..k] + [next[k]];
      if next[k] in inDegree {
        inDegree := inDegree[next[k] := inDegree[next[k]] - 1];
      }
    }
    assert next[..|next|] == next;
    CountsAfterRemoval(deps, inDegree0.Keys, node, adj, inDegree0, inDegree);
  }
}
