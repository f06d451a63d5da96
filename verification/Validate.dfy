/** Plan validation: structural checks, then Kahn's algorithm. */
module Validation {
  import opened Basics
  import opened Graphs
  import opened InDegrees
  import opened PlanModel

  datatype Problem =
    | EmptyPlan
    | EmptyId
    | DuplicateId(id: Id)
    | AgentRequired(id: Id)
    | UnknownAgent(id: Id, agent: string)
    | SelfDependency(id: Id)
    | EmptyDependency(id: Id)
    | UnknownDependency(id: Id, dep: Id)
    | DuplicateDependency(id: Id, dep: Id)
    | CircularDependency(nodes: seq<Id>)
    | Unreachable(id: Id)

  /** What each report about ids says of the first n steps. */
  ghost predicate IdProblem(steps: seq<StepDef>, n: nat, e: Problem)
    requires n <= |steps|
  {
    match e
    case EmptyId => exists i :: 0 <= i < n && steps[i].id == ""
    case DuplicateId(x) => x != "" && exists i, j :: 0 <= i < j < n && steps[i].id == x && steps[j].id == x
    case _ => false
  }

  /** What each report about the first m dependencies of step s says. */
  ghost predicate DepProblem(s: StepDef, m: nat, ids: set<Id>, e: Problem)
    requires m <= |s.dependsOn|
  {
    match e
    case SelfDependency(x) => x == s.id && s.id in s.dependsOn[..m]
    case EmptyDependency(x) => x == s.id && "" in s.dependsOn[..m]
    case UnknownDependency(x, d) => x == s.id && d != "" && d !in ids && d in s.dependsOn[..m]
    case DuplicateDependency(x, d) => x == s.id && d != "" &&
      exists i, j :: 0 <= i < j < m && s.dependsOn[i] == d && s.dependsOn[j] == d
    case _ => false
  }

  ghost predicate StepProblem(s: StepDef, ids: set<Id>, agents: set<string>, e: Problem) {
    s.id != "" && (
      || (e == AgentRequired(s.id) && s.agent == "")
      || (e == UnknownAgent(s.id, s.agent) && s.agent != "" && agents != {} && s.agent !in agents)
      || DepProblem(s, |s.dependsOn|, ids, e))
  }

  /** The ids Validate knows: empty ones are skipped. */
  function KnownIds(steps: seq<StepDef>): set<Id> {
    Ids(steps) - {""}
  }

  /** Every structural report that a list of steps deserves, and no other. */
  ghost predicate StructuralProblem(steps: seq<StepDef>, agents: set<string>, e: Problem) {
    || (e == EmptyPlan && steps == [])
    || IdProblem(steps, |steps|, e)
    || exists s :: s in steps && StepProblem(s, KnownIds(steps), agents, e)
  }

  /** The structural reports are complete: none of them applies exactly to the sound plans. */
  lemma StructuralIffNoProblem(steps: seq<StepDef>, agents: set<string>)
    ensures Structural(steps, agents) <==> forall e :: !StructuralProblem(steps, agents, e)
  {
    if Structural(steps, agents) {
      forall e ensures !StructuralProblem(steps, agents, e) {
        assert !IdProblem(steps, |steps|, e) by {
          assert forall i :: 0 <= i < |steps| ==> WellFormedStep(steps[i], Ids(steps), agents);
        }
        forall s | s in steps ensures !StepProblem(s, KnownIds(steps), agents, e) {
          assert WellFormedStep(s, Ids(steps), agents);
          assert s.dependsOn[..|s.dependsOn|] == s.dependsOn;
        }
      }
    }
    if forall e :: !StructuralProblem(steps, agents, e) {
      assert !StructuralProblem(steps, agents, EmptyPlan);
      assert !IdProblem(steps, |steps|, EmptyId) by { assert !StructuralProblem(steps, agents, EmptyId); }
      forall i, j | 0 <= i < j < |steps| ensures steps[i].id != steps[j].id {
        assert !StructuralProblem(steps, agents, DuplicateId(steps[i].id));
      }
      forall s | s in steps ensures WellFormedStep(s, Ids(steps), agents) {
        WellFormedIfNoProblem(steps, agents, s);
      }
    }
  }

  lemma WellFormedIfNoProblem(steps: seq<StepDef>, agents: set<string>, s: StepDef)
    requires forall e :: !StructuralProblem(steps, agents, e)
    requires s in steps
    ensures WellFormedStep(s, Ids(steps), agents)
  {
    var ids := KnownIds(steps);
    var i :| 0 <= i < |steps| && steps[i] == s;
    assert s.id != "" by { assert !StructuralProblem(steps, agents, EmptyId); }
    forall e ensures !StepProblem(s, ids, agents, e) {
      assert !StructuralProblem(steps, agents, e);
    }
    assert !StepProblem(s, ids, agents, AgentRequired(s.id));
    assert !StepProblem(s, ids, agents, UnknownAgent(s.id, s.agent));
    assert s.dependsOn[..|s.dependsOn|] == s.dependsOn;
    assert !StepProblem(s, ids, agents, SelfDependency(s.id));
    assert !StepProblem(s, ids, agents, EmptyDependency(s.id));
    forall d | d in s.dependsOn ensures d != s.id && d != "" && d in Ids(steps) {
      assert !StepProblem(s, ids, agents, UnknownDependency(s.id, d));
    }
    forall i, j | 0 <= i < j < |s.dependsOn| ensures s.dependsOn[i] != s.dependsOn[j] {
      assert !StepProblem(s, ids, agents, DuplicateDependency(s.id, s.dependsOn[i]));
      assert s.dependsOn[i] != "";
    }
  }

  /** First pass: collect the ids. */
  method CheckIds(steps: seq<StepDef>) returns (errs: seq<Problem>, stepIDs: set<Id>)
    ensures stepIDs == KnownIds(steps)
    ensures forall e :: e in errs <==> IdProblem(steps, |steps|, e)
  {
    hide IdProblem;
    errs, stepIDs := [], {};
    NoIdProblemYet(steps);
    for n := 0 to |steps|
      invariant stepIDs == KnownIds(steps[..n])
      invariant forall e :: e in errs <==> IdProblem(steps, n, e)
    {
      var s := steps[n];
      assert steps[..n + 1] == steps[..n] + [s];
      forall e {:trigger IdProblem(steps, n + 1, e)}
        ensures IdProblem(steps, n + 1, e) <==>
                || IdProblem(steps, n, e)
                || (e == EmptyId && s.id == "")
                || (e == DuplicateId(s.id) && s.id in stepIDs)
      {
        IdProblemStep(steps, n, e);
      }
      if s.id == "" {
        errs := errs + [EmptyId];
      } else {
        if s.id in stepIDs {
          errs := errs + [DuplicateId(s.id)];
        }
        stepIDs := stepIDs + {s.id};
      }
    }
    assert steps[..|steps|] == steps;
  }

  lemma NoIdProblemYet(steps: seq<StepDef>)
    ensures forall e :: !IdProblem(steps, 0, e)
  {
  }

  /** How the reports grow by one id. */
  lemma IdProblemStep(steps: seq<StepDef>, n: nat, e: Problem)
    requires n < |steps|
    ensures IdProblem(steps, n + 1, e) <==>
            || IdProblem(steps, n, e)
            || (e == EmptyId && steps[n].id == "")
            || (e == DuplicateId(steps[n].id) && steps[n].id in KnownIds(steps[..n]))
  {
    if e.DuplicateId? && IdProblem(steps, n + 1, e) && !IdProblem(steps, n, e) {
      var i, j :| 0 <= i < j < n + 1 && steps[i].id == e.id && steps[j].id == e.id;
      assert steps[..n][i] in steps[..n];
    }
    if steps[n].id in KnownIds(steps[..n]) {
      var t :| t in steps[..n] && t.id == steps[n].id;
      var i :| 0 <= i < n && steps[i] == t;
    }
  }

  /** Second pass, one step: agent and dependency references. */
  method CheckStep(s: StepDef, stepIDs: set<Id>, agents: set<string>) returns (errs: seq<Problem>)
    ensures forall e :: e in errs <==> StepProblem(s, stepIDs, agents, e)
  {
    errs := [];
    if s.id == "" {
      return;
    }
    if s.agent == "" {
      errs := errs + [AgentRequired(s.id)];
    } else if agents != {} && s.agent !in agents {
      errs := errs + [UnknownAgent(s.id, s.agent)];
    }
    ghost var agentErrs := errs;
    var seenDeps: set<Id> := {};
    for m := 0 to |s.dependsOn|
      invariant seenDeps == (set d | d in s.dependsOn[..m] && d != "")
      invariant forall e :: e in errs <==> e in agentErrs || DepProblem(s, m, stepIDs, e)
    {
      var dep := s.dependsOn[m];
      var found := [];
      assert s.dependsOn[..m + 1] == s.dependsOn[..m] + [dep];
      if dep == s.id {
        found := found + [SelfDependency(s.id)];
      }
      if dep == "" {
        found := found + [EmptyDependency(s.id)];
      } else {
        if dep !in stepIDs {
          found := found + [UnknownDependency(s.id, dep)];
        }
        if dep in seenDeps {
          found := found + [DuplicateDependency(s.id, dep)];
        }
        seenDeps := seenDeps + {dep};
      }
      forall e ensures e in found || DepProblem(s, m, stepIDs, e) <==> DepProblem(s, m + 1, stepIDs, e) {
        DepProblemStep(s, m, stepIDs, e);
      }
      errs := errs + found;
    }
  }

  /** How the reports grow by one dependency. */
  lemma DepProblemStep(s: StepDef, m: nat, ids: set<Id>, e: Problem)
    requires m < |s.dependsOn|
    ensures DepProblem(s, m + 1, ids, e) <==>
            || DepProblem(s, m, ids, e)
            || (var d := s.dependsOn[m];
                || (d == s.id && e == SelfDependency(s.id))
                || (d == "" && e == EmptyDependency(s.id))
                || (d != "" && d !in ids && e == UnknownDependency(s.id, d))
                || (d != "" && d in s.dependsOn[..m] && e == DuplicateDependency(s.id, d)))
  {
    var d := s.dependsOn[m];
    assert s.dependsOn[..m + 1] == s.dependsOn[..m] + [d];
    if e.DuplicateDependency? && d in s.dependsOn[..m] {
      var i :| 0 <= i < m && s.dependsOn[i] == d;
    }
    if e.DuplicateDependency? && DepProblem(s, m + 1, ids, e) && !DepProblem(s, m, ids, e) {
      var i, j :| 0 <= i < j < m + 1 && s.dependsOn[i] == e.dep && s.dependsOn[j] == e.dep;
      assert s.dependsOn[i] in s.dependsOn[..m];
    }
  }

  // ----- Kahn's algorithm -----

  /** Builds in-degrees and the reverse adjacency lists. */
  method BuildDegrees(steps: seq<StepDef>) returns (inDegree: map<Id, int>, adj: map<Id, seq<Id>>)
    requires UniqueIds(steps)
    ensures inDegree.Keys == Ids(steps)
    ensures forall i :: 0 <= i < |steps| ==> steps[i].id in inDegree && inDegree[steps[i].id] == |steps[i].dependsOn|
    ensures Transposed(DepListsOf(steps), adj)
  {
    inDegree, adj := map[], map[];
    for n := 0 to |steps|
      invariant inDegree.Keys == Ids(steps[..n])
      invariant forall i :: 0 <= i < n ==> steps[i].id in inDegree && inDegree[steps[i].id] == |steps[i].dependsOn|
      invariant forall d, u :: Occurs(adj, d, u) == Wants(DepListsOf(steps[..n]), u, d)
    {
      var s := steps[n];
      assert steps[..n + 1] == steps[..n] + [s];
      DepListsSnoc(steps, n);
      inDegree := inDegree[s.id := |s.dependsOn|];
      adj := AddDependents(adj, s.id, s.dependsOn, Elems(s.dependsOn));
    }
    assert steps[..|steps|] == steps;
  }

  /** The processed nodes: `rank` numbers them so that dependencies come first. */
  ghost predicate Ordered(deps: DepLists, sorted: seq<Id>, rank: map<Id, int>) {
    && Distinct(sorted) && Elems(sorted) == rank.Keys && rank.Keys <= deps.Keys
    && (forall u :: u in rank ==> rank[u] < |sorted|)
    && Ranks(Listed(deps), rank)
  }

  /** The queue lists, each once, the members of R whose count is zero. */
  ghost predicate Ready(R: set<Id>, inDegree: map<Id, int>, queue: seq<Id>)
    requires R <= inDegree.Keys
  {
    Distinct(queue) && forall u :: u in queue <==> u in R && inDegree[u] == 0
  }

  /** The unprocessed nodes R: their counts, and the queue of those that are ready. */
  ghost predicate Frontier(deps: DepLists, R: set<Id>, inDegree: map<Id, int>, queue: seq<Id>) {
    Counts(deps, R, inDegree) && Ready(R, inDegree, queue)
  }

  /** State of Kahn's algorithm between two nodes. */
  ghost predicate KahnInv(deps: DepLists, inDegree: map<Id, int>, sorted: seq<Id>, queue: seq<Id>, rank: map<Id, int>) {
    && inDegree.Keys == deps.Keys
    && Ordered(deps, sorted, rank)
    && Frontier(deps, deps.Keys - rank.Keys, inDegree, queue)
    && (forall u :: u in rank ==> inDegree[u] == 0)
  }

  /** Kahn's algorithm: orders every step that leads to no cycle, dependencies first. */
  method Kahn(steps: seq<StepDef>, ghost agents: set<string>) returns (sorted: seq<Id>, inDegree: map<Id, int>)
    requires Structural(steps, agents)
    ensures exists rank :: KahnInv(DepListsOf(steps), inDegree, sorted, [], rank)
  {
    ListedIsGraph(steps, agents);
    var adj;
    inDegree, adj := BuildDegrees(steps);
    InitialCounts(steps, agents, inDegree);
    var queue := Sources(steps, inDegree);
    sorted, inDegree := DrainQueue(DepListsOf(steps), adj, inDegree, queue);
  }

  method DrainQueue(ghost deps: DepLists, adj: map<Id, seq<Id>>, inDegree0: map<Id, int>, queue0: seq<Id>)
    returns (sorted: seq<Id>, inDegree: map<Id, int>)
    requires Transposed(deps, adj) && inDegree0.Keys == deps.Keys
    requires Frontier(deps, deps.Keys, inDegree0, queue0)
    ensures exists rank :: KahnInv(deps, inDegree, sorted, [], rank)
  {
    hide Transposed, Ordered, Frontier, Listed, Ranks;
    inDegree := inDegree0;
    var queue := queue0;
    sorted := [];
    ghost var rank: map<Id, int> := map[];
    KahnStart(deps, inDegree, queue);
    while |queue| > 0
      invariant KahnInv(deps, inDegree, sorted, queue, rank)
      decreases |deps.Keys| - |sorted|
    {
      var node := queue[0];
      ghost var R := deps.Keys - rank.Keys;
      ghost var before, ready := inDegree, queue;
      FromOrdered(deps, sorted, rank);
      inDegree, queue := Relax(deps, R, adj, inDegree, queue, rank);
      KahnStep(deps, R, before, ready, sorted, node, rank, inDegree, queue);
      rank := rank[node := |sorted|];
      sorted := sorted + [node];
    }
    assert queue == [];
  }

  lemma FromOrdered(deps: DepLists, sorted: seq<Id>, rank: map<Id, int>)
    requires Ordered(deps, sorted, rank)
    ensures Ranks(Listed(deps), rank)
  {
  }

  lemma KahnStep(deps: DepLists, R: set<Id>, inDegree0: map<Id, int>, queue0: seq<Id>, sorted: seq<Id>, node: Id,
                 rank: map<Id, int>, inDegree: map<Id, int>, queue: seq<Id>)
    requires inDegree0.Keys == deps.Keys == inDegree.Keys && Ordered(deps, sorted, rank) && R == deps.Keys - rank.Keys
    requires Frontier(deps, R, inDegree0, queue0) && node in R && inDegree0[node] == 0
    requires forall u :: u in rank ==> inDegree0[u] == 0
    requires Frontier(deps, R - {node}, inDegree, queue)
    requires forall u :: u in inDegree0 && u !in R - {node} ==> inDegree[u] == inDegree0[u]
    ensures KahnInv(deps, inDegree, sorted + [node], queue, rank[node := |sorted|])
    ensures |deps.Keys| - (|sorted| + 1) >= 0
  {
    hide Listed;
    OrderedStep(deps, R, inDegree0, sorted, node, rank);
    KahnProgress(sorted, rank.Keys, node, deps.Keys);
    assert deps.Keys - rank[node := |sorted|].Keys == R - {node};
  }

  lemma KahnStart(deps: DepLists, inDegree: map<Id, int>, queue: seq<Id>)
    requires inDegree.Keys == deps.Keys && Frontier(deps, deps.Keys, inDegree, queue)
    ensures KahnInv(deps, inDegree, [], queue, map[])
  {
    var rank: map<Id, int> := map[];
    assert Elems([]) == rank.Keys;
    assert deps.Keys - rank.Keys == deps.Keys;
  }

  lemma InitialCounts(steps: seq<StepDef>, agents: set<string>, inDegree: map<Id, int>)
    requires Structural(steps, agents) && inDegree.Keys == Ids(steps)
    requires forall i :: 0 <= i < |steps| ==> inDegree[steps[i].id] == |steps[i].dependsOn|
    ensures Counts(DepListsOf(steps), DepListsOf(steps).Keys, inDegree)
  {
    var deps, ids := DepListsOf(steps), Ids(steps);
    ListedIsGraph(steps, agents);
    forall u | u in ids ensures inDegree[u] == Hits(deps[u], ids) {
      var s :| s in steps && s.id == u;
      var i :| 0 <= i < |steps| && steps[i] == s;
      assert WellFormedStep(s, ids, agents);
      HitsAll(s.dependsOn, ids);
    }
  }

  lemma KahnProgress(sorted: seq<Id>, done: set<Id>, node: Id, nodes: set<Id>)
    requires Distinct(sorted) && Elems(sorted) == done && done <= nodes && node in nodes && node !in done
    ensures |sorted| < |nodes|
  {
    DistinctCardinality(sorted);
    assert Elems(sorted) == set d | d in sorted;
    SubsetSameSize(done + {node}, nodes);
  }

  /** The steps without dependencies, in plan order. */
  method Sources(steps: seq<StepDef>, inDegree: map<Id, int>) returns (queue: seq<Id>)
    requires UniqueIds(steps) && inDegree.Keys == Ids(steps)
    ensures Ready(Ids(steps), inDegree, queue)
  {
    queue := [];
    for n := 0 to |steps|
      invariant Distinct(queue)
      invariant forall u :: u in queue <==> u in Ids(steps[..n]) && inDegree[u] == 0
    {
      assert steps[..n + 1] == steps[..n] + [steps[n]];
      assert steps[n].id !in Ids(steps[..n]);
      if inDegree[steps[n].id] == 0 {
        queue := queue + [steps[n].id];
      }
    }
    assert steps[..|steps|] == steps;
  }

  /** One round: take the head of the queue and lower the in-degree of its dependents. */
  method Relax(ghost deps: DepLists, ghost R: set<Id>, adj: map<Id, seq<Id>>, inDegree0: map<Id, int>,
               queue0: seq<Id>, ghost rank: map<Id, int>)
    returns (inDegree: map<Id, int>, queue: seq<Id>)
    requires Transposed(deps, adj) && R == deps.Keys - rank.Keys && Ranks(Listed(deps), rank)
    requires Frontier(deps, R, inDegree0, queue0) && |queue0| > 0
    ensures queue0[0] in R && inDegree0[queue0[0]] == 0
    ensures inDegree.Keys == inDegree0.Keys
    ensures Frontier(deps, R - {queue0[0]}, inDegree, queue)
    ensures forall u :: u in inDegree0 && u !in R - {queue0[0]} ==> inDegree[u] == inDegree0[u]
  {
    var node := queue0[0];
    HeadLeaves(deps, R, adj, inDegree0, queue0, rank);
    inDegree, queue := Lower(inDegree0, queue0[1..], Lookup(adj, node), R - {node});
    CountsAfterRemoval(deps, R, node, adj, inDegree0, inDegree);
  }

  /** Appending a ready node keeps the processed part ordered. */
  lemma OrderedStep(deps: DepLists, R: set<Id>, inDegree: map<Id, int>, sorted: seq<Id>, node: Id, rank: map<Id, int>)
    requires Ordered(deps, sorted, rank) && R == deps.Keys - rank.Keys
    requires Counts(deps, R, inDegree) && node in R && inDegree[node] == 0
    ensures Ordered(deps, sorted + [node], rank[node := |sorted|])
  {
    ZeroIsReady(deps, R, inDegree, node);
    assert Elems(sorted + [node]) == Elems(sorted) + {node};
    assert node !in Elems(sorted);
  }

  /** Lowers the in-degree of each listed node and queues those that reach zero. */
  method Lower(inDegree0: map<Id, int>, queue0: seq<Id>, next: seq<Id>, ghost R: set<Id>)
    returns (inDegree: map<Id, int>, queue: seq<Id>)
    requires R <= inDegree0.Keys && (forall u :: u in next ==> u in R)
    requires forall u :: u in R ==> inDegree0[u] >= multiset(next)[u]
    requires Ready(R, inDegree0, queue0)
    ensures inDegree.Keys == inDegree0.Keys
    ensures forall u :: u in R ==> inDegree[u] == inDegree0[u] - multiset(next)[u]
    ensures forall u :: u in inDegree0 && u !in R ==> inDegree[u] == inDegree0[u]
    ensures Ready(R, inDegree, queue)
  {
    inDegree, queue := inDegree0, queue0;
    for k := 0 to |next|
      invariant inDegree.Keys == inDegree0.Keys
      invariant forall u :: u in R ==> inDegree[u] == inDegree0[u] - multiset(next[..k])[u]
      invariant forall u :: u in inDegree0 && u !in R ==> inDegree[u] == inDegree0[u]
      invariant Ready(R, inDegree, queue)
    {
      var u := next[k];
      assert next[..k + 1] == next[..k] + [u];
      assert u in next && u in R;
      LastOccurrence(next, k);
      inDegree := inDegree[u := inDegree[u] - 1];
      if inDegree[u] == 0 {
        queue := queue + [u];
      }
    }
    assert next[..|next|] == next;
  }

  /** Taking the head off the queue leaves the ready part of the other unprocessed nodes. */
  lemma HeadLeaves(deps: DepLists, R: set<Id>, adj: map<Id, seq<Id>>, inDegree: map<Id, int>, queue: seq<Id>,
                   rank: map<Id, int>)
    requires Transposed(deps, adj) && R == deps.Keys - rank.Keys && Ranks(Listed(deps), rank)
    requires Frontier(deps, R, inDegree, queue) && |queue| > 0
    ensures queue[0] in R && inDegree[queue[0]] == 0
    ensures Ready(R - {queue[0]}, inDegree, queue[1..])
    ensures forall u :: u in Lookup(adj, queue[0]) ==> u in R - {queue[0]}
    ensures forall u :: u in R ==> inDegree[u] >= Occurs(adj, queue[0], u)
  {
    var node := queue[0];
    assert node in queue;
    assert queue == [node] + queue[1..];
    assert forall u :: u in queue <==> u == node || u in queue[1..];
    DependentsRemain(deps, adj, rank, node);
    ZeroIsReady(deps, R, inDegree, node);
    forall u | u in R ensures inDegree[u] >= Occurs(adj, node, u) {
      HitsBound(deps, R, adj, inDegree, node, u);
    }
  }

  lemma LastOccurrence(next: seq<Id>, k: nat)
    requires k < |next|
    ensures multiset(next[..k])[next[k]] < multiset(next)[next[k]]
  {
    assert next == next[..k] + [next[k]] + next[k + 1..];
  }

  lemma HitsBound(deps: DepLists, R: set<Id>, adj: map<Id, seq<Id>>, inDegree: map<Id, int>, node: Id, u: Id)
    requires Transposed(deps, adj) && Counts(deps, R, inDegree) && node in R && u in R
    ensures Occurs(adj, node, u) <= inDegree[u]
  {
    HitsRemove(deps[u], R, node);
    assert Occurs(adj, node, u) == Wants(deps, u, node);
  }

  /** What still lists an unprocessed node is itself unprocessed, and no node that is ready lists itself. */
  lemma DependentsRemain(deps: DepLists, adj: map<Id, seq<Id>>, rank: map<Id, int>, node: Id)
    requires Transposed(deps, adj) && Ranks(Listed(deps), rank) && node in deps && node !in rank
    ensures forall u :: u in Lookup(adj, node) ==> u in deps && u !in rank && Edge(Listed(deps), u, node)
  {
    forall u | u in Lookup(adj, node) ensures u in deps && u !in rank && Edge(Listed(deps), u, node) {
      assert Occurs(adj, node, u) > 0;
      assert Wants(deps, u, node) > 0;
      assert Edge(Listed(deps), u, node);
    }
  }

  /** Kahn leaves out exactly the steps that lead to a cycle. */
  lemma KahnLeavesCycles(deps: DepLists, inDegree: map<Id, int>, sorted: seq<Id>, rank: map<Id, int>)
    requires KahnInv(deps, inDegree, sorted, [], rank)
    ensures forall u :: u in deps ==> (inDegree[u] > 0 <==> u !in sorted)
    ensures forall u :: u in deps ==> (u !in sorted <==> ReachesCycle(Listed(deps), u))
  {
    var g := Listed(deps);
    var S := deps.Keys - rank.Keys;
    forall u | u in S ensures HasEdgeInto(g, u, S) && inDegree[u] > 0 {
      ZeroIsReady(deps, S, inDegree, u);
      assert u !in [];
    }
    forall u | u in deps ensures u !in sorted <==> ReachesCycle(g, u) {
      assert u in sorted <==> u in Elems(sorted);
      if u in sorted { RankedReachesNoCycle(g, rank, u); } else { StuckReachesCycle(g, S, u); }
    }
    forall u | u in deps ensures inDegree[u] > 0 <==> u !in sorted {
      assert u in sorted <==> u in Elems(sorted);
    }
  }

  /** Sorting everything is the same as having no cycle. */
  lemma KahnCompleteIffAcyclic(steps: seq<StepDef>, sorted: seq<Id>)
    requires UniqueIds(steps) && Distinct(sorted) && Elems(sorted) <= Ids(steps)
    requires forall u :: u in GraphOf(steps) ==> (u !in sorted <==> ReachesCycle(GraphOf(steps), u))
    ensures |sorted| == |steps| <==> Acyclic(GraphOf(steps))
    ensures |sorted| == |steps| <==> forall s :: s in steps ==> s.id in sorted
  {
    var g := GraphOf(steps);
    IdsCount(steps);
    DistinctCardinality(sorted);
    assert Elems(sorted) == set d | d in sorted;
    SubsetSameSize(Elems(sorted), Ids(steps));
    assert Elems(sorted) == Ids(steps) <==> forall s :: s in steps ==> s.id in sorted by {
      if forall s :: s in steps ==> s.id in sorted { assert Ids(steps) <= Elems(sorted); }
      forall s | s in steps ensures s.id in Ids(steps) { }
    }
    AcyclicIffNoneReachesCycle(g);
    assert Elems(sorted) == g.Keys <==> forall u :: u in g ==> u in sorted;
  }

  lemma SubsetSameSize(A: set<Id>, B: set<Id>)
    requires A <= B
    ensures |A| == |B| <==> A == B
    ensures |A| <= |B|
  {
    assert B == A + (B - A);
  }

  /** Validate reports nothing exactly on the valid plans; each report it makes is justified, and the
      reachability pass only repeats what the cycle check has found. */
  method Validate(def: PlanDef, agentNames: set<string>) returns (errs: seq<Problem>)
    ensures errs == [] <==> ValidPlan(def.steps, agentNames)
    ensures !Structural(def.steps, agentNames) ==>
              forall e :: e in errs <==> StructuralProblem(def.steps, agentNames, e)
    ensures Structural(def.steps, agentNames) ==> forall e :: e in errs ==>
              match e
              case CircularDependency(nodes) =>
                nodes != [] && forall x :: x in nodes <==> x in Ids(def.steps) && ReachesCycle(GraphOf(def.steps), x)
              case Unreachable(x) => exists nodes :: CircularDependency(nodes) in errs && x in nodes
              case _ => false
    // every step that leads to a cycle is reported once more as unreachable
    ensures Structural(def.steps, agentNames) ==> forall x ::
              Unreachable(x) in errs <==> x in Ids(def.steps) && ReachesCycle(GraphOf(def.steps), x)
  {
    var steps := def.steps;
    StructuralIffNoProblem(steps, agentNames);
    if |steps| == 0 {
      errs := [EmptyPlan];
      assert forall e :: e in errs <==> e == EmptyPlan;
      return;
    }
    var stepIDs;
    errs, stepIDs := CheckIds(steps);
    ghost var idErrs := errs;
    for n := 0 to |steps|
      invariant forall e :: e in errs <==>
                  e in idErrs || exists i :: 0 <= i < n && StepProblem(steps[i], stepIDs, agentNames, e)
    {
      var found := CheckStep(steps[n], stepIDs, agentNames);
      errs := errs + found;
    }
    forall e ensures e in errs <==> StructuralProblem(steps, agentNames, e) {
      if s :| s in steps && StepProblem(s, KnownIds(steps), agentNames, e) {
        var i :| 0 <= i < |steps| && steps[i] == s;
      }
    }
    if |errs| > 0 {
      assert errs[0] in errs;
      return;
    }
    assert Structural(steps, agentNames);
    var sorted, inDegree := Kahn(steps, agentNames);
    ghost var rank :| KahnInv(DepListsOf(steps), inDegree, sorted, [], rank);
    ListedIsGraph(steps, agentNames);
    KahnLeavesCycles(DepListsOf(steps), inDegree, sorted, rank);
    KahnCompleteIffAcyclic(steps, sorted);
    errs := OrderProblems(steps, inDegree, sorted);
  }

  /** The steps that have dependencies left. */
  method CycleNodes(steps: seq<StepDef>, inDegree: map<Id, int>) returns (nodes: seq<Id>)
    requires inDegree.Keys == Ids(steps)
    ensures forall x :: x in nodes <==> x in inDegree && inDegree[x] > 0
  {
    nodes := [];
    for n := 0 to |steps|
      invariant forall x :: x in nodes <==> x in Ids(steps[..n]) && inDegree[x] > 0
    {
      assert steps[..n + 1] == steps[..n] + [steps[n]];
      if inDegree[steps[n].id] > 0 {
        nodes := nodes + [steps[n].id];
      }
    }
    assert steps[..|steps|] == steps;
  }

  /** The reports that follow Kahn's algorithm. */
  method OrderProblems(steps: seq<StepDef>, inDegree: map<Id, int>, sorted: seq<Id>) returns (errs: seq<Problem>)
    requires inDegree.Keys == Ids(steps)
    requires |sorted| == |steps| <==> forall s :: s in steps ==> s.id in sorted
    requires forall u :: u in inDegree ==> (inDegree[u] > 0 <==> u !in sorted)
    ensures errs == [] <==> |sorted| == |steps|
    ensures forall e :: e in errs ==>
              match e
              case CircularDependency(nodes) => nodes != [] && forall x :: x in nodes <==> x in inDegree && inDegree[x] > 0
              case Unreachable(x) => exists nodes :: CircularDependency(nodes) in errs && x in nodes
              case _ => false
    ensures forall x :: Unreachable(x) in errs <==> x in inDegree && inDegree[x] > 0
  {
    errs := [];
    var cycleNodes := [];
    if |sorted| != |steps| {
      cycleNodes := CycleNodes(steps, inDegree);
      var s :| s in steps && s.id !in sorted;
      assert s.id in cycleNodes;
      errs := [CircularDependency(cycleNodes)];
    }
    var reachable := set id | id in sorted;
    for n := 0 to |steps|
      invariant |sorted| == |steps| ==> errs == []
      invariant |sorted| != |steps| ==> CircularDependency(cycleNodes) in errs
      invariant forall e :: e in errs ==> e == CircularDependency(cycleNodes) || (e.Unreachable? && e.id in cycleNodes)
      invariant forall x :: Unreachable(x) in errs <==> x in Ids(steps[..n]) && inDegree[x] > 0
    {
      assert steps[..n + 1] == steps[..n] + [steps[n]];
      if steps[n].id !in reachable {
        assert steps[n] in steps;
        errs := errs + [Unreachable(steps[n].id)];
      }
    }
    assert steps[..|steps|] == steps;
  }
}
