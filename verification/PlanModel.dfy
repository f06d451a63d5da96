/** The plan entities: step definitions, their dependency graph, and when a plan is valid. */
module PlanModel {
  import opened Basics
  import opened Graphs
  import opened InDegrees

  datatype StepDef = StepDef(
    id: Id,
    agent: string,
    task: string,
    dependsOn: seq<Id>,
    final: bool,
    gate: bool,
    maxRetries: int)

  datatype PlanDef = PlanDef(goal: string, steps: seq<StepDef>)

  function Ids(steps: seq<StepDef>): set<Id> {
    set s | s in steps :: s.id
  }

  function DepsOf(steps: seq<StepDef>, id: Id): set<Id> {
    set s, d | s in steps && s.id == id && d in s.dependsOn :: d
  }

  /** The dependency graph; if an id is used twice its steps' dependencies are pooled. */
  function GraphOf(steps: seq<StepDef>): Graph {
    map id | id in Ids(steps) :: DepsOf(steps, id)
  }

  /** Each step's dependency list by id. */
  function DepListsOf(steps: seq<StepDef>): DepLists {
    if steps == [] then map[]
    else DepListsOf(steps[..|steps| - 1])[steps[|steps| - 1].id := steps[|steps| - 1].dependsOn]
  }

  predicate UniqueIds(steps: seq<StepDef>) {
    forall i, j :: 0 <= i < j < |steps| ==> steps[i].id != steps[j].id
  }

  predicate WellFormedStep(s: StepDef, ids: set<Id>, agents: set<string>) {
    && s.id != ""
    && s.agent != ""
    && (agents != {} ==> s.agent in agents)
    && Distinct(s.dependsOn)
    && forall d :: d in s.dependsOn ==> d != s.id && d != "" && d in ids
  }

  /** Everything Validate asks of a plan apart from the absence of cycles. */
  predicate Structural(steps: seq<StepDef>, agents: set<string>) {
    && |steps| > 0
    && UniqueIds(steps)
    && forall s :: s in steps ==> WellFormedStep(s, Ids(steps), agents)
  }

  ghost predicate ValidPlan(steps: seq<StepDef>, agents: set<string>) {
    Structural(steps, agents) && Acyclic(GraphOf(steps))
  }

  lemma StepUnique(steps: seq<StepDef>, s: StepDef, t: StepDef)
    requires UniqueIds(steps) && s in steps && t in steps && s.id == t.id
    ensures s == t
  {
    var i :| 0 <= i < |steps| && steps[i] == s;
    var j :| 0 <= j < |steps| && steps[j] == t;
    if i < j { } else if j < i { }
  }

  /** With unique ids the graph maps a step to exactly its own dependency list. */
  lemma DepsOfStep(steps: seq<StepDef>, s: StepDef)
    requires UniqueIds(steps) && s in steps
    ensures s.id in GraphOf(steps)
    ensures forall d :: d in GraphOf(steps)[s.id] <==> d in s.dependsOn
  {
    forall d | d in DepsOf(steps, s.id) ensures d in s.dependsOn {
      var t :| t in steps && t.id == s.id && d in t.dependsOn;
      StepUnique(steps, s, t);
    }
  }

  /** u depends on v, read off the list of steps. */
  lemma EdgeIsDependency(steps: seq<StepDef>, u: Id, v: Id)
    ensures Edge(GraphOf(steps), u, v) <==> exists s :: s in steps && s.id == u && v in s.dependsOn
  {
    if s :| s in steps && s.id == u && v in s.dependsOn {
      assert u in Ids(steps);
      assert v in DepsOf(steps, u);
    }
  }

  lemma DistinctCardinality(p: seq<Id>)
    requires Distinct(p)
    ensures |set d | d in p| == |p|
  {
    if |p| > 0 {
      var n := |p| - 1;
      DistinctCardinality(p[..n]);
      assert (set d | d in p) == (set d | d in p[..n]) + {p[n]};
    } else {
      assert (set d | d in p) == {};
    }
  }

  lemma {:induction false} DepListsLookup(steps: seq<StepDef>)
    requires UniqueIds(steps)
    ensures DepListsOf(steps).Keys == Ids(steps)
    ensures forall s :: s in steps ==> s.id in DepListsOf(steps) && DepListsOf(steps)[s.id] == s.dependsOn
  {
    if steps != [] {
      var n := |steps| - 1;
      DepListsLookup(steps[..n]);
      assert steps == steps[..n] + [steps[n]];
      forall s | s in steps ensures s.id in DepListsOf(steps) && DepListsOf(steps)[s.id] == s.dependsOn {
        StepUnique(steps, s, if s in steps[..n] then s else steps[n]);
        if s in steps[..n] { assert s.id != steps[n].id; }
      }
    }
  }

  lemma DepListsSnoc(steps: seq<StepDef>, n: nat)
    requires n < |steps| && UniqueIds(steps)
    ensures steps[n].id !in DepListsOf(steps[..n])
    ensures DepListsOf(steps[..n + 1]) == DepListsOf(steps[..n])[steps[n].id := steps[n].dependsOn]
  {
    assert steps[..n + 1][..n] == steps[..n];
    DepListsLookup(steps[..n]);
  }

  lemma IdsCount(steps: seq<StepDef>)
    requires UniqueIds(steps)
    ensures |Ids(steps)| == |steps|
  {
    if |steps| == 0 {
      assert Ids(steps) == {};
    } else {
      var n := |steps| - 1;
      IdsCount(steps[..n]);
      assert steps == steps[..n] + [steps[n]];
      assert Ids(steps) == Ids(steps[..n]) + {steps[n].id};
      assert steps[n].id !in Ids(steps[..n]);
    }
  }

  /** In a structurally sound plan the dependency graph can be read off the lists. */
  lemma ListedIsGraph(steps: seq<StepDef>, agents: set<string>)
    requires Structural(steps, agents)
    ensures DepListsOf(steps).Keys == Ids(steps)
    ensures Listed(DepListsOf(steps)) == GraphOf(steps)
    ensures forall s :: s in steps ==> DepListsOf(steps)[s.id] == s.dependsOn
  {
    DepListsLookup(steps);
    var deps := DepListsOf(steps);
    forall u | u in Ids(steps) ensures Listed(deps)[u] == GraphOf(steps)[u] {
      var s :| s in steps && s.id == u;
      assert WellFormedStep(s, Ids(steps), agents);
      DepsOfStep(steps, s);
    }
  }
}
