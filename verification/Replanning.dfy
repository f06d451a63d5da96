/** Replanning: which steps a failure affects, and the plan that replaces them. */
module Replanning {
  import opened Graphs
  import opened InDegrees
  import opened PlanModel

  /** The steps that failedID affects: itself and all that depends on it transitively. */
  ghost predicate IsAffected(steps: seq<StepDef>, failedID: Id, affected: set<Id>) {
    forall u :: u in affected <==> Reaches(GraphOf(steps), u, failedID)
  }

  /** Reverse dependency map: each id to the steps that depend on it. */
  method BuildDependents(steps: seq<StepDef>) returns (dependents: map<Id, seq<Id>>)
    ensures forall d, u :: u in Lookup(dependents, d) <==> Edge(GraphOf(steps), u, d)
  {
    dependents := map[];
    for n := 0 to |steps|
      invariant forall d, u :: u in Lookup(dependents, d) <==> Edge(GraphOf(steps[..n]), u, d)
    {
      var s := steps[n];
      ghost var before := dependents;
      dependents := AddDependents(dependents, s.id, s.dependsOn, Elems(s.dependsOn));
      forall d, u ensures u in Lookup(dependents, d) <==> Edge(GraphOf(steps[..n + 1]), u, d) {
        EdgeSnoc(steps[..n], s, u, d);
        assert steps[..n + 1] == steps[..n] + [s];
        assert u in Lookup(dependents, d) <==> Occurs(dependents, d, u) > 0;
        assert u in Lookup(before, d) <==> Occurs(before, d, u) > 0;
      }
    }
    assert steps[..|steps|] == steps;
  }

  lemma EdgeSnoc(steps: seq<StepDef>, s: StepDef, u: Id, d: Id)
    ensures Edge(GraphOf(steps + [s]), u, d) <==> Edge(GraphOf(steps), u, d) || (u == s.id && d in s.dependsOn)
  {
    hide GraphOf, Edge;
    EdgeIsDependency(steps, u, d);
    EdgeIsDependency(steps + [s], u, d);
    if t :| t in steps && t.id == u && d in t.dependsOn {
      assert t in steps + [s];
    }
    assert s in steps + [s];
  }

  /** Everything that reaches startID, by breadth-first search over the reverse dependencies. */
  method AffectedSteps(steps: seq<StepDef>, startID: Id) returns (affected: set<Id>)
    ensures IsAffected(steps, startID, affected)
  {
    hide Reaches, GraphOf, Lookup;
    ghost var g := GraphOf(steps);
    ghost var nodes := Ids(steps) + {startID};
    var dependents := BuildDependents(steps);
    affected := {startID};
    var queue := [startID];
    ReachesSelf(g, startID);
    while |queue| > 0
      invariant startID in affected && affected <= nodes
      invariant forall u :: u in queue ==> u in affected
      invariant forall u :: u in affected ==> Reaches(g, u, startID)
      invariant forall u, d :: d in affected && d !in queue && Edge(g, u, d) ==> u in affected
      decreases nodes - affected, |queue|
    {
      var current := queue[0];
      affected, queue := Visit(g, nodes, startID, Lookup(dependents, current), affected, queue) by {
        EdgesStartAtSteps(steps);
      }
    }
    forall u | Reaches(g, u, startID) ensures u in affected {
      ReachersInClosedSet(g, affected, u, startID);
    }
  }

  lemma EdgesStartAtSteps(steps: seq<StepDef>)
    ensures forall u, d :: Edge(GraphOf(steps), u, d) ==> u in Ids(steps)
  {
  }

  lemma ReachersInClosedSet(g: Graph, S: set<Id>, u: Id, v: Id)
    requires Reaches(g, u, v) && v in S
    requires forall u, d :: d in S && Edge(g, u, d) ==> u in S
    ensures u in S
  {
    var p :| PathBetween(g, p, u, v);
    BackwardClosed(g, S, p);
  }

  /** One search step: drop the head of the queue and add its dependents that are new. */
  method Visit(ghost g: Graph, ghost nodes: set<Id>, ghost startID: Id, dependents: seq<Id>,
               affected0: set<Id>, queue0: seq<Id>)
    returns (affected: set<Id>, queue: seq<Id>)
    requires |queue0| > 0 && affected0 <= nodes
    requires forall u :: u in dependents <==> Edge(g, u, queue0[0])
    requires forall u, d :: Edge(g, u, d) ==> u in nodes
    requires forall u :: u in queue0 ==> u in affected0
    requires forall u :: u in affected0 ==> Reaches(g, u, startID)
    requires forall u, d :: d in affected0 && d !in queue0 && Edge(g, u, d) ==> u in affected0
    ensures affected0 <= affected <= nodes
    ensures forall u :: u in queue ==> u in affected
    ensures forall u :: u in affected ==> Reaches(g, u, startID)
    ensures forall u, d :: d in affected && d !in queue && Edge(g, u, d) ==> u in affected
    ensures affected == affected0 ==> |queue| < |queue0|
  {
    hide Reaches, Edge;
    var current := queue0[0];
    affected, queue := affected0, queue0[1..];
    assert queue0 == [current] + queue;
    for k := 0 to |dependents|
      invariant affected0 <= affected <= nodes
      invariant forall u :: u in queue ==> u in affected
      invariant forall u :: u in affected ==> Reaches(g, u, startID)
      invariant forall u :: u in dependents[..k] ==> u in affected
      invariant forall d :: d in affected && d !in queue ==> d in affected0 && (d == current || d !in queue0)
      invariant affected == affected0 ==> queue == queue0[1..]
    {
      var next := dependents[k];
      assert dependents[..k + 1] == dependents[..k] + [next];
      if next !in affected {
        assert next in dependents;
        EdgeReaches(g, next, current);
        ReachesTransitive(g, next, current, startID);
        affected := affected + {next};
        queue := queue + [next];
      }
    }
    assert dependents[..|dependents|] == dependents;
  }

  // ----- merging -----

  function Survivors(steps: seq<StepDef>, affected: set<Id>): seq<StepDef> {
    if steps == [] then []
    else
      var rest := Survivors(steps[..|steps| - 1], affected);
      if steps[|steps| - 1].id in affected then rest else rest + [steps[|steps| - 1]]
  }

  /** Keeps the surviving steps in order and appends the replacement. */
  method MergeSteps(steps: seq<StepDef>, affected: set<Id>, newSteps: seq<StepDef>) returns (merged: seq<StepDef>)
    ensures merged == Survivors(steps, affected) + newSteps
  {
    merged := [];
    for n := 0 to |steps|
      invariant merged == Survivors(steps[..n], affected)
    {
      assert steps[..n + 1][..n] == steps[..n];
      if steps[n].id !in affected {
        merged := merged + [steps[n]];
      }
    }
    assert steps[..|steps|] == steps;
    merged := merged + newSteps;
  }

  lemma {:induction false} SurvivorsMembers(steps: seq<StepDef>, affected: set<Id>)
    ensures forall s :: s in Survivors(steps, affected) <==> s in steps && s.id !in affected
  {
    if steps != [] {
      SurvivorsMembers(steps[..|steps| - 1], affected);
      assert steps == steps[..|steps| - 1] + [steps[|steps| - 1]];
    }
  }

  lemma {:induction false} SurvivorsUnique(steps: seq<StepDef>, affected: set<Id>)
    requires UniqueIds(steps)
    ensures UniqueIds(Survivors(steps, affected))
  {
    if steps != [] {
      var n := |steps| - 1;
      SurvivorsUnique(steps[..n], affected);
      SurvivorsMembers(steps[..n], affected);
      var rest := Survivors(steps[..n], affected);
      forall i | 0 <= i < |rest| ensures rest[i].id != steps[n].id {
        assert rest[i] in steps[..n];
      }
    }
  }

  /** What survives never depends on what is replaced. */
  lemma SurvivorsClosed(steps: seq<StepDef>, failedID: Id, affected: set<Id>)
    requires IsAffected(steps, failedID, affected)
    ensures forall s, d :: s in Survivors(steps, affected) && d in s.dependsOn ==> d !in affected
  {
    SurvivorsMembers(steps, affected);
    forall s, d | s in Survivors(steps, affected) && d in s.dependsOn ensures d !in affected {
      if d in affected {
        EdgeIsDependency(steps, s.id, d);
        EdgeReaches(GraphOf(steps), s.id, d);
        ReachesTransitive(GraphOf(steps), s.id, d, failedID);
      }
    }
  }

  lemma UniqueConcat(a: seq<StepDef>, b: seq<StepDef>)
    requires UniqueIds(a) && UniqueIds(b)
    ensures UniqueIds(a + b) <==> Ids(a) !! Ids(b)
  {
    var c := a + b;
    if Ids(a) !! Ids(b) {
      forall i, j | 0 <= i < j < |c| ensures c[i].id != c[j].id {
        if i < |a| && j >= |a| {
          assert a[i].id in Ids(a) && b[j - |a|].id in Ids(b);
        }
      }
    } else {
      var x :| x in Ids(a) && x in Ids(b);
      var s :| s in a && s.id == x;
      var t :| t in b && t.id == x;
      var i :| 0 <= i < |a| && a[i] == s;
      var j :| 0 <= j < |b| && b[j] == t;
      assert c[i].id == c[|a| + j].id;
    }
  }

  /** A path that starts inside a part closed under dependencies is a path of that part. */
  lemma {:induction false} PathStays(whole: Graph, part: Graph, nodes: set<Id>, p: seq<Id>)
    requires IsPath(whole, p) && p[0] in nodes
    requires forall u, v :: u in nodes && Edge(whole, u, v) ==> v in nodes && Edge(part, u, v)
    ensures IsPath(part, p) && p[|p| - 1] in nodes
    decreases |p|
  {
    if |p| > 1 {
      PathStays(whole, part, nodes, p[..|p| - 1]);
      assert Edge(whole, p[|p| - 2], p[|p| - 1]);
      forall i, j | 0 <= i && j == i + 1 && j < |p| ensures Edge(part, p[i], p[j]) {
        if j < |p| - 1 { assert Edge(part, p[..|p| - 1][i], p[..|p| - 1][j]); }
      }
    }
  }

  /** Two acyclic parts without edges between them make an acyclic whole. */
  lemma UnionAcyclic(whole: Graph, a: Graph, b: Graph, A: set<Id>, B: set<Id>)
    requires Acyclic(a) && Acyclic(b)
    requires forall u, v :: Edge(whole, u, v) ==> u in A || u in B
    requires forall u, v :: u in A && Edge(whole, u, v) ==> v in A && Edge(a, u, v)
    requires forall u, v :: u in B && Edge(whole, u, v) ==> v in B && Edge(b, u, v)
    ensures Acyclic(whole)
  {
    forall p | IsPath(whole, p) && |p| >= 2 ensures p[0] != p[|p| - 1] {
      assert Edge(whole, p[0], p[1]);
      if p[0] in A { PathStays(whole, a, A, p); } else { PathStays(whole, b, B, p); }
    }
  }

  /** Surviving steps plus a separately valid replacement form a valid plan exactly when the
      replacement reuses no surviving id. */
  lemma MergeValidIff(steps: seq<StepDef>, newSteps: seq<StepDef>, agents: set<string>, failedID: Id, affected: set<Id>)
    requires ValidPlan(steps, agents) && ValidPlan(newSteps, agents) && IsAffected(steps, failedID, affected)
    ensures ValidPlan(Survivors(steps, affected) + newSteps, agents)
            <==> Ids(Survivors(steps, affected)) !! Ids(newSteps)
  {
    hide Acyclic, GraphOf, Edge, IsAffected;
    var kept := Survivors(steps, affected);
    var merged := kept + newSteps;
    SurvivorsUnique(steps, affected);
    UniqueConcat(kept, newSteps);
    if Ids(kept) !! Ids(newSteps) {
      MergeStructural(steps, newSteps, agents, failedID, affected);
      MergeAcyclic(steps, newSteps, agents, failedID, affected);
    }
  }

  lemma IdsConcat(a: seq<StepDef>, b: seq<StepDef>)
    ensures Ids(a + b) == Ids(a) + Ids(b)
  {
  }

  lemma MergeStructural(steps: seq<StepDef>, newSteps: seq<StepDef>, agents: set<string>, failedID: Id, affected: set<Id>)
    requires Structural(steps, agents) && Structural(newSteps, agents) && IsAffected(steps, failedID, affected)
    requires UniqueIds(Survivors(steps, affected) + newSteps)
    ensures Structural(Survivors(steps, affected) + newSteps, agents)
  {
    hide IsAffected;
    var kept := Survivors(steps, affected);
    var merged := kept + newSteps;
    IdsConcat(kept, newSteps);
    SurvivorsMembers(steps, affected);
    SurvivorsClosed(steps, failedID, affected);
    forall s | s in merged ensures WellFormedStep(s, Ids(merged), agents) {
      if s in kept {
        assert WellFormedStep(s, Ids(steps), agents);
        forall d | d in s.dependsOn ensures d in Ids(kept) {
          var t :| t in steps && t.id == d;
          assert t in kept;
        }
      } else {
        assert WellFormedStep(s, Ids(newSteps), agents);
      }
    }
  }

  lemma MergeAcyclic(steps: seq<StepDef>, newSteps: seq<StepDef>, agents: set<string>, failedID: Id, affected: set<Id>)
    requires ValidPlan(steps, agents) && ValidPlan(newSteps, agents) && IsAffected(steps, failedID, affected)
    requires Ids(Survivors(steps, affected)) !! Ids(newSteps)
    ensures Acyclic(GraphOf(Survivors(steps, affected) + newSteps))
  {
    hide Acyclic, IsAffected, GraphOf, Edge;
    var kept := Survivors(steps, affected);
    var merged := kept + newSteps;
    var whole, a, b := GraphOf(merged), GraphOf(steps), GraphOf(newSteps);
    SurvivorsMembers(steps, affected);
    SurvivorsClosed(steps, failedID, affected);
    forall u, v | Edge(whole, u, v)
      ensures u in Ids(kept) || u in Ids(newSteps)
      ensures u in Ids(kept) ==> v in Ids(kept) && Edge(a, u, v)
      ensures u in Ids(newSteps) ==> v in Ids(newSteps) && Edge(b, u, v)
    {
      EdgeIsDependency(merged, u, v);
      var s :| s in merged && s.id == u && v in s.dependsOn;
      EdgeIsDependency(steps, u, v);
      EdgeIsDependency(newSteps, u, v);
      if s in kept {
        assert u in Ids(kept);
        assert WellFormedStep(s, Ids(steps), agents);
        var t :| t in steps && t.id == v;
        assert t in kept;
      } else {
        assert u in Ids(newSteps);
        assert WellFormedStep(s, Ids(newSteps), agents);
      }
    }
    UnionAcyclic(whole, a, b, Ids(kept), Ids(newSteps));
  }
}
