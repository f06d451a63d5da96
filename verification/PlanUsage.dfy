/** Token accounting over whole runs: what has been spent is what the surviving results carry. */
module PlanUsage {
  import opened Graphs
  import opened PlanModel
  import opened Replanning
  import opened PlanTrace

  function UsageOf(results: Results, id: Id): Usage {
    if id in results then results[id].usage else NO_USAGE
  }

  /** The sum of the usages in the results of the plan's steps. */
  function SumUsage(steps: seq<StepDef>, results: Results): Usage {
    if steps == [] then NO_USAGE
    else AddUsage(SumUsage(steps[..|steps| - 1], results), UsageOf(results, steps[|steps| - 1].id))
  }

  function EventUsage(e: Event): Usage {
    if e.Finished? && e.outcome.Success? then e.outcome.payload.usage else NO_USAGE
  }

  /** What all successful step executions of a run have used together. */
  function Spent(run: seq<Snapshot>): Usage {
    if run == [] then NO_USAGE
    else AddUsage(Spent(run[..|run| - 1]), EventUsage(run[|run| - 1].event))
  }

  lemma SpentSnoc(run: seq<Snapshot>, t: Snapshot)
    ensures Spent(run + [t]) == AddUsage(Spent(run), EventUsage(t.event))
  {
    assert (run + [t])[..|run|] == run;
  }

  lemma {:induction false} SumSame(steps: seq<StepDef>, a: Results, b: Results)
    requires forall s :: s in steps ==> UsageOf(a, s.id) == UsageOf(b, s.id)
    ensures SumUsage(steps, a) == SumUsage(steps, b)
  {
    if steps != [] { SumSame(steps[..|steps| - 1], a, b); }
  }

  lemma {:induction false} SumUpdate(steps: seq<StepDef>, a: Results, b: Results, id: Id)
    requires UniqueIds(steps) && id in Ids(steps)
    requires forall x :: x != id ==> UsageOf(a, x) == UsageOf(b, x)
    requires UsageOf(a, id) == NO_USAGE
    ensures SumUsage(steps, b) == AddUsage(SumUsage(steps, a), UsageOf(b, id))
  {
    hide SumUsage, AddUsage, UsageOf;
    var n := |steps| - 1;
    var init, last := steps[..n], steps[n];
    assert steps == init + [last];
    SumSnoc(init, last, a);
    SumSnoc(init, last, b);
    if last.id == id {
      SumSame(init, a, b);
      NoUsage(SumUsage(init, a));
    } else {
      assert id in Ids(init);
      SumUpdate(init, a, b, id);
      SwapUsage(SumUsage(init, a), UsageOf(b, id), UsageOf(b, last.id));
    }
  }

  lemma NoUsage(u: Usage)
    ensures AddUsage(u, NO_USAGE) == u
  {
  }

  lemma SwapUsage(u: Usage, v: Usage, w: Usage)
    ensures AddUsage(AddUsage(u, v), w) == AddUsage(AddUsage(u, w), v)
    ensures AddUsage(AddUsage(u, v), w) == AddUsage(u, AddUsage(v, w))
  {
  }

  lemma SumSnoc(steps: seq<StepDef>, s: StepDef, results: Results)
    ensures SumUsage(steps + [s], results) == AddUsage(SumUsage(steps, results), UsageOf(results, s.id))
  {
    assert (steps + [s])[..|steps|] == steps;
  }

  lemma {:induction false} SumConcat(a: seq<StepDef>, b: seq<StepDef>, results: Results)
    ensures SumUsage(a + b, results) == AddUsage(SumUsage(a, results), SumUsage(b, results))
  {
    hide AddUsage, UsageOf, SumUsage;
    if b == [] {
      assert a + b == a;
      EmptySum(results);
      NoUsage(SumUsage(a, results));
    } else {
      var n := |b| - 1;
      var init, last := b[..n], b[n];
      SumConcat(a, init, results);
      SumSnoc(a + init, last, results);
      SumSnoc(init, last, results);
      SwapUsage(SumUsage(a, results), SumUsage(init, results), UsageOf(results, last.id));
      assert init + [last] == b;
      assert (a + init) + [last] == a + b;
    }
  }

  lemma EmptySum(results: Results)
    ensures SumUsage([], results) == NO_USAGE
  {
  }

  lemma {:induction false} SumZero(steps: seq<StepDef>, results: Results)
    requires forall s :: s in steps ==> UsageOf(results, s.id) == NO_USAGE
    ensures SumUsage(steps, results) == NO_USAGE
  {
    if steps != [] { SumZero(steps[..|steps| - 1], results); }
  }

  lemma {:induction false} SumSurvivors(steps: seq<StepDef>, results: Results, affected: set<Id>)
    requires forall id :: id in affected ==> UsageOf(results, id) == NO_USAGE
    ensures SumUsage(Survivors(steps, affected), results) == SumUsage(steps, results)
  {
    if steps != [] {
      var n := |steps| - 1;
      SumSurvivors(steps[..n], results, affected);
      var rest := Survivors(steps[..n], affected);
      if steps[n].id !in affected {
        assert (rest + [steps[n]])[..|rest|] == rest;
      }
    }
  }

  lemma NextConservesUsage(agents: set<string>, s: Snapshot, t: Snapshot)
    requires Inv(agents, s) && Next(agents, s, t)
    ensures SumUsage(t.steps, t.results) == AddUsage(SumUsage(s.steps, s.results), EventUsage(t.event))
  {
    hide IsAffected, Sound, StepContextOf, GraphOf, SumUsage, Survivors, FindStep;
    match t.event
    case Created =>
    case Prepared => SumSame(s.steps, s.results, t.results);
    case Started(id, _) => SumSame(s.steps, s.results, t.results);
    case Finished(id, _, outcome) =>
      SoundUnique(s.steps);
      if outcome.Success? { SumUpdate(s.steps, s.results, t.results, id); }
      else { SumSame(s.steps, s.results, t.results); }
    case Returned =>
    case Retried(id) => SumSame(s.steps, s.results, t.results);
    case Replanned(_, _, _, _) => ReplanConservesUsage(agents, s, t);
  }

  lemma SoundUnique(steps: seq<StepDef>)
    requires Sound(steps)
    ensures UniqueIds(steps)
  {
  }

  lemma ReplanConservesUsage(agents: set<string>, s: Snapshot, t: Snapshot)
    requires Inv(agents, s) && Next(agents, s, t) && t.event.Replanned?
    ensures SumUsage(t.steps, t.results) == SumUsage(s.steps, s.results)
  {
    hide IsAffected, Sound, GraphOf, SumUsage, Survivors, FindStep;
    var affected, newSteps := t.event.affected, t.event.newSteps;
    forall id | id in affected ensures UsageOf(s.results, id) == NO_USAGE {
      AffectedNotDone(s, t.event.failedID, affected, id);
    }
    SumSurvivors(s.steps, s.results, affected);
    SurvivorsMembers(s.steps, affected);
    SumSame(Survivors(s.steps, affected), s.results, t.results);
    ReplanDisjoint(s, t);
    forall id | id in t.results ensures id in Ids(Survivors(s.steps, affected)) {
      var y :| y in s.steps && y.id == id;
      assert y in Survivors(s.steps, affected);
    }
    assert forall x :: x in newSteps ==> x.id in Ids(newSteps);
    SumZero(newSteps, t.results);
    SumConcat(Survivors(s.steps, affected), newSteps, t.results);
  }

  /** Conservation: over any run, through any failures, retries and replans, the usage of all successful
      step executions equals the sum of the usages in the surviving results. */
  lemma {:induction false} SpentIsHeld(agents: set<string>, run: seq<Snapshot>, k: nat)
    requires IsRun(agents, run) && k < |run|
    ensures Spent(run[..k + 1]) == SumUsage(run[k].steps, run[k].results)
    decreases k
  {
    hide *;
    assert run[..k + 1] == run[..k] + [run[k]];
    SpentSnoc(run[..k], run[k]);
    if k == 0 {
      StartsEmpty(agents, run);
      EmptySums([]);
      assert run[..0] == [];
    } else {
      var s, t := run[k - 1], run[k];
      SpentIsHeld(agents, run, k - 1);
      assert Spent(run[..k]) == SumUsage(s.steps, s.results);
      RunIsDependencySafe(agents, run, k - 1);
      RunStep(agents, run, k);
      NextConservesUsage(agents, s, t);
    }
  }

  lemma RunStep(agents: set<string>, run: seq<Snapshot>, k: nat)
    requires IsRun(agents, run) && 0 < k < |run|
    ensures Next(agents, run[k - 1], run[k])
  {
  }

  lemma StartsEmpty(agents: set<string>, run: seq<Snapshot>)
    requires IsRun(agents, run)
    ensures SumUsage(run[0].steps, run[0].results) == NO_USAGE
    ensures EventUsage(run[0].event) == NO_USAGE
  {
    hide Next, Sound, SumUsage;
    EmptySums(run[0].steps);
  }

  lemma EmptySums(steps: seq<StepDef>)
    ensures SumUsage(steps, map[]) == NO_USAGE && Spent([]) == NO_USAGE
    ensures AddUsage(NO_USAGE, NO_USAGE) == NO_USAGE
  {
    SumZero(steps, map[]);
  }
}
