/** The executor's main loop: layer after layer, gate and failure pauses, automatic replanning. */
module Executor {
  import opened Basics
  import opened Graphs
  import opened InDegrees
  import opened PlanModel
  import opened Validation
  import opened Scheduling
  import opened Replanning
  import opened PlanTrace
  import opened PlanUsage
  import opened ExecState
  import opened BatchRun

  /** How a call of Execute ends. */
  datatype ExecResult =
    | PlanCompleted(usage: Usage, replanCount: int)
    | GatePause(gateID: Id, usage: Usage)
    | FailurePause(failedID: Id)
    | ContextCancelled
    | ReplansExceeded
    | ReplanFailed

  /** Between batches: the plan is sound, every step has a result, and no step runs. */
  ghost predicate Settled(steps: seq<StepDef>, results: Results) {
    Sound(steps) && results.Keys == Ids(steps) && forall id :: id in results ==> IsDone(results, id) || Waiting(results, id)
  }

  /** The unfinished steps, by id. */
  method CollectPending(steps: seq<StepDef>, results: Results) returns (pending: map<Id, StepDef>)
    requires UniqueIds(steps)
    ensures forall id :: id in pending <==> id in Ids(steps) && (id in results ==> Waiting(results, id))
    ensures forall id :: id in pending ==> pending[id] in steps && pending[id].id == id
  {
    pending := map[];
    for n := 0 to |steps|
      invariant forall id :: id in pending <==> id in Ids(steps[..n]) && (id in results ==> Waiting(results, id))
      invariant forall id :: id in pending ==> pending[id] in steps && pending[id].id == id
    {
      var s := steps[n];
      assert steps[..n + 1] == steps[..n] + [s];
      assert s.id !in Ids(steps[..n]);
      if s.id !in results || results[s.id].status == Pending || results[s.id].status == Failed {
        pending := pending[s.id := s];
      }
    }
    assert steps[..|steps|] == steps;
  }

  /** The pending steps' own dependency graph inherits acyclicity from the plan. */
  lemma PendingAcyclic(steps: seq<StepDef>, pending: map<Id, StepDef>)
    requires Sound(steps) && forall id :: id in pending ==> pending[id] in steps && pending[id].id == id
    ensures Acyclic(PendingGraph(pending))
  {
    hide Sound, GraphOf, Listed, Edge;
    var g, h := GraphOf(steps), PendingGraph(pending);
    SoundAcyclic(steps);
    forall u, v | Edge(h, u, v) ensures Edge(g, u, v) {
      PendingEdge(pending, u, v);
      EdgeIsDependency(steps, u, v);
    }
    forall p | IsPath(h, p) && |p| >= 2 ensures p[0] != p[|p| - 1] {
      assert IsPath(g, p);
    }
  }

  lemma PendingEdge(pending: map<Id, StepDef>, u: Id, v: Id)
    ensures Edge(PendingGraph(pending), u, v) <==> u in pending && v in pending && v in pending[u].dependsOn
  {
  }

  /** A pending dependency lies in a strictly earlier batch. */
  lemma DependencyEarlier(g: Graph, batches: seq<seq<Id>>, u: Id, v: Id, k: nat) returns (j: nat)
    requires Layers(g, batches) && Edge(g, u, v) && Scheduled(batches, v)
    requires k < |batches| && u in batches[k]
    ensures j < k && v in batches[j]
  {
    hide Deep;
    var i :| 0 <= i < |batches| && v in batches[i];
    j := i;
    assert LongestPath(g, v, i) && LongestPath(g, u, k);
    DeepSucc(g, u, v, i);
    if i >= k { DeepMonotone(g, u, k + 1, i + 1); }
  }

  lemma DeepSucc(g: Graph, u: Id, v: Id, k: nat)
    requires Edge(g, u, v) && Deep(g, v, k)
    ensures Deep(g, u, k + 1)
  {
  }

  /** Once the earlier batches are done, everything the k-th batch depends on is done. */
  lemma BatchRunnable(steps: seq<StepDef>, pending: map<Id, StepDef>, batches: seq<seq<Id>>, k: nat, results: Results)
    requires Settled(steps, results) && k < |batches|
    requires forall id :: id in pending ==> pending[id] in steps && pending[id].id == id
    requires forall id :: id in results && id !in pending ==> IsDone(results, id)
    requires Layers(PendingGraph(pending), batches) && forall u :: u in pending ==> Scheduled(batches, u)
    requires forall j, id :: 0 <= j < k && id in batches[j] ==> IsDone(results, id)
    requires forall id :: id in batches[k] ==> Waiting(results, id)
    ensures Runnable(steps, results, batches[k])
    ensures forall id :: id in batches[k] ==> id in pending
  {
    hide Sound, Listed, LongestPath;
    PendingClosed(pending);
    forall id | id in batches[k] ensures id in pending && DepsDone(steps, results, id) && id in Ids(steps) {
      assert id in PendingGraph(pending);
      var x := pending[id];
      SoundStep(steps, x);
      forall s, d | s in steps && s.id == id && d in s.dependsOn ensures IsDone(results, d) {
        StepUnique(steps, s, x);
        if d in pending {
          PendingEdge(pending, id, d);
          var j := DependencyEarlier(PendingGraph(pending), batches, id, d, k);
        }
      }
    }
  }

  lemma LayersDisjoint(g: Graph, batches: seq<seq<Id>>, j: nat, k: nat, id: Id)
    requires Layers(g, batches) && j < |batches| && k < |batches| && id in batches[j] && id in batches[k]
    ensures j == k
  {
    hide Deep;
    LongestPathUnique(g, id, j, k);
  }

  /** The first batches are done, the later ones still wait. */
  ghost predicate Progress(results: Results, pending: map<Id, StepDef>, batches: seq<seq<Id>>, k: nat) {
    && k <= |batches|
    && (forall id :: id in results && id !in pending ==> IsDone(results, id))
    && (forall j, id :: 0 <= j < k && id in batches[j] ==> IsDone(results, id))
    && (forall j, id :: k <= j < |batches| && id in batches[j] ==> Waiting(results, id))
  }

  lemma ProgressStep(steps: seq<StepDef>, pending: map<Id, StepDef>, batches: seq<seq<Id>>, k: nat, before: Results, after: Results)
    requires Progress(before, pending, batches, k) && k < |batches| && Layers(PendingGraph(pending), batches)
    requires after.Keys == before.Keys
    requires forall id :: id in after && id !in batches[k] ==> after[id] == before[id]
    requires forall id :: id in batches[k] ==> IsDone(after, id)
    ensures Progress(after, pending, batches, k + 1)
  {
    hide Layers, Listed;
    forall j, id | k + 1 <= j < |batches| && id in batches[j] ensures Waiting(after, id) {
      assert Waiting(before, id);
      if id in batches[k] { LayersDisjoint(PendingGraph(pending), batches, j, k, id); }
    }
    forall j, id | 0 <= j < k + 1 && id in batches[j] ensures IsDone(after, id) {
      if id !in batches[k] { assert IsDone(before, id); }
    }
    forall id | id in after && id !in pending ensures IsDone(after, id) {
      assert IsDone(before, id);
    }
  }

  /** What one pass over the layers leaves behind. */
  datatype PassResult = PassResult(usage: Usage, gate: Option<Id>, failed: bool, err: bool, ctxDone: bool)

  /** What the layers of a pass are. */
  ghost predicate Plan(steps: seq<StepDef>, pending: map<Id, StepDef>, batches: seq<seq<Id>>) {
    && Sound(steps)
    && (forall id :: id in pending ==> pending[id] in steps && pending[id].id == id)
    && Layers(PendingGraph(pending), batches) && forall u :: u in pending ==> Scheduled(batches, u)
  }

  lemma SettledUnique(steps: seq<StepDef>, results: Results)
    requires Settled(steps, results)
    ensures UniqueIds(steps)
  {
  }

  lemma PassStart(steps: seq<StepDef>, results: Results, pending: map<Id, StepDef>)
    requires Settled(steps, results)
    requires forall id :: id in pending <==> id in Ids(steps) && (id in results ==> Waiting(results, id))
    requires forall id :: id in pending ==> pending[id] in steps && pending[id].id == id
    ensures |pending| == 0 ==> forall id :: id in Ids(steps) ==> IsDone(results, id)
    ensures Acyclic(PendingGraph(pending))
    ensures forall id :: id in results && id !in pending ==> IsDone(results, id)
    ensures forall id :: id in pending ==> Waiting(results, id)
  {
    hide Sound;
    PendingAcyclic(steps, pending);
  }

  lemma PassPlanned(steps: seq<StepDef>, results: Results, pending: map<Id, StepDef>, batches: seq<seq<Id>>)
    requires Settled(steps, results)
    requires forall id :: id in pending ==> pending[id] in steps && pending[id].id == id
    requires forall id :: id in results && id !in pending ==> IsDone(results, id)
    requires forall id :: id in pending ==> Waiting(results, id)
    requires Layers(PendingGraph(pending), batches) && forall u :: u in pending ==> Scheduled(batches, u)
    ensures Plan(steps, pending, batches) && Progress(results, pending, batches, 0)
  {
    hide Sound, Listed, LongestPath;
    PendingClosed(pending);
    forall j, id | 0 <= j < |batches| && id in batches[j] ensures Waiting(results, id) {
      assert id in PendingGraph(pending);
    }
  }

  lemma Finished(steps: seq<StepDef>, results: Results, pending: map<Id, StepDef>, batches: seq<seq<Id>>)
    requires Settled(steps, results) && Plan(steps, pending, batches) && Progress(results, pending, batches, |batches|)
    ensures forall id :: id in Ids(steps) ==> IsDone(results, id)
  {
    hide Sound, Layers;
    forall id | id in Ids(steps) ensures IsDone(results, id) {
      if id in pending {
        assert Scheduled(batches, id);
        var k :| 0 <= k < |batches| && id in batches[k];
      }
    }
  }

  /** The first gate of the batch that is done. */
  method FindGate(steps: seq<StepDef>, pending: map<Id, StepDef>, results: Results, batch: seq<Id>) returns (gate: Option<Id>)
    requires Sound(steps) && forall id :: id in pending ==> pending[id] in steps && pending[id].id == id
    requires forall id :: id in batch ==> id in pending
    ensures gate.Some? ==> gate.value in batch && IsDone(results, gate.value) && FindStep(steps, gate.value).gate
    ensures gate.Some? ==> gate.value in GatesDone(steps, results, batch)
    ensures gate == None ==> GatesDone(steps, results, batch) == {}
  {
    hide Sound;
    forall id | id in pending ensures FindStep(steps, id) == pending[id] { SoundStep(steps, pending[id]); }
    for n := 0 to |batch|
      invariant GatesDone(steps, results, batch[..n]) == {}
    {
      assert batch[..n + 1] == batch[..n] + [batch[n]];
      assert forall id :: id in GatesDone(steps, results, batch[..n + 1]) ==>
          id in GatesDone(steps, results, batch[..n]) || id == batch[n];
      if pending[batch[n]].gate && IsDone(results, batch[n]) {
        return Some(batch[n]);
      }
    }
    assert batch[..|batch|] == batch;
    gate := None;
  }

  /** What holds between two batches of a pass. */
  ghost predicate PassInv(cfg: Config, state: PlanState, pending: map<Id, StepDef>, batches: seq<seq<Id>>, k: nat,
                          run0: seq<Snapshot>, usage0: Usage, usage: Usage)
    reads state`run, state`steps, state`results
  {
    && state.Valid(cfg.agents) && Continues(run0, state.run, false) && state.Held() == {}
    && Limited(ConcurrencyLimit(cfg), run0, state.run)
    && Settled(state.steps, state.results) && Plan(state.steps, pending, batches)
    && Progress(state.results, pending, batches, k)
    && AddUsage(Spent(state.run), usage0) == AddUsage(Spent(run0), usage)
  }

  /** A pass that neither pauses nor is cancelled ends with everything done, or with a failed step, or with a
      step whose agent does not exist. */
  ghost predicate PassOver(agents: set<string>, steps: seq<StepDef>, results: Results) {
    || (forall id :: id in Ids(steps) ==> IsDone(results, id))
    || (exists id :: id in Ids(steps) && Troubled(agents, steps, results, id))
  }

  /** The step has failed, or cannot run. */
  predicate Troubled(agents: set<string>, steps: seq<StepDef>, results: Results, id: Id) {
    HasStatus(results, id, Failed) || !Known(agents, steps, id)
  }

  lemma NothingPending(agents: set<string>, steps: seq<StepDef>, results: Results, run: seq<Snapshot>)
    requires forall id :: id in Ids(steps) ==> IsDone(results, id)
    ensures PassOver(agents, steps, results) && Continues(run, run, false) && forall limit: nat :: Limited(limit, run, run)
  {
  }

  lemma OverWhenDone(agents: set<string>, steps: seq<StepDef>, results: Results)
    requires forall id :: id in Ids(steps) ==> IsDone(results, id)
    ensures PassOver(agents, steps, results)
  {
  }

  lemma PassBegins(cfg: Config, state: PlanState, pending: map<Id, StepDef>, batches: seq<seq<Id>>, usage: Usage)
    requires state.Valid(cfg.agents) && state.Held() == {} && Settled(state.steps, state.results)
    requires Plan(state.steps, pending, batches) && Progress(state.results, pending, batches, 0)
    ensures PassInv(cfg, state, pending, batches, 0, state.run, usage, usage)
  {
    hide Settled, Plan, Progress, IsRun, Spent, RunningIds;
  }

  lemma PassStops(cfg: Config, state: PlanState, pending: map<Id, StepDef>, batches: seq<seq<Id>>, k: nat,
                  run0: seq<Snapshot>, usage0: Usage, usage: Usage)
    requires PassInv(cfg, state, pending, batches, k, run0, usage0, usage)
    ensures state.Valid(cfg.agents) && Continues(run0, state.run, false) && Settled(state.steps, state.results)
    ensures Limited(ConcurrencyLimit(cfg), run0, state.run) && Quiet(state.results)
    ensures Plan(state.steps, pending, batches) && Progress(state.results, pending, batches, k)
    ensures state.Held() == {} && AddUsage(Spent(state.run), usage0) == AddUsage(Spent(run0), usage)
  {
    SettledQuiet(state.steps, state.results);
    hide Settled, Plan, Progress, IsRun, Spent, Continues, Limited, Quiet;
  }

  lemma SettledQuiet(steps: seq<StepDef>, results: Results)
    requires Settled(steps, results)
    ensures Quiet(results)
  {
    hide Sound;
  }

  /** Runs one layer of a pass and looks for a finished gate. */
  method RunLayer(cfg: Config, state: PlanState, pending: map<Id, StepDef>, batches: seq<seq<Id>>, k: nat,
                  ghost run0: seq<Snapshot>, ghost usage0: Usage, r0: PassResult) returns (r: PassResult)
    requires k < |batches| && !r0.err && !r0.failed && r0.gate == None
    requires PassInv(cfg, state, pending, batches, k, run0, usage0, r0.usage)
    modifies state`results, state`run
    ensures state.Valid(cfg.agents) && Continues(run0, state.run, false) && Settled(state.steps, state.results)
    ensures Limited(ConcurrencyLimit(cfg), run0, state.run)
    ensures !r.err ==> AddUsage(Spent(state.run), usage0) == AddUsage(Spent(run0), r.usage)
    ensures r.err ==> r.ctxDone && r.gate == None
    ensures r.failed ==> PassOver(cfg.agents, state.steps, state.results) && r.gate == None
    ensures r.failed ==> exists id :: id in Ids(state.steps) && Troubled(cfg.agents, state.steps, state.results, id)
    ensures r.gate.Some? ==> IsDone(state.results, r.gate.value) && FindStep(state.steps, r.gate.value).gate
    ensures r.gate.Some? ==> r.gate.value in state.Held()
    ensures !r.err && !r.failed ==> (r.gate == None <==> state.Held() == {})
    ensures !r.err && !r.failed && r.gate == None ==>
              PassInv(cfg, state, pending, batches, k + 1, run0, usage0, r.usage)
  {
    hide *;
    ghost var results, run1 := state.results, state.run;
    PassStops(cfg, state, pending, batches, k, run0, usage0, r0.usage);
    LayerRunnable(state.steps, pending, batches, k, results);
    var usage, failed, err, ctxDone := RunBatch(cfg, batches[k], state, r0.ctxDone);
    ContinuesTransitive(run0, run1, state.run, false);
    LimitedTransitive(ConcurrencyLimit(cfg), run0, run1, state.run);
    LayerSettled(state.steps, results, state.results, batches[k]);
    UsageAdds(run0, run1, state.run, usage0, r0.usage, usage);
    r := PassResult(AddUsage(r0.usage, usage), None, failed, err, ctxDone);
    if err {
      r := r.(failed := false);
      return;
    }
    if failed {
      LayerFailed(cfg.agents, state.steps, state.results, batches[k]);
      return;
    }
    PlanParts(state.steps, pending, batches);
    var gate := FindGate(state.steps, pending, state.results, batches[k]);
    r := r.(gate := gate);
    if gate == None {
      LayerDone(cfg, state, pending, batches, k, results, run0, usage0, r.usage);
    }
  }

  lemma PlanParts(steps: seq<StepDef>, pending: map<Id, StepDef>, batches: seq<seq<Id>>)
    requires Plan(steps, pending, batches)
    ensures Sound(steps) && forall id :: id in pending ==> pending[id] in steps && pending[id].id == id
  {
  }

  lemma LayerRunnable(steps: seq<StepDef>, pending: map<Id, StepDef>, batches: seq<seq<Id>>, k: nat, results: Results)
    requires Settled(steps, results) && k < |batches| && Plan(steps, pending, batches)
    requires Progress(results, pending, batches, k)
    ensures Runnable(steps, results, batches[k])
    ensures forall id :: id in batches[k] ==> id in pending && id in results
  {
    hide Sound, Layers, Scheduled, PendingGraph;
    BatchRunnable(steps, pending, batches, k, results);
  }

  lemma LayerSettled(steps: seq<StepDef>, before: Results, after: Results, batch: seq<Id>)
    requires Settled(steps, before) && after.Keys == before.Keys
    requires forall id :: id in after && id !in batch ==> after[id] == before[id]
    requires forall id :: id in batch ==> IsDone(after, id) || Waiting(after, id)
    ensures Settled(steps, after)
  {
    hide Sound;
    forall id | id in after ensures IsDone(after, id) || Waiting(after, id) {
      assert IsDone(before, id) || Waiting(before, id);
    }
  }

  lemma UsageAdds(run0: seq<Snapshot>, run1: seq<Snapshot>, run2: seq<Snapshot>, usage0: Usage, usage1: Usage, usage: Usage)
    requires AddUsage(Spent(run1), usage0) == AddUsage(Spent(run0), usage1)
    requires Spent(run2) == AddUsage(Spent(run1), usage)
    ensures AddUsage(Spent(run2), usage0) == AddUsage(Spent(run0), AddUsage(usage1, usage))
  {
    hide Spent;
  }

  lemma LayerFailed(agents: set<string>, steps: seq<StepDef>, results: Results, batch: seq<Id>)
    requires forall id :: id in batch ==> id in results
    requires Settled(steps, results)
    requires exists id :: id in batch && (HasStatus(results, id, Failed) || !Known(agents, steps, id))
    ensures PassOver(agents, steps, results)
    ensures exists id :: id in Ids(steps) && Troubled(agents, steps, results, id)
  {
    hide Sound, Known;
    var id :| id in batch && (HasStatus(results, id, Failed) || !Known(agents, steps, id));
    assert id in Ids(steps) && Troubled(agents, steps, results, id);
  }

  lemma LayerDone(cfg: Config, state: PlanState, pending: map<Id, StepDef>, batches: seq<seq<Id>>, k: nat, before: Results,
                  run0: seq<Snapshot>, usage0: Usage, usage: Usage)
    requires state.Valid(cfg.agents) && Continues(run0, state.run, false) && Settled(state.steps, state.results)
    requires Limited(ConcurrencyLimit(cfg), run0, state.run)
    requires k < |batches| && Plan(state.steps, pending, batches) && Progress(before, pending, batches, k)
    requires state.results.Keys == before.Keys
    requires forall id :: id in state.results && id !in batches[k] ==> state.results[id] == before[id]
    requires forall id :: id in batches[k] ==> IsDone(state.results, id)
    requires state.Held() == GatesDone(state.steps, state.results, batches[k]) == {}
    requires AddUsage(Spent(state.run), usage0) == AddUsage(Spent(run0), usage)
    ensures PassInv(cfg, state, pending, batches, k + 1, run0, usage0, usage)
  {
    hide Settled, IsRun, Spent, Continues, GatesDone, Sound, Layers, Scheduled, PendingGraph, Progress, Limited;
    ProgressStep(state.steps, pending, batches, k, before, state.results);
  }

  /** One pass: runs the layers in turn until one fails, one contains a gate, or all are done. */
  method ExecuteBatches(cfg: Config, state: PlanState, totalUsage: Usage, ctxDone0: bool) returns (r: PassResult)
    requires state.Valid(cfg.agents) && state.Held() == {} && Settled(state.steps, state.results)
    modifies state`results, state`run
    ensures state.Valid(cfg.agents) && Continues(old(state.run), state.run, false)
    ensures Limited(ConcurrencyLimit(cfg), old(state.run), state.run)
    ensures Settled(state.steps, state.results)
    ensures !r.err ==> AddUsage(Spent(state.run), totalUsage) == AddUsage(Spent(old(state.run)), r.usage)
    ensures r.err ==> r.ctxDone && r.gate == None
    // once the context is done nothing more is started
    ensures ctxDone0 ==> r.ctxDone && state.run == old(state.run)
    ensures r.gate.Some? ==> IsDone(state.results, r.gate.value) && FindStep(state.steps, r.gate.value).gate
    // a pass without failure stops for a gate exactly if one has finished
    ensures r.gate.Some? ==> r.gate.value in state.Held()
    ensures !r.err && !r.failed ==> (r.gate == None <==> state.Held() == {})
    ensures r.failed ==> exists id :: id in Ids(state.steps) && Troubled(cfg.agents, state.steps, state.results, id)
    ensures !r.err && r.gate == None ==> PassOver(cfg.agents, state.steps, state.results)
  {
    hide *;
    ghost var run0 := state.run;
    SettledUnique(state.steps, state.results);
    var pending := CollectPending(state.steps, state.results);
    PassStart(state.steps, state.results, pending);
    r := PassResult(totalUsage, None, false, false, ctxDone0);
    if |pending| == 0 {
      NothingPending(cfg.agents, state.steps, state.results, run0);
      return;
    }
    var batches := TopoSortPending(pending);
    PassPlanned(state.steps, state.results, pending, batches);
    PassBegins(cfg, state, pending, batches, totalUsage);
    for k := 0 to |batches|
      invariant PassInv(cfg, state, pending, batches, k, run0, totalUsage, r.usage)
      invariant !r.err && !r.failed && r.gate == None
      invariant ctxDone0 ==> r.ctxDone && state.run == run0
    {
      var cancelNow: bool := *;
      r := r.(ctxDone := r.ctxDone || cancelNow);
      if r.ctxDone {
        PassStops(cfg, state, pending, batches, k, run0, totalUsage, r.usage);
        r := r.(err := true);
        return;
      }
      r := RunLayer(cfg, state, pending, batches, k, run0, totalUsage, r);
      if r.err || r.gate.Some? || r.failed {
        return;
      }
    }
    PassStops(cfg, state, pending, batches, |batches|, run0, totalUsage, r.usage);
    Finished(state.steps, state.results, pending, batches);
    OverWhenDone(cfg.agents, state.steps, state.results);
  }

  // ----- the replan loop -----

  predicate FirstFailed(steps: seq<StepDef>, results: Results, n: nat) {
    && n < |steps| && HasStatus(results, steps[n].id, Failed)
    && forall m :: 0 <= m < n ==> !HasStatus(results, steps[m].id, Failed)
  }

  ghost predicate IsFirstFailed(steps: seq<StepDef>, results: Results, id: Id) {
    exists n: nat :: FirstFailed(steps, results, n) && steps[n].id == id
  }

  /** The first failed step in plan order. */
  method FindFailed(steps: seq<StepDef>, results: Results) returns (failedID: Option<Id>)
    ensures failedID.Some? ==> IsFirstFailed(steps, results, failedID.value)
    ensures failedID.Some? ==> HasStatus(results, failedID.value, Failed)
    ensures failedID == None ==> forall id :: id in Ids(steps) ==> !HasStatus(results, id, Failed)
  {
    for n := 0 to |steps|
      invariant forall m :: 0 <= m < n ==> !HasStatus(results, steps[m].id, Failed)
    {
      if steps[n].id in results && results[steps[n].id].status == Failed {
        assert FirstFailed(steps, results, n);
        return Some(steps[n].id);
      }
    }
    failedID := None;
  }

  lemma ValidForAnyAgents(steps: seq<StepDef>, agents: set<string>)
    requires ValidPlan(steps, agents)
    ensures Sound(steps)
  {
    hide Acyclic, GraphOf;
    forall s | s in steps ensures WellFormedStep(s, Ids(steps), {}) {
      assert WellFormedStep(s, Ids(steps), agents);
    }
  }

  predicate Steady(results: Results) {
    forall id :: id in results ==> IsDone(results, id) || Waiting(results, id)
  }

  /** A plan can be executed from here: no step runs, and no gate is waiting for the caller. */
  ghost predicate Resumable(state: PlanState)
    reads state`run, state`steps, state`results
  {
    state.Held() == {} && Steady(state.results)
  }

  /** Asks the planner for a replacement of the failed step and all that depends on it, and merges it if the
      merged plan is valid. */
  method ReplanAfterFailure(cfg: Config, state: PlanState, failedID: Id) returns (ok: bool, ghost planned: seq<StepDef>)
    requires state.Valid(cfg.agents) && Steady(state.results) && HasStatus(state.results, failedID, Failed)
    modifies state`steps, state`results, state`run
    ensures state.Valid(cfg.agents) && Continues(old(state.run), state.run, true)
    ensures Limited(ConcurrencyLimit(cfg), old(state.run), state.run)
    ensures ok ==> Resumable(state)
    // it succeeds exactly if the planner answers with steps that are valid together with the survivors
    ensures exists affected :: IsAffected(old(state.steps), failedID, affected) &&
              (ok <==> planned != [] && ValidPlan(Survivors(old(state.steps), affected) + planned, cfg.agents))
    // success puts the survivors and a non-empty replacement in place, validated together
    ensures ok ==> PlanReplaced(true, old(state.steps), old(state.results), old(state.run), state.steps, state.results, state.run)
    ensures ok ==> state.run[|state.run| - 1].event.failedID == failedID && state.run[|state.run| - 1].event.newSteps == planned
    ensures ok ==> ValidPlan(state.steps, cfg.agents) && Replans(state.run) == Replans(old(state.run)) + 1
    ensures Spent(state.run) == Spent(old(state.run))
    ensures !ok ==> state.steps == old(state.steps) && state.results == old(state.results) && state.run == old(state.run)
  {
    hide IsRun, Spent, Sound, IsAffected, Survivors, ValidPlan, Structural;
    SteadyQuiet(state.results);
    SameLimited(ConcurrencyLimit(cfg), state.run);
    var affected := AffectedSteps(state.steps, failedID);
    var newSteps: seq<StepDef> := *;
    planned := newSteps;
    if newSteps == [] {
      return false, planned;
    }
    var merged := MergeSteps(state.steps, affected, newSteps);
    var goal: string := *;
    var errs := Validate(PlanDef(goal, merged), cfg.agents);
    if errs != [] {
      return false, planned;
    }
    ValidForAnyAgents(merged, cfg.agents);
    state.ReplacePlan(cfg.agents, true, failedID, affected, newSteps, merged);
    FewerQuiet(old(state.results), state.results, affected);
    QuietLimited(ConcurrencyLimit(cfg), old(state.run), state.run);
    LastSpent(old(state.run), state.run);
    ZeroUsage(Spent(old(state.run)));
    ReplansSnoc(old(state.run), state.run[|state.run| - 1]);
    ok := true;
  }

  lemma SteadyQuiet(results: Results)
    requires Steady(results)
    ensures Quiet(results)
  {
  }

  lemma FewerQuiet(before: Results, after: Results, affected: set<Id>)
    requires Quiet(before) && after == before - affected
    ensures Quiet(after)
  {
  }

  lemma SameLimited(limit: nat, run: seq<Snapshot>)
    ensures Limited(limit, run, run)
  {
  }

  lemma ZeroUsage(u: Usage)
    ensures AddUsage(u, NO_USAGE) == u && AddUsage(NO_USAGE, u) == u
  {
  }

  /** Every step of the state's plan is done. */
  predicate EveryStepDone(steps: seq<StepDef>, results: Results) {
    forall id :: id in Ids(steps) ==> IsDone(results, id)
  }

  /** The state in which Execute may give up or pause. */
  ghost predicate CanStop(cfg: Config, state: PlanState, run0: seq<Snapshot>)
    reads state`run, state`steps, state`results
  {
    && state.Valid(cfg.agents) && Continues(run0, state.run, cfg.autoReplan) && Steady(state.results)
    && Limited(ConcurrencyLimit(cfg), run0, state.run)
  }

  /** What holds between two passes. */
  ghost predicate LoopInv(cfg: Config, state: PlanState, run0: seq<Snapshot>, usage: Usage)
    reads state`run, state`steps, state`results
  {
    CanStop(cfg, state, run0) && state.Held() == {} && Spent(state.run) == AddUsage(Spent(run0), usage)
  }

  lemma StartLoop(cfg: Config, state: PlanState)
    requires state.Valid(cfg.agents) && Resumable(state)
    ensures LoopInv(cfg, state, state.run, NO_USAGE)
    ensures Spent(state.run) == SumUsage(state.steps, state.results)
  {
    hide IsRun, Spent, SumUsage, Limited;
    SameLimited(ConcurrencyLimit(cfg), state.run);
    ZeroUsage(Spent(state.run));
    CurrentSum(cfg.agents, state);
  }

  lemma LoopStops(cfg: Config, state: PlanState, run0: seq<Snapshot>, usage: Usage)
    requires LoopInv(cfg, state, run0, usage)
    ensures CanStop(cfg, state, run0)
  {
  }

  lemma CurrentSum(agents: set<string>, state: PlanState)
    requires state.Valid(agents)
    ensures Spent(state.run) == SumUsage(state.steps, state.results)
  {
    hide Spent, SumUsage, Next, Sound;
    SpentIsHeld(agents, state.run, |state.run| - 1);
    assert state.run[..|state.run|] == state.run;
  }

  lemma PassBound(passes: nat, limit: int, count: int)
    requires passes > 0 && (passes > 1 ==> count + (passes - 1) <= limit)
    ensures passes <= Max(0, limit - count) + 1
  {
  }

  /** Gives new steps a pending result and makes one pass over the layers. */
  method RunPass(cfg: Config, state: PlanState, totalUsage: Usage, ctxDone: bool, ghost run0: seq<Snapshot>)
    returns (pass: PassResult)
    requires LoopInv(cfg, state, run0, totalUsage)
    modifies state`results, state`run
    ensures CanStop(cfg, state, run0) && (pass.err ==> pass.ctxDone)
    ensures !pass.err ==> Spent(state.run) == AddUsage(Spent(run0), pass.usage)
    ensures pass.gate.Some? ==> IsDone(state.results, pass.gate.value) && FindStep(state.steps, pass.gate.value).gate
    ensures Replans(state.run) == Replans(old(state.run))
    ensures pass.gate.Some? ==> pass.gate.value in state.Held()
    ensures !pass.err && !pass.failed ==> (pass.gate == None <==> state.Held() == {})
    ensures pass.failed ==> exists id :: id in Ids(state.steps) && Troubled(cfg.agents, state.steps, state.results, id)
    ensures !pass.err && pass.gate == None ==> PassOver(cfg.agents, state.steps, state.results)
  {
    hide IsRun, Spent, Sound, PassOver, FindStep, Next, Continues, Inv, Replans, Troubled, Limited, Quiet, ConcurrencyLimit;
    LastIsSafe(cfg.agents, state.run);
    state.Prepare(cfg.agents);
    ghost var run1 := state.run;
    PreparedSettled(cfg.agents, old(state.run), state.steps, old(state.results), state.results, run1);
    SettledQuiet(state.steps, state.results);
    QuietLimited(ConcurrencyLimit(cfg), old(state.run), run1);
    pass := ExecuteBatches(cfg, state, totalUsage, ctxDone);
    ContinuesTransitive(old(state.run), run1, state.run, false);
    ContinuesKeepsPlan(old(state.run), state.run);
    PassContinues(run0, old(state.run), run1, state.run, cfg.autoReplan);
    LimitedTransitive(ConcurrencyLimit(cfg), old(state.run), run1, state.run);
    LimitedTransitive(ConcurrencyLimit(cfg), run0, old(state.run), state.run);
    PassUsage(run0, old(state.run), run1, state.run, totalUsage, pass);
  }

  lemma PreparedSettled(agents: set<string>, run: seq<Snapshot>, steps: seq<StepDef>, before: Results, after: Results,
                        run1: seq<Snapshot>)
    requires |run| > 0 && Inv(agents, run[|run| - 1]) && run[|run| - 1].steps == steps && run[|run| - 1].results == before
    requires Steady(before) && after.Keys == before.Keys + Ids(steps)
    requires forall id :: id in after ==> after[id] == if id in before then before[id] else FRESH
    requires exists t: Snapshot :: t.event == Prepared && run1 == run + [t]
    ensures Settled(steps, after)
    ensures Continues(run, run1, false) && Spent(run1) == Spent(run)
  {
    hide Sound, Spent, DependencySafe, CleanResults;
    LastSpent(run, run1);
    ZeroUsage(Spent(run));
    forall id | id in after ensures IsDone(after, id) || Waiting(after, id) {
      assert id in before ==> IsDone(before, id) || Waiting(before, id);
    }
  }

  lemma PassContinues(a: seq<Snapshot>, b: seq<Snapshot>, c: seq<Snapshot>, d: seq<Snapshot>, auto: bool)
    requires Continues(a, b, auto) && Continues(b, c, false) && Continues(c, d, false)
    ensures Continues(a, d, auto)
  {
    ContinuesTransitive(b, c, d, false);
    assert Continues(b, d, auto);
    ContinuesTransitive(a, b, d, auto);
  }

  lemma PassUsage(run0: seq<Snapshot>, before: seq<Snapshot>, run1: seq<Snapshot>, after: seq<Snapshot>, total: Usage,
                  pass: PassResult)
    requires Spent(before) == AddUsage(Spent(run0), total) && Spent(run1) == Spent(before)
    requires !pass.err ==> AddUsage(Spent(after), total) == AddUsage(Spent(run1), pass.usage)
    ensures !pass.err ==> Spent(after) == AddUsage(Spent(run0), pass.usage)
  {
    hide Spent;
  }

  ghost method HandBackAfter(cfg: Config, state: PlanState, run0: seq<Snapshot>)
    requires CanStop(cfg, state, run0)
    modifies state`run
    ensures state.Valid(cfg.agents) && Resumable(state) && HandsBack(run0, state.run, cfg.autoReplan)
    ensures Limited(ConcurrencyLimit(cfg), run0, state.run)
    ensures |state.run| >= 2 && state.run[|state.run| - 2].held == old(state.Held())
    ensures |state.run| == |old(state.run)| + 1
    ensures Replans(state.run) == Replans(old(state.run))
  {
    hide IsRun, Replans, Limited, Quiet, ConcurrencyLimit;
    SteadyQuiet(state.results);
    LastIsSafe(cfg.agents, state.run);
    state.HandBack(cfg.agents);
    assert state.run[..|state.run| - 1] == old(state.run);
    QuietLimited(ConcurrencyLimit(cfg), old(state.run), state.run);
    LimitedTransitive(ConcurrencyLimit(cfg), run0, old(state.run), state.run);
    ReplansSnoc(old(state.run), state.run[|state.run| - 1]);
  }

  /** The planner's answer for the first failed step is empty or makes no valid plan with the survivors. */
  ghost predicate NoValidPlan(agents: set<string>, steps: seq<StepDef>, results: Results, planned: seq<StepDef>) {
    exists failedID, affected ::
      IsFirstFailed(steps, results, failedID) && IsAffected(steps, failedID, affected) &&
      !(planned != [] && ValidPlan(Survivors(steps, affected) + planned, agents))
  }

  /** Replans after a failure; a success leads back to the loop. */
  method ReplanStep(cfg: Config, state: PlanState, failedID: Id, ghost run0: seq<Snapshot>, ghost usage: Usage)
    returns (ok: bool, ghost planned: seq<StepDef>)
    requires CanStop(cfg, state, run0) && cfg.autoReplan && HasStatus(state.results, failedID, Failed)
    requires IsFirstFailed(state.steps, state.results, failedID)
    requires Spent(state.run) == AddUsage(Spent(run0), usage)
    modifies state`steps, state`results, state`run
    ensures CanStop(cfg, state, run0)
    ensures ok ==> LoopInv(cfg, state, run0, usage) && Replans(state.run) == Replans(old(state.run)) + 1
    ensures !ok ==> state.run == old(state.run) && state.steps == old(state.steps) && state.results == old(state.results)
    ensures !ok ==> NoValidPlan(cfg.agents, state.steps, state.results, planned)
  {
    hide IsRun, Spent, Continues, PlanReplaced, ValidPlan, Replans, Limited, IsAffected, Survivors, IsFirstFailed;
    ghost var run1 := state.run;
    ok, planned := ReplanAfterFailure(cfg, state, failedID);
    LimitedTransitive(ConcurrencyLimit(cfg), run0, run1, state.run);
    ContinuesTransitive(run0, run1, state.run, true);
  }

  /** With nothing failed after a full pass, everything is done exactly if every agent exists. */
  lemma CompletedIffKnown(cfg: Config, state: PlanState, run0: seq<Snapshot>)
    requires CanStop(cfg, state, run0) && PassOver(cfg.agents, state.steps, state.results)
    requires forall id :: id in Ids(state.steps) ==> !HasStatus(state.results, id, Failed)
    ensures EveryStepDone(state.steps, state.results) <==> AgentsKnown(state.steps, cfg.agents)
    ensures Spent(state.run) == SumUsage(state.steps, state.results)
  {
    hide IsRun, Spent, SumUsage, Sound, DependencySafe, Continues;
    CurrentSum(cfg.agents, state);
    LastIsSafe(cfg.agents, state.run);
    forall s | s in state.steps ensures s.id in Ids(state.steps) && FindStep(state.steps, s.id) == s {
      SoundStep(state.steps, s);
    }
    if EveryStepDone(state.steps, state.results) {
      forall s | s in state.steps ensures s.agent in cfg.agents {
        assert IsDone(state.results, s.id);
      }
    }
    if AgentsKnown(state.steps, cfg.agents) {
      forall id | id in Ids(state.steps) ensures Known(cfg.agents, state.steps, id) {
        var s :| s in state.steps && s.id == id;
      }
    }
  }

  lemma NoTrouble(cfg: Config, state: PlanState, run0: seq<Snapshot>)
    requires CanStop(cfg, state, run0) && AgentsKnown(state.steps, cfg.agents)
    requires forall id :: id in Ids(state.steps) ==> !HasStatus(state.results, id, Failed)
    ensures forall id :: id in Ids(state.steps) ==> !Troubled(cfg.agents, state.steps, state.results, id)
  {
    hide IsRun, Continues, Sound;
    LastIsSafe(cfg.agents, state.run);
    forall id | id in Ids(state.steps) ensures Known(cfg.agents, state.steps, id) {
      var s :| s in state.steps && s.id == id;
      SoundStep(state.steps, s);
    }
  }

  lemma LimitsAre(cfg: Config)
    ensures ReplanLimit(cfg) == if cfg.maxReplans <= 0 then 3 else cfg.maxReplans
    ensures ConcurrencyLimit(cfg) == if cfg.maxConcurrency <= 0 then 8 else cfg.maxConcurrency
  {
    Limits(cfg, NO_STEP);
  }

  /** The count only goes beyond the limit, or beyond where it was, by the replacement that is refused. */
  lemma CountExceeds(passes: nat, limit: int, before: int, count: int)
    requires passes > 0 && count == before + passes && count > limit && (passes > 1 ==> count - 1 <= limit)
    ensures count == Max(before, limit) + 1
  {
  }

  /** What follows a pass after which a step has failed: a pause, a replacement of the plan, or the end. */
  method AfterFailure(cfg: Config, state: PlanState, failedID: Id, maxReplans: int, ghost run0: seq<Snapshot>, ghost usage: Usage)
    returns (end: Option<ExecResult>, ghost planned: seq<StepDef>)
    requires CanStop(cfg, state, run0) && HasStatus(state.results, failedID, Failed) && state.status == InProgress
    requires IsFirstFailed(state.steps, state.results, failedID) && Spent(state.run) == AddUsage(Spent(run0), usage)
    modifies state
    ensures state.replanCount == old(state.replanCount) + if cfg.autoReplan then 1 else 0
    ensures end == None ==>
              && LoopInv(cfg, state, run0, usage) && Replans(state.run) == Replans(old(state.run)) + 1
              && state.status == InProgress && cfg.autoReplan && state.replanCount <= maxReplans
    ensures end.Some? ==>
              && state.Valid(cfg.agents) && Resumable(state) && HandsBack(run0, state.run, cfg.autoReplan)
              && Limited(ConcurrencyLimit(cfg), run0, state.run) && |state.run| >= 2
              && Replans(state.run) == Replans(old(state.run))
              && state.steps == old(state.steps) && state.results == old(state.results)
    ensures end.Some? ==>
              || (end.value == FailurePause(failedID) && !cfg.autoReplan && state.status == InProgress)
              || (end.value == ReplansExceeded && cfg.autoReplan && state.replanCount > maxReplans && state.status == Broken)
              || (end.value == ReplanFailed && cfg.autoReplan && state.replanCount <= maxReplans && state.status == Broken
                    && NoValidPlan(cfg.agents, state.steps, state.results, planned))
  {
    hide *;
    planned := [];
    if !cfg.autoReplan {
      HandBackAfter(cfg, state, run0);
      return Some(FailurePause(failedID)), planned;
    }
    state.replanCount := state.replanCount + 1;
    if state.replanCount > maxReplans {
      state.status := Broken;
      HandBackAfter(cfg, state, run0);
      return Some(ReplansExceeded), planned;
    }
    var ok;
    ok, planned := ReplanStep(cfg, state, failedID, run0, usage);
    if !ok {
      state.status := Broken;
      HandBackAfter(cfg, state, run0);
      return Some(ReplanFailed), planned;
    }
    end := None;
  }

  /** Runs the plan until it is done, paused, cancelled or failed. */
  method Execute(cfg: Config, state: PlanState, ctxDone0: bool)
    returns (r: ExecResult, ghost passes: nat, ghost cancelled: bool, ghost planned: seq<StepDef>)
    requires state.Valid(cfg.agents) && Resumable(state)
    modifies state
    // the run goes on lawfully; control goes back to the caller at its end and nowhere before
    ensures state.Valid(cfg.agents) && Resumable(state) && HandsBack(old(state.run), state.run, cfg.autoReplan)
    // never do more steps run at a time than are allowed
    ensures Limited(if cfg.maxConcurrency <= 0 then 8 else cfg.maxConcurrency, old(state.run), state.run)
    // a gate pause is for a gate finished in this call, and completion overlooks none if the agents exist
    ensures |state.run| >= 2
    ensures r.GatePause? ==> r.gateID in state.run[|state.run| - 2].held
    ensures r.PlanCompleted? && AgentsKnown(state.steps, cfg.agents) ==> state.run[|state.run| - 2].held == {}
    // every further pass follows exactly one replacement of the plan
    ensures passes == 1 + Replans(state.run) - Replans(old(state.run))
    // every replacement allowed is asked for: execution gives up only beyond the limit, or when the answer is no valid plan
    ensures r == ReplansExceeded ==>
              cfg.autoReplan && state.replanCount == Max(old(state.replanCount), if cfg.maxReplans <= 0 then 3 else cfg.maxReplans) + 1
    ensures r == ReplanFailed ==> cfg.autoReplan && NoValidPlan(cfg.agents, state.steps, state.results, planned)
    ensures r == ContextCancelled ==> cancelled
    // a context that is done already ends the call at once
    ensures ctxDone0 ==> r == ContextCancelled && |state.run| == |old(state.run)| + 1 && state.results == old(state.results)
    // status and result agree
    ensures state.status == Completed <==> r.PlanCompleted?
    ensures r == ReplansExceeded || r == ReplanFailed ==> state.status == Broken
    ensures r == ContextCancelled ==> state.status == Cancelled || state.status == Broken
    ensures r.GatePause? || r.FailurePause? ==> state.status == InProgress
    ensures r.PlanCompleted? ==> r.replanCount == state.replanCount
    ensures r.GatePause? ==> IsDone(state.results, r.gateID) && FindStep(state.steps, r.gateID).gate
    ensures r.FailurePause? ==> !cfg.autoReplan && HasStatus(state.results, r.failedID, Failed)
    ensures r.FailurePause? ==> IsFirstFailed(state.steps, state.results, r.failedID)
    ensures !cfg.autoReplan ==> state.steps == old(state.steps) && state.replanCount == old(state.replanCount)
    // completion: done means every step is done, provided the agents exist
    ensures r.PlanCompleted? ==> (EveryStepDone(state.steps, state.results) <==> AgentsKnown(state.steps, cfg.agents))
    // conservation: the reported usage is what the results have gained
    ensures r.PlanCompleted? ==>
              SumUsage(state.steps, state.results) == AddUsage(SumUsage(old(state.steps), old(state.results)), r.usage)
    // termination: the number of passes is bounded by the replans that remain
    ensures passes <= Max(0, (if cfg.maxReplans <= 0 then 3 else cfg.maxReplans) - old(state.replanCount)) + 1
  {
    hide *;
    state.status := InProgress;
    var maxReplans := ReplanLimit(cfg);
    var totalUsage := NO_USAGE;
    var ctxDone := ctxDone0;
    ghost var run0 := state.run;
    passes, cancelled, planned := 0, ctxDone0, [];
    LimitsAre(cfg);
    StartLoop(cfg, state);
    while true
      invariant LoopInv(cfg, state, run0, totalUsage)
      invariant state.status == InProgress
      invariant state.replanCount == old(state.replanCount) + passes
      invariant Replans(state.run) == Replans(run0) + passes
      invariant passes > 0 ==> cfg.autoReplan && state.replanCount <= maxReplans
      invariant passes == 0 ==> state.steps == old(state.steps)
      invariant ctxDone0 ==> ctxDone && passes == 0 && state.run == run0 && state.results == old(state.results)
      decreases maxReplans - state.replanCount
    {
      passes := passes + 1;
      PassBound(passes, maxReplans, old(state.replanCount));
      LoopStops(cfg, state, run0, totalUsage);
      var cancelNow: bool := *;
      ctxDone := ctxDone || cancelNow;
      cancelled := ctxDone;
      if ctxDone {
        state.status := Cancelled;
        HandBackAfter(cfg, state, run0);
        r := ContextCancelled;
        return;
      }
      var pass := RunPass(cfg, state, totalUsage, ctxDone, run0);
      ctxDone := pass.ctxDone;
      cancelled := ctxDone;
      if pass.err {
        state.status := Broken;
        r := ContextCancelled;
        HandBackAfter(cfg, state, run0);
        return;
      }
      totalUsage := pass.usage;
      if pass.gate.Some? {
        r := GatePause(pass.gate.value, totalUsage);
        HandBackAfter(cfg, state, run0);
        return;
      }
      var failed := FindFailed(state.steps, state.results);
      if failed == None {
        state.status := Completed;
        r := PlanCompleted(totalUsage, state.replanCount);
        CompletedIffKnown(cfg, state, run0);
        if AgentsKnown(state.steps, cfg.agents) {
          NoTrouble(cfg, state, run0);
        }
        HandBackAfter(cfg, state, run0);
        return;
      }
      var end: Option<ExecResult>;
      end, planned := AfterFailure(cfg, state, failed.value, maxReplans, run0, totalUsage);
      if end.Some? {
        if end.value == ReplansExceeded {
          CountExceeds(passes, maxReplans, old(state.replanCount), state.replanCount);
        }
        r := end.value;
        return;
      }
    }
  }
}
