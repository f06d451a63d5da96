/** The mutable state of a plan execution and the atomic writes to it.
    Every write appends a snapshot to the ghost run. */
module ExecState {
  import opened Graphs
  import opened PlanModel
  import opened Replanning
  import opened PlanTrace

  datatype Config = Config(agents: set<string>, maxReplans: int, maxConcurrency: int, autoReplan: bool)

  datatype PlanStatus = Approved | InProgress | Completed | Broken | Cancelled

  const DEFAULT_REPLANS := 3
  const DEFAULT_CONCURRENCY := 8
  const DEFAULT_RETRIES := 3

  function ReplanLimit(cfg: Config): int {
    if cfg.maxReplans <= 0 then DEFAULT_REPLANS else cfg.maxReplans
  }

  function RetryLimit(s: StepDef): nat {
    if s.maxRetries <= 0 then DEFAULT_RETRIES else s.maxRetries
  }

  /** At most this many steps run at a time. */
  function ConcurrencyLimit(cfg: Config): nat {
    if cfg.maxConcurrency <= 0 then DEFAULT_CONCURRENCY else cfg.maxConcurrency
  }

  /** The configured limits, and what they are when nothing is configured. */
  lemma Limits(cfg: Config, s: StepDef)
    ensures ReplanLimit(cfg) == if cfg.maxReplans <= 0 then 3 else cfg.maxReplans
    ensures ConcurrencyLimit(cfg) == if cfg.maxConcurrency <= 0 then 8 else cfg.maxConcurrency
    ensures RetryLimit(s) == if s.maxRetries <= 0 then 3 else s.maxRetries
  {
  }

  function RunningIds(results: Results): set<Id> {
    set id | id in results && results[id].status == Running
  }

  /** b continues a, and in none of the states added do more than `limit` steps run. */
  ghost predicate Limited(limit: nat, a: seq<Snapshot>, b: seq<Snapshot>) {
    a <= b && forall k :: |a| <= k < |b| ==> |RunningIds(b[k].results)| <= limit
  }

  lemma LimitedTransitive(limit: nat, a: seq<Snapshot>, b: seq<Snapshot>, c: seq<Snapshot>)
    requires Limited(limit, a, b) && Limited(limit, b, c)
    ensures Limited(limit, a, c)
  {
    hide RunningIds;
    forall k | |a| <= k < |c| ensures |RunningIds(c[k].results)| <= limit {
      if k < |b| { assert c[k] == b[k]; }
    }
  }

  lemma LimitedSnoc(limit: nat, a: seq<Snapshot>, b: seq<Snapshot>)
    requires a <= b && |b| <= |a| + 1 && (|b| > |a| ==> |RunningIds(b[|b| - 1].results)| <= limit)
    ensures Limited(limit, a, b)
  {
    hide RunningIds;
  }

  lemma QuietLimited(limit: nat, a: seq<Snapshot>, b: seq<Snapshot>)
    requires a <= b && |b| <= |a| + 1 && |b| > 0 && Quiet(b[|b| - 1].results)
    ensures Limited(limit, a, b)
  {
    assert RunningIds(b[|b| - 1].results) == {};
    LimitedSnoc(limit, a, b);
  }

  predicate AgentsKnown(steps: seq<StepDef>, agents: set<string>) {
    forall s :: s in steps ==> s.agent in agents
  }

  predicate Waiting(results: Results, id: Id) {
    HasStatus(results, id, Pending) || HasStatus(results, id, Failed)
  }

  /** b continues a without giving control back; plans are replaced in between only automatically, and only if that is
      allowed. */
  predicate Continues(a: seq<Snapshot>, b: seq<Snapshot>, allowReplan: bool) {
    && a <= b
    && forall k :: |a| <= k < |b| ==> b[k].event != Returned && (b[k].event.Replanned? ==> allowReplan && b[k].event.auto)
  }

  /** b continues a and at its end, and only there, gives control back to the caller. */
  predicate HandsBack(a: seq<Snapshot>, b: seq<Snapshot>, allowReplan: bool) {
    |a| < |b| && b[|b| - 1].event == Returned && Continues(a, b[..|b| - 1], allowReplan)
  }

  lemma ContinuesSelf(a: seq<Snapshot>)
    ensures Continues(a, a, false)
  {
  }

  lemma ContinuesTransitive(a: seq<Snapshot>, b: seq<Snapshot>, c: seq<Snapshot>, allowReplan: bool)
    requires Continues(a, b, allowReplan) && Continues(b, c, allowReplan)
    ensures Continues(a, c, allowReplan)
  {
    forall k | |a| <= k < |c| ensures c[k].event != Returned && (c[k].event.Replanned? ==> allowReplan && c[k].event.auto) {
      if k < |b| { assert c[k] == b[k]; }
    }
  }

  /** How often a run has replaced the plan. */
  function Replans(run: seq<Snapshot>): nat {
    if run == [] then 0 else Replans(run[..|run| - 1]) + if run[|run| - 1].event.Replanned? then 1 else 0
  }

  lemma ReplansSnoc(run: seq<Snapshot>, t: Snapshot)
    ensures Replans(run + [t]) == Replans(run) + if t.event.Replanned? then 1 else 0
  {
    assert (run + [t])[..|run|] == run;
  }

  lemma {:induction false} ContinuesKeepsPlan(a: seq<Snapshot>, b: seq<Snapshot>)
    requires Continues(a, b, false)
    ensures Replans(b) == Replans(a)
    decreases |b|
  {
    if |a| < |b| {
      ContinuesKeepsPlan(a, b[..|b| - 1]);
    } else {
      assert a == b;
    }
  }

  /** The plan has been replaced in one step: the survivors of a failure and a replacement, with the affected results
      forgotten. */
  ghost predicate PlanReplaced(auto: bool, steps0: seq<StepDef>, results0: Results, run0: seq<Snapshot>,
                               steps: seq<StepDef>, results: Results, run: seq<Snapshot>)
  {
    && |run| > 0 && run == run0 + [run[|run| - 1]]
    && var e := run[|run| - 1].event;
       && e.Replanned? && e.auto == auto && HasStatus(results0, e.failedID, Failed)
       && IsAffected(steps0, e.failedID, e.affected)
       && steps == Survivors(steps0, e.affected) + e.newSteps
       && results == results0 - e.affected
  }

  /** What a step is told of one of its dependencies: who did what with which result, the output whole if it has at most
      2000 characters and otherwise its first 2000. */
  predicate Tells(entry: DepResult, dep: StepDef, depID: Id, r: StepResult) {
    && entry.stepID == depID && entry.agentName == dep.agent && entry.task == dep.task
    && entry.summary == r.summary && entry.error == r.error && (entry.success <==> r.status == Done)
    && if |r.finalOutput| <= 2000 then entry.output == r.finalOutput else entry.output == r.finalOutput[..2000] + "..."
  }

  /** Each dependency that has a result is told of, in the order in which the step names them. */
  lemma {:induction false} DepResultsTell(steps: seq<StepDef>, results: Results, deps: seq<Id>)
    requires forall d :: d in deps ==> d in results
    ensures |DepResults(steps, results, deps)| == |deps|
    ensures forall k :: 0 <= k < |deps| ==>
              Tells(DepResults(steps, results, deps)[k], FindStep(steps, deps[k]), deps[k], results[deps[k]])
    decreases |deps|
  {
    hide FindStep;
    if deps != [] {
      DepResultsTell(steps, results, deps[..|deps| - 1]);
    }
  }

  /** Assembles a step's context from its dependencies' results. When a step starts all of them are there. */
  method BuildStepContext(steps: seq<StepDef>, results: Results, id: Id) returns (sc: StepContext)
    ensures sc == StepContextOf(steps, results, id)
    ensures var self := FindStep(steps, id);
            && sc.task == self.task
            && ((forall d :: d in self.dependsOn ==> d in results) ==>
                  && |sc.dependencies| == |self.dependsOn|
                  && forall k :: 0 <= k < |self.dependsOn| ==>
                       Tells(sc.dependencies[k], FindStep(steps, self.dependsOn[k]), self.dependsOn[k], results[self.dependsOn[k]]))
  {
    var self := FindStep(steps, id);
    var dependencies := [];
    for n := 0 to |self.dependsOn|
      invariant dependencies == DepResults(steps, results, self.dependsOn[..n])
    {
      var depID := self.dependsOn[n];
      assert self.dependsOn[..n + 1][..n] == self.dependsOn[..n];
      if depID in results {
        dependencies := dependencies + [DepResultOf(FindStep(steps, depID), depID, results[depID])];
      }
    }
    assert self.dependsOn[..|self.dependsOn|] == self.dependsOn;
    sc := StepContext(self.task, dependencies);
    if forall d :: d in self.dependsOn ==> d in results {
      DepResultsTell(steps, results, self.dependsOn);
    }
  }

  /** The mutable state of one plan execution, with the run it has gone through so far. */
  class PlanState {
    var status: PlanStatus
    var steps: seq<StepDef>
    var results: Results
    var replanCount: int
    ghost var run: seq<Snapshot>

    ghost predicate Valid(agents: set<string>)
      reads this`run, this`steps, this`results
    {
      IsRun(agents, run) && run[|run| - 1].steps == steps && run[|run| - 1].results == results
    }

    ghost function Held(): set<Id>
      reads this`run
    {
      if |run| > 0 then run[|run| - 1].held else {}
    }

    constructor (def: PlanDef)
      requires Sound(def.steps)
      ensures forall agents :: Valid(agents)
      ensures steps == def.steps && results == map[] && replanCount == 0 && status == Approved
      ensures |run| == 1 && run[0].event == Created && Held() == {}
    {
      status, steps, results, replanCount := Approved, def.steps, map[], 0;
      run := [Snapshot(Created, def.steps, map[], {})];
    }

    /** Gives every step without a result a pending one. */
    method Prepare(ghost agents: set<string>)
      requires Valid(agents)
      modifies this`results, this`run
      ensures Valid(agents) && Held() == old(Held())
      ensures results.Keys == old(results.Keys) + Ids(steps)
      ensures forall id :: id in results ==> results[id] == if id in old(results) then old(results)[id] else FRESH
      ensures forall id :: id in results && id !in old(results) ==>
                results[id].status == Pending && PayloadOf(results[id]) == Payload("", "", NO_USAGE) && results[id].retries == 0
      ensures exists t: Snapshot :: t.event == Prepared && run == old(run) + [t]
    {
      hide Sound;
      ghost var before := results;
      for n := 0 to |steps|
        invariant results.Keys == before.Keys + Ids(steps[..n])
        invariant forall id :: id in results ==> results[id] == if id in before then before[id] else FRESH
        invariant run == old(run)
      {
        assert steps[..n + 1] == steps[..n] + [steps[n]];
        if steps[n].id !in results {
          results := results[steps[n].id := FRESH];
        }
      }
      assert steps[..|steps|] == steps;
      ghost var s, t := run[|run| - 1], Snapshot(Prepared, steps, results, Held());
      assert t.results == map id | id in s.results.Keys + Ids(s.steps) :: if id in s.results then s.results[id] else FRESH;
      RunSnoc(agents, run, t);
      run := run + [t];
    }

    /** Marks a step as running and assembles its context. */
    method BeginAttempt(ghost agents: set<string>, id: Id, retry: nat) returns (context: StepContext)
      requires Valid(agents) && id in Ids(steps) && Waiting(results, id) && DepsDone(steps, results, id)
      requires forall g :: g in Held() ==> !Reaches(GraphOf(steps), id, g)
      modifies this`results, this`run
      ensures Valid(agents) && Held() == old(Held())
      ensures context == StepContextOf(steps, old(results), id)
      ensures results == old(results)[id := old(results)[id].(status := Running, retries := retry)]
      ensures exists t: Snapshot :: t.event == Started(id, context) && run == old(run) + [t]
      ensures Continues(old(run), run, false)
    {
      hide Reaches, GraphOf, Sound, StepContextOf;
      context := BuildStepContext(steps, results, id);
      ghost var s := run[|run| - 1];
      results := results[id := results[id].(status := Running, retries := retry)];
      ghost var t := Snapshot(Started(id, context), steps, results, Held());
      assert t.results == s.results[id := s.results[id].(status := Running, retries := retry)];
      RunSnoc(agents, run, t);
      run := run + [t];
    }

    /** Records what an agent run has returned. */
    method EndAttempt(ghost agents: set<string>, id: Id, context: StepContext, outcome: Outcome)
      requires Valid(agents) && id in Ids(steps) && HasStatus(results, id, Running)
      requires FindStep(steps, id).agent in agents && context == StepContextOf(steps, results, id)
      modifies this`results, this`run
      ensures Valid(agents)
      ensures Held() == old(Held()) + if outcome.Success? && FindStep(steps, id).gate then {id} else {}
      ensures results == old(results)[id := Apply(old(results)[id], outcome)]
      ensures exists t: Snapshot :: t.event == Finished(id, context, outcome) && run == old(run) + [t]
      ensures Continues(old(run), run, false)
    {
      hide Sound, StepContextOf;
      results := results[id := Apply(results[id], outcome)];
      ghost var gates := if outcome.Success? && FindStep(steps, id).gate then {id} else {};
      ghost var t := Snapshot(Finished(id, context, outcome), steps, results, Held() + gates);
      RunSnoc(agents, run, t);
      run := run + [t];
    }

    /** Puts a step that is not done back to pending. */
    method Reset(ghost agents: set<string>, id: Id)
      requires Valid(agents) && Waiting(results, id)
      modifies this`results, this`run
      ensures Valid(agents) && Held() == old(Held())
      ensures results == old(results)[id := old(results)[id].(status := Pending, error := "", retries := 0)]
      ensures exists t: Snapshot :: t.event == Retried(id) && run == old(run) + [t]
    {
      hide Sound;
      results := results[id := results[id].(status := Pending, error := "", retries := 0)];
      ghost var t := Snapshot(Retried(id), steps, results, Held());
      RunSnoc(agents, run, t);
      run := run + [t];
    }

    /** Puts a merged plan in place of the present one and forgets the affected results. */
    method ReplacePlan(ghost agents: set<string>, ghost auto: bool, ghost failedID: Id, affected: set<Id>,
                       ghost newSteps: seq<StepDef>, merged: seq<StepDef>)
      requires Valid(agents) && HasStatus(results, failedID, Failed) && Quiet(results)
      requires IsAffected(steps, failedID, affected)
      requires merged == Survivors(steps, affected) + newSteps && Sound(merged)
      modifies this`steps, this`results, this`run
      ensures Valid(agents) && Held() == if auto then {} else old(Held())
      ensures steps == merged && results == old(results) - affected
      ensures exists t: Snapshot :: t.event == Replanned(auto, failedID, affected, newSteps) && run == old(run) + [t]
    {
      hide Sound, IsAffected;
      ghost var s := run[|run| - 1];
      results := results - affected;
      steps := merged;
      ghost var t := Snapshot(Replanned(auto, failedID, affected, newSteps), steps, results, if auto then {} else Held());
      assert Next(agents, s, t);
      RunSnoc(agents, run, t);
      run := run + [t];
    }

    /** Hands control back to the caller. */
    ghost method HandBack(agents: set<string>)
      requires Valid(agents)
      modifies this`run
      ensures Valid(agents) && Held() == {}
      ensures exists t: Snapshot :: t.event == Returned && run == old(run) + [t]
    {
      var t := Snapshot(Returned, steps, results, {});
      RunSnoc(agents, run, t) by { hide Sound; }
      run := run + [t];
    }
  }
}
