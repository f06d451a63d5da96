/** Runs of a plan as seen from outside: a snapshot after every write to the plan's state.
    `Next` says which write may follow which state; the theorems hold of every such run. */
module PlanTrace {
  import opened Graphs
  import opened PlanModel
  import opened Replanning

  datatype StepStatus = Pending | Running | Done | Failed

  datatype Usage = Usage(prompt: int, completion: int, total: int)

  const NO_USAGE := Usage(0, 0, 0)

  function AddUsage(a: Usage, b: Usage): Usage {
    Usage(a.prompt + b.prompt, a.completion + b.completion, a.total + b.total)
  }

  datatype StepResult = StepResult(
    status: StepStatus,
    summary: string,
    finalOutput: string,
    error: string,
    retries: int,
    usage: Usage)

  const FRESH := StepResult(Pending, "", "", "", 0, NO_USAGE)

  type Results = map<Id, StepResult>

  /** What an agent run and its summary yield. */
  datatype Payload = Payload(summary: string, finalOutput: string, usage: Usage)

  datatype Outcome =
    | Success(payload: Payload)
    | Transient(error: string)
    | Permanent(error: string)

  function PayloadOf(r: StepResult): Payload {
    Payload(r.summary, r.finalOutput, r.usage)
  }

  /** The result record after one attempt. */
  function Apply(r: StepResult, outcome: Outcome): StepResult {
    match outcome
    case Success(p) => r.(status := Done, summary := p.summary, finalOutput := p.finalOutput, usage := p.usage, error := "")
    case Transient(e) => r.(status := Failed, error := e)
    case Permanent(e) => r.(status := Failed, error := e)
  }

  /** A success is recorded whole and clears the last error; a failure keeps all but status and error, and every outcome
      keeps the number of retries. */
  lemma OutcomeRecorded(r: StepResult, outcome: Outcome)
    ensures var r' := Apply(r, outcome);
            && r'.retries == r.retries
            && match outcome
               case Success(p) => r'.status == Done && PayloadOf(r') == p && r'.usage == p.usage && r'.error == ""
               case Transient(e) => r'.status == Failed && PayloadOf(r') == PayloadOf(r) && r'.error == e
               case Permanent(e) => r'.status == Failed && PayloadOf(r') == PayloadOf(r) && r'.error == e
  {
  }

  // ----- step contexts -----

  datatype DepResult = DepResult(
    stepID: Id,
    agentName: string,
    task: string,
    summary: string,
    output: string,
    success: bool,
    error: string)

  datatype StepContext = StepContext(task: string, dependencies: seq<DepResult>)

  const NO_STEP := StepDef("", "", "", [], false, false, 0)

  const OUTPUT_LIMIT := 2000

  function Truncate(s: string, n: nat): string {
    if |s| <= n then s else s[..n] + "..."
  }

  /** The first step with the given id. */
  function FindStep(steps: seq<StepDef>, id: Id): StepDef {
    if steps == [] then NO_STEP
    else if steps[0].id == id then steps[0]
    else FindStep(steps[1..], id)
  }

  function DepResultOf(dep: StepDef, depID: Id, r: StepResult): DepResult {
    DepResult(depID, dep.agent, dep.task, r.summary, Truncate(r.finalOutput, OUTPUT_LIMIT), r.status == Done, r.error)
  }

  function DepResults(steps: seq<StepDef>, results: Results, deps: seq<Id>): seq<DepResult> {
    if deps == [] then []
    else
      var last := deps[|deps| - 1];
      DepResults(steps, results, deps[..|deps| - 1]) +
      if last in results then [DepResultOf(FindStep(steps, last), last, results[last])] else []
  }

  function StepContextOf(steps: seq<StepDef>, results: Results, id: Id): StepContext {
    var self := FindStep(steps, id);
    StepContext(self.task, DepResults(steps, results, self.dependsOn))
  }

  lemma {:induction false} FindStepIs(steps: seq<StepDef>, s: StepDef)
    requires UniqueIds(steps) && s in steps
    ensures FindStep(steps, s.id) == s
  {
    if steps[0].id == s.id {
      StepUnique(steps, s, steps[0]);
    } else {
      assert s in steps[1..];
      FindStepIs(steps[1..], s);
    }
  }

  // ----- runs -----

  datatype Event =
    | Created
    | Prepared
    | Started(id: Id, context: StepContext)
    | Finished(id: Id, context: StepContext, outcome: Outcome)
    | Returned
    | Retried(id: Id)
    | Replanned(auto: bool, failedID: Id, affected: set<Id>, newSteps: seq<StepDef>)

  /** `held` collects the gates that have finished since control last returned to the caller
      or the plan was last replaced automatically. */
  datatype Snapshot = Snapshot(event: Event, steps: seq<StepDef>, results: Results, held: set<Id>)

  /** Structurally valid and acyclic, whatever agents exist. */
  ghost predicate Sound(steps: seq<StepDef>) {
    ValidPlan(steps, {})
  }

  predicate IsDone(results: Results, id: Id) {
    id in results && results[id].status == Done
  }

  predicate HasStatus(results: Results, id: Id, status: StepStatus) {
    id in results && results[id].status == status
  }

  predicate DepsDone(steps: seq<StepDef>, results: Results, id: Id) {
    forall s, d :: s in steps && s.id == id && d in s.dependsOn ==> IsDone(results, d)
  }

  predicate Quiet(results: Results) {
    forall id :: id in results ==> results[id].status != Running
  }

  /** The writes the engine makes. A plan is replaced by survivors and new steps, whatever they come to together. */
  ghost predicate Write(agents: set<string>, s: Snapshot, t: Snapshot) {
    match t.event
    case Created => false
    case Prepared =>
      && t.steps == s.steps && t.held == s.held
      && t.results == map id | id in s.results.Keys + Ids(s.steps) :: if id in s.results then s.results[id] else FRESH
    case Started(id, context) =>
      && t.steps == s.steps && t.held == s.held && id in Ids(s.steps)
      && (HasStatus(s.results, id, Pending) || HasStatus(s.results, id, Failed))
      && DepsDone(s.steps, s.results, id)
      && (forall g :: g in s.held ==> !Reaches(GraphOf(s.steps), id, g))
      && context == StepContextOf(s.steps, s.results, id)
      && (exists n :: t.results == s.results[id := s.results[id].(status := Running, retries := n)])
    case Finished(id, context, outcome) =>
      && t.steps == s.steps && id in Ids(s.steps)
      && FindStep(s.steps, id).agent in agents
      && HasStatus(s.results, id, Running)
      && context == StepContextOf(s.steps, s.results, id)
      && t.results == s.results[id := Apply(s.results[id], outcome)]
      && t.held == s.held + if outcome.Success? && FindStep(s.steps, id).gate then {id} else {}
    case Returned =>
      t.steps == s.steps && t.results == s.results && t.held == {}
    case Retried(id) =>
      && t.steps == s.steps && t.held == s.held
      && id in s.results && s.results[id].status in {Pending, Failed}
      && t.results == s.results[id := s.results[id].(status := Pending, error := "", retries := 0)]
    case Replanned(auto, failedID, affected, newSteps) =>
      && HasStatus(s.results, failedID, Failed) && Quiet(s.results)
      && IsAffected(s.steps, failedID, affected)
      && t.steps == Survivors(s.steps, affected) + newSteps
      && t.results == s.results - affected
      && t.held == if auto then {} else s.held
  }

  /** A write that leaves a sound plan behind. */
  ghost predicate Next(agents: set<string>, s: Snapshot, t: Snapshot) {
    Write(agents, s, t) && (t.event.Replanned? ==> Sound(t.steps))
  }

  ghost predicate Begins(s: Snapshot) {
    s.event == Created && Sound(s.steps) && s.results == map[] && s.held == {}
  }

  ghost predicate IsRun(agents: set<string>, run: seq<Snapshot>) {
    && |run| > 0 && Begins(run[0])
    && forall i, j :: 0 <= i && j == i + 1 && j < |run| ==> Next(agents, run[i], run[j])
  }

  lemma RunSnoc(agents: set<string>, run: seq<Snapshot>, t: Snapshot)
    requires IsRun(agents, run) && Next(agents, run[|run| - 1], t)
    ensures IsRun(agents, run + [t])
  {
    hide Next;
    var longer := run + [t];
    forall i, j | 0 <= i && j == i + 1 && j < |longer| ensures Next(agents, longer[i], longer[j]) {
      if j < |run| { assert Next(agents, run[i], run[j]); }
    }
  }

  // ----- dependency safety -----

  /** Every step that runs, is done or has failed has all its dependencies done. */
  ghost predicate DependencySafe(s: Snapshot) {
    forall id :: id in s.results && s.results[id].status != Pending ==> DepsDone(s.steps, s.results, id)
  }

  /** A result that is not done carries no usage; one that is done carries no error and came from a known agent. */
  ghost predicate CleanResults(agents: set<string>, s: Snapshot) {
    forall id :: id in s.results ==>
      if s.results[id].status == Done then s.results[id].error == "" && FindStep(s.steps, id).agent in agents
      else s.results[id].usage == NO_USAGE
  }

  ghost predicate Inv(agents: set<string>, s: Snapshot) {
    && Sound(s.steps) && s.results.Keys <= Ids(s.steps)
    && DependencySafe(s) && CleanResults(agents, s)
  }

  /** Done steps depend on done steps only, transitively. */
  lemma {:induction false} DoneReachesDone(s: Snapshot, p: seq<Id>)
    requires DependencySafe(s) && IsPath(GraphOf(s.steps), p) && IsDone(s.results, p[0])
    ensures IsDone(s.results, p[|p| - 1])
    decreases |p|
  {
    if |p| > 1 {
      DoneReachesDone(s, p[..|p| - 1]);
      var u, v := p[|p| - 2], p[|p| - 1];
      EdgeIsDependency(s.steps, u, v);
      var t :| t in s.steps && t.id == u && v in t.dependsOn;
    }
  }

  /** The steps affected by one that is not done are not done either, so replanning loses no finished work. */
  lemma AffectedNotDone(s: Snapshot, failedID: Id, affected: set<Id>, id: Id)
    requires DependencySafe(s) && !IsDone(s.results, failedID)
    requires IsAffected(s.steps, failedID, affected) && id in affected
    ensures !IsDone(s.results, id)
  {
    var p :| PathBetween(GraphOf(s.steps), p, id, failedID);
    if IsDone(s.results, id) { DoneReachesDone(s, p); }
  }

  lemma SoundStep(steps: seq<StepDef>, s: StepDef)
    requires Sound(steps) && s in steps
    ensures UniqueIds(steps) && FindStep(steps, s.id) == s && WellFormedStep(s, Ids(steps), {})
  {
    FindStepIs(steps, s);
  }

  lemma DepsDoneMonotone(steps: seq<StepDef>, a: Results, b: Results)
    requires forall d :: IsDone(a, d) ==> IsDone(b, d)
    ensures forall id :: DepsDone(steps, a, id) ==> DepsDone(steps, b, id)
  {
  }

  lemma NextKeepsInv(agents: set<string>, s: Snapshot, t: Snapshot)
    requires Inv(agents, s) && Next(agents, s, t)
    ensures Inv(agents, t)
  {
    hide Sound, IsAffected, FindStep, Survivors, StepContextOf, GraphOf, DepsDone;
    if t.event.Replanned? {
      ReplanKeepsInv(agents, s, t);
    } else {
      assert forall d :: IsDone(s.results, d) ==> IsDone(t.results, d);
      DepsDoneMonotone(s.steps, s.results, t.results);
    }
  }

  /** A step whose result survives a replan keeps its definition and its place in the plan. */
  lemma ReplanKeepsStep(agents: set<string>, s: Snapshot, t: Snapshot, id: Id)
    requires Inv(agents, s) && Next(agents, s, t) && t.event.Replanned? && id in t.results
    ensures id in Ids(t.steps) && FindStep(t.steps, id) == FindStep(s.steps, id)
    ensures FindStep(s.steps, id) in s.steps && FindStep(s.steps, id) in t.steps && FindStep(s.steps, id).id == id
  {
    hide Sound, IsAffected, FindStep, GraphOf;
    SurvivorsMembers(s.steps, t.event.affected);
    var x :| x in s.steps && x.id == id;
    assert x in Survivors(s.steps, t.event.affected) && x in t.steps;
    SoundStep(s.steps, x);
    SoundStep(t.steps, x);
  }

  lemma ReplanKeepsInv(agents: set<string>, s: Snapshot, t: Snapshot)
    requires Inv(agents, s) && Next(agents, s, t) && t.event.Replanned?
    ensures Inv(agents, t)
  {
    hide Sound, IsAffected, FindStep, GraphOf, Survivors;
    var affected := t.event.affected;
    SurvivorsMembers(s.steps, affected);
    SurvivorsClosed(s.steps, t.event.failedID, affected);
    forall id | id in t.results
      ensures id in Ids(t.steps)
      ensures FindStep(t.steps, id) == FindStep(s.steps, id)
      ensures DepsDone(s.steps, s.results, id) ==> DepsDone(t.steps, t.results, id)
    {
      ReplanKeepsStep(agents, s, t, id);
      var x := FindStep(s.steps, id);
      SoundStep(t.steps, x);
      if DepsDone(s.steps, s.results, id) {
        forall y, d | y in t.steps && y.id == id && d in y.dependsOn ensures IsDone(t.results, d) {
          StepUnique(t.steps, x, y);
          assert IsDone(s.results, d);
          assert x in Survivors(s.steps, affected);
          assert d !in affected;
        }
      }
    }
  }

  /** A replacement that passes validation together with the survivors reuses none of their ids. */
  lemma ReplanDisjoint(s: Snapshot, t: Snapshot)
    requires t.event.Replanned? && t.steps == Survivors(s.steps, t.event.affected) + t.event.newSteps && Sound(t.steps)
    ensures Ids(Survivors(s.steps, t.event.affected)) !! Ids(t.event.newSteps)
  {
    var kept, newSteps := Survivors(s.steps, t.event.affected), t.event.newSteps;
    assert UniqueIds(t.steps);
    forall i, j | 0 <= i < |kept| && 0 <= j < |newSteps| ensures kept[i].id != newSteps[j].id {
      assert t.steps[i] == kept[i] && t.steps[|kept| + j] == newSteps[j];
    }
  }

  /** In every reachable state no step has started before all its dependencies were done. */
  lemma {:induction false} RunIsDependencySafe(agents: set<string>, run: seq<Snapshot>, k: nat)
    requires IsRun(agents, run) && k < |run|
    ensures Inv(agents, run[k])
  {
    hide Next;
    if k == 0 {
      assert run[0].results.Keys == {};
    } else {
      RunIsDependencySafe(agents, run, k - 1);
      assert Next(agents, run[k - 1], run[k]);
      NextKeepsInv(agents, run[k - 1], run[k]);
    }
  }

  lemma LastIsSafe(agents: set<string>, run: seq<Snapshot>)
    requires IsRun(agents, run)
    ensures |run| > 0 && Inv(agents, run[|run| - 1])
  {
    hide Next, Inv, Sound;
    RunIsDependencySafe(agents, run, |run| - 1);
  }

  // ----- a done step is final -----

  lemma NextKeepsDone(agents: set<string>, s: Snapshot, t: Snapshot, id: Id)
    requires Inv(agents, s) && Next(agents, s, t) && IsDone(s.results, id)
    ensures id in t.results && t.results[id] == s.results[id]
    ensures FindStep(t.steps, id) == FindStep(s.steps, id)
    ensures forall c :: t.event != Started(id, c)
  {
    hide Sound, IsAffected, FindStep, StepContextOf, GraphOf, Survivors;
    if t.event.Replanned? {
      if id in t.event.affected {
        AffectedNotDone(s, t.event.failedID, t.event.affected, id);
      } else {
        ReplanKeepsStep(agents, s, t, id);
      }
    }
  }

  /** Over any run a done step keeps its definition and its result and is never started again. */
  lemma {:induction false} DoneIsFinal(agents: set<string>, run: seq<Snapshot>, i: nat, j: nat, id: Id)
    requires IsRun(agents, run) && i <= j < |run| && IsDone(run[i].results, id)
    ensures id in run[j].results && run[j].results[id] == run[i].results[id]
    ensures FindStep(run[j].steps, id) == FindStep(run[i].steps, id)
    ensures i < j ==> forall c :: run[j].event != Started(id, c)
    decreases j - i
  {
    hide Next, FindStep, Inv;
    if i < j {
      DoneIsFinal(agents, run, i, j - 1, id);
      RunIsDependencySafe(agents, run, j - 1);
      assert Next(agents, run[j - 1], run[j]);
      NextKeepsDone(agents, run[j - 1], run[j], id);
    }
  }

  // ----- gates -----

  /** Control is back with the caller, or the plan has been replaced automatically. */
  predicate Releases(e: Event) {
    e.Returned? || (e.Replanned? && e.auto)
  }

  lemma {:induction false} HeldUntilReleased(agents: set<string>, run: seq<Snapshot>, i: nat, j: nat, g: Id)
    requires IsRun(agents, run) && i <= j < |run| && g in run[i].held
    requires forall k :: i < k <= j ==> !Releases(run[k].event)
    ensures g in run[j].held
    decreases j - i
  {
    hide IsAffected, Sound, StepContextOf, FindStep, Survivors, GraphOf;
    if i < j {
      HeldUntilReleased(agents, run, i, j - 1, g);
      assert Next(agents, run[j - 1], run[j]);
    }
  }

  /** The i-th write records the success of a gate. */
  predicate GateFinishes(run: seq<Snapshot>, i: nat, g: Id) {
    && i < |run| && run[i].event.Finished? && run[i].event.id == g && run[i].event.outcome.Success?
    && FindStep(run[i].steps, g).gate
  }

  /** The j-th write starts a step that depends on g, directly or transitively. */
  ghost predicate DependentStarts(run: seq<Snapshot>, j: nat, g: Id) {
    j < |run| && run[j].event.Started? && Reaches(GraphOf(run[j].steps), run[j].event.id, g)
  }

  /** Between a gate finishing and the start of anything that depends on it control has returned to the caller, or the
      plan has been replaced automatically. */
  lemma GatesPause(agents: set<string>, run: seq<Snapshot>, i: nat, j: nat, g: Id)
    requires IsRun(agents, run) && i < j && GateFinishes(run, i, g) && DependentStarts(run, j, g)
    ensures exists k :: i < k < j && Releases(run[k].event)
  {
    hide IsAffected, Sound, StepContextOf, FindStep, Survivors, GraphOf, Reaches;
    assert i > 0;
    assert Next(agents, run[i - 1], run[i]);
    assert Next(agents, run[j - 1], run[j]);
    assert g in run[i].held;
    if forall k :: i < k < j ==> !Releases(run[k].event) {
      HeldUntilReleased(agents, run, i, j - 1, g);
    }
  }

  /** No automatic replanning: every replacement of the plan was asked for by the user. */
  predicate Manual(run: seq<Snapshot>) {
    forall k :: 0 <= k < |run| ==> !(run[k].event.Replanned? && run[k].event.auto)
  }

  ghost predicate ReturnsBetween(run: seq<Snapshot>, i: nat, j: nat) {
    exists k :: i < k < j < |run| && run[k].event == Returned
  }

  /** What a gate promises: nothing that depends on it starts before control has been with the caller. */
  ghost predicate GatesHold(run: seq<Snapshot>) {
    forall i: nat, j: nat, g :: i < j && GateFinishes(run, i, g) && DependentStarts(run, j, g) ==> ReturnsBetween(run, i, j)
  }

  /** Without automatic replanning every gate keeps its promise. */
  lemma ManualGatesHold(agents: set<string>, run: seq<Snapshot>)
    requires IsRun(agents, run) && Manual(run)
    ensures GatesHold(run)
  {
    hide IsRun, GateFinishes, DependentStarts;
    forall i: nat, j: nat, g | i < j && GateFinishes(run, i, g) && DependentStarts(run, j, g) ensures ReturnsBetween(run, i, j) {
      GatesPause(agents, run, i, j, g);
      InRun(run, j, g);
      var k :| i < k < j && Releases(run[k].event);
      assert run[k].event == Returned;
    }
  }

  lemma InRun(run: seq<Snapshot>, j: nat, g: Id)
    requires DependentStarts(run, j, g)
    ensures j < |run|
  {
  }

  // ----- provenance and confluence -----

  /** The result of a done step is what the agent answered to the context of its present dependencies. */
  ghost predicate Explained(run: seq<Snapshot>, j: nat, id: Id)
    requires j < |run|
  {
    exists k, p :: 0 <= k <= j &&
      run[k].event == Finished(id, StepContextOf(run[j].steps, run[j].results, id), Success(p)) &&
      FindStep(run[k].steps, id) == FindStep(run[j].steps, id) &&
      id in run[j].results && PayloadOf(run[j].results[id]) == p
  }

  /** The context of a done step does not change any more. */
  lemma NextKeepsContext(agents: set<string>, s: Snapshot, t: Snapshot, id: Id)
    requires Inv(agents, s) && Next(agents, s, t) && IsDone(s.results, id)
    ensures StepContextOf(t.steps, t.results, id) == StepContextOf(s.steps, s.results, id)
  {
    hide Next, Sound, FindStep;
    NextKeepsDone(agents, s, t, id);
    var x :| x in s.steps && x.id == id;
    SoundStep(s.steps, x);
    SameDepResults(agents, s, t, x.dependsOn);
  }

  lemma {:induction false} SameDepResults(agents: set<string>, s: Snapshot, t: Snapshot, deps: seq<Id>)
    requires Inv(agents, s) && Next(agents, s, t)
    requires forall d :: d in deps ==> IsDone(s.results, d)
    ensures DepResults(t.steps, t.results, deps) == DepResults(s.steps, s.results, deps)
    decreases |deps|
  {
    hide Next, Inv, FindStep;
    if deps != [] {
      NextKeepsDone(agents, s, t, deps[|deps| - 1]);
      SameDepResults(agents, s, t, deps[..|deps| - 1]);
    }
  }

  lemma StepsOwnContext(agents: set<string>, s: Snapshot, t: Snapshot)
    requires Inv(agents, s) && Next(agents, s, t) && t.event.Finished?
    ensures StepContextOf(t.steps, t.results, t.event.id) == StepContextOf(s.steps, s.results, t.event.id)
  {
    hide IsAffected, Survivors;
    var id := t.event.id;
    var x :| x in s.steps && x.id == id;
    SoundStep(s.steps, x);
    OtherDepResults(s.steps, s.results, t.results, id, x.dependsOn);
  }

  lemma {:induction false} OtherDepResults(steps: seq<StepDef>, a: Results, b: Results, id: Id, deps: seq<Id>)
    requires id !in deps && forall x :: x != id ==> (x in a <==> x in b) && (x in a ==> a[x] == b[x])
    ensures DepResults(steps, a, deps) == DepResults(steps, b, deps)
    decreases |deps|
  {
    if deps != [] {
      OtherDepResults(steps, a, b, id, deps[..|deps| - 1]);
    }
  }

  /** In every reachable state every done step is explained, through any failures, retries and replans. */
  lemma {:induction false} RunIsExplained(agents: set<string>, run: seq<Snapshot>, j: nat, id: Id)
    requires IsRun(agents, run) && j < |run| && IsDone(run[j].results, id)
    ensures Explained(run, j, id)
    decreases j
  {
    hide Inv, FindStep, StepContextOf, Sound, IsAffected, Survivors, GraphOf;
    assert j > 0;
    var s, t := run[j - 1], run[j];
    assert Next(agents, s, t);
    RunIsDependencySafe(agents, run, j - 1);
    if IsDone(s.results, id) {
      RunIsExplained(agents, run, j - 1, id);
      var k, p :| 0 <= k <= j - 1 &&
        run[k].event == Finished(id, StepContextOf(s.steps, s.results, id), Success(p)) &&
        FindStep(run[k].steps, id) == FindStep(s.steps, id) && PayloadOf(s.results[id]) == p;
      NextKeepsDone(agents, s, t, id);
      NextKeepsContext(agents, s, t, id);
    } else {
      StepsOwnContext(agents, s, t);
      assert t.event.Finished? && t.event.id == id && t.event.outcome.Success?;
      assert run[j].event == Finished(id, StepContextOf(t.steps, t.results, id), Success(t.event.outcome.payload));
    }
  }

  /** An agent pool as a function: what each step answers to a context. */
  type Agents = (StepDef, StepContext) -> Payload

  /** All successful answers in the run are those of f. */
  ghost predicate Answers(run: seq<Snapshot>, f: Agents) {
    forall k, id, c, p :: 0 <= k < |run| && run[k].event == Finished(id, c, Success(p)) ==> p == f(FindStep(run[k].steps, id), c)
  }

  function DepAnswer(dep: StepDef, depID: Id, p: Payload): DepResult {
    DepResult(depID, dep.agent, dep.task, p.summary, Truncate(p.finalOutput, OUTPUT_LIMIT), true, "")
  }

  /** The plan as a recursive program: each step applied to the values of its dependencies. */
  ghost function Eval(steps: seq<StepDef>, f: Agents, id: Id): Payload
    requires Sound(steps) && id in Ids(steps)
    decreases Below(GraphOf(steps), id), 1
  {
    f(FindStep(steps, id), StepContext(FindStep(steps, id).task, EvalDeps(steps, f, id, FindStep(steps, id).dependsOn)))
  }

  ghost function EvalDeps(steps: seq<StepDef>, f: Agents, id: Id, deps: seq<Id>): seq<DepResult>
    requires Sound(steps) && id in Ids(steps)
    decreases Below(GraphOf(steps), id), 0, |deps|
  {
    if deps == [] then []
    else
      var last := deps[|deps| - 1];
      EvalDeps(steps, f, id, deps[..|deps| - 1]) +
      if Edge(GraphOf(steps), id, last) then
        (BelowShrinks(GraphOf(steps), id, last);
         SoundEdge(steps, id, last);
         [DepAnswer(FindStep(steps, last), last, Eval(steps, f, last))])
      else []
  }

  lemma SoundEdge(steps: seq<StepDef>, u: Id, v: Id)
    requires Sound(steps) && Edge(GraphOf(steps), u, v)
    ensures v in Ids(steps)
  {
    EdgeIsDependency(steps, u, v);
    var s :| s in steps && s.id == u && v in s.dependsOn;
    SoundStep(steps, s);
  }

  /** Confluence: whatever the interleaving, batch order, concurrency limit, failures, retries and replans,
      each done step holds the value the recursive evaluation of the present plan gives it. */
  lemma {:induction false} ResultsAreEval(agents: set<string>, run: seq<Snapshot>, f: Agents, j: nat, id: Id)
    requires IsRun(agents, run) && Answers(run, f) && j < |run| && IsDone(run[j].results, id)
    ensures Sound(run[j].steps) && id in Ids(run[j].steps)
    ensures PayloadOf(run[j].results[id]) == Eval(run[j].steps, f, id)
    decreases Below(GraphOf(run[j].steps), id), 1
  {
    hide Next, Sound, IsRun, FindStep, GraphOf;
    var s := run[j];
    RunIsDependencySafe(agents, run, j);
    RunIsExplained(agents, run, j, id);
    var x :| x in s.steps && x.id == id;
    SoundStep(s.steps, x);
    forall d | d in x.dependsOn ensures IsDone(s.results, d) && Edge(GraphOf(s.steps), id, d) {
      EdgeIsDependency(s.steps, id, d);
    }
    DepResultsAreEval(agents, run, f, j, id, x.dependsOn);
  }

  lemma {:induction false} DepResultsAreEval(agents: set<string>, run: seq<Snapshot>, f: Agents, j: nat, id: Id, deps: seq<Id>)
    requires IsRun(agents, run) && Answers(run, f) && j < |run| && IsDone(run[j].results, id)
    requires Inv(agents, run[j]) && id in Ids(run[j].steps)
    requires forall d :: d in deps ==> IsDone(run[j].results, d) && Edge(GraphOf(run[j].steps), id, d)
    ensures DepResults(run[j].steps, run[j].results, deps) == EvalDeps(run[j].steps, f, id, deps)
    decreases Below(GraphOf(run[j].steps), id), 0, |deps|
  {
    hide Next, IsRun, FindStep, GraphOf;
    if deps != [] {
      var last := deps[|deps| - 1];
      DepResultsAreEval(agents, run, f, j, id, deps[..|deps| - 1]);
      SoundAcyclic(run[j].steps);
      BelowShrinks(GraphOf(run[j].steps), id, last);
      ResultsAreEval(agents, run, f, j, last);
    }
  }

  lemma SoundAcyclic(steps: seq<StepDef>)
    requires Sound(steps)
    ensures Acyclic(GraphOf(steps))
  {
  }

  predicate AllDone(s: Snapshot) {
    forall id :: id in Ids(s.steps) ==> IsDone(s.results, id)
  }

  /** Two runs that reach the same plan with every step done agree on every result. */
  lemma Confluence(agents: set<string>, run1: seq<Snapshot>, run2: seq<Snapshot>, f: Agents, j1: nat, j2: nat)
    requires IsRun(agents, run1) && IsRun(agents, run2) && Answers(run1, f) && Answers(run2, f)
    requires j1 < |run1| && j2 < |run2| && run1[j1].steps == run2[j2].steps
    requires AllDone(run1[j1]) && AllDone(run2[j2])
    ensures run1[j1].results.Keys == run2[j2].results.Keys == Ids(run1[j1].steps)
    ensures forall id :: id in run1[j1].results ==> PayloadOf(run1[j1].results[id]) == PayloadOf(run2[j2].results[id])
  {
    hide Next, Sound;
    RunIsDependencySafe(agents, run1, j1);
    RunIsDependencySafe(agents, run2, j2);
    forall id | id in Ids(run1[j1].steps)
      ensures PayloadOf(run1[j1].results[id]) == PayloadOf(run2[j2].results[id])
    {
      ResultsAreEval(agents, run1, f, j1, id);
      ResultsAreEval(agents, run2, f, j2, id);
    }
  }
}
