/** One topological batch run concurrently: goroutines behind a semaphore, with error-group cancellation. */
module BatchRun {
  import opened Basics
  import opened Graphs
  import opened PlanModel
  import opened PlanTrace
  import opened PlanUsage
  import opened ExecState

  /** Where a step's goroutine is. */
  datatype Pc =
    | Idle                                        // not launched yet
    | Launched
    | Attempting(retry: nat)                      // about to start an attempt
    | Calling(retry: nat, context: StepContext)   // the agent is running
    | Returning(ok: bool)                         // the step's outcome is settled
    | Exited

  /** What the goroutines of a batch share. */
  datatype Group = Group(usage: Usage, failed: bool, erred: bool, cancelled: bool)

  function Work(limit: nat, pc: Pc): nat {
    match pc
    case Idle => 2 * limit + 6
    case Launched => 2 * limit + 5
    case Attempting(r) => if r <= limit then 2 * (limit - r) + 4 else 4
    case Calling(r, _) => if r <= limit then 2 * (limit - r) + 3 else 3
    case Returning(_) => 1
    case Exited => 0
  }

  predicate Known(agents: set<string>, steps: seq<StepDef>, id: Id) {
    FindStep(steps, id).agent in agents
  }

  /** What a goroutine's position says about its step's result. */
  predicate PcOk(agents: set<string>, steps: seq<StepDef>, entry: Results, results: Results, id: Id, pc: Pc) {
    match pc
    case Idle => Waiting(results, id)
    case Launched => Waiting(results, id)
    case Attempting(r) => Waiting(results, id) && Known(agents, steps, id) && r <= RetryLimit(FindStep(steps, id))
    case Calling(r, c) =>
      && HasStatus(results, id, Running) && Known(agents, steps, id)
      && r <= RetryLimit(FindStep(steps, id)) && c == StepContextOf(steps, entry, id)
    case Returning(ok) =>
      if ok then IsDone(results, id) else HasStatus(results, id, Failed) || (Waiting(results, id) && !Known(agents, steps, id))
    case Exited => IsDone(results, id) || Waiting(results, id)
  }

  function GateOf(steps: seq<StepDef>, results: Results, id: Id): set<Id> {
    if IsDone(results, id) && FindStep(steps, id).gate then {id} else {}
  }

  /** One atomic step of one goroutine. */
  method StepGoroutine(cfg: Config, state: PlanState, id: Id, pc: Pc, g: Group, ctxDone: bool,
                       ghost entry: Results, ghost base: Usage)
    returns (pc': Pc, g': Group)
    requires state.Valid(cfg.agents) && id in Ids(state.steps)
    requires pc != Idle && pc != Exited && PcOk(cfg.agents, state.steps, entry, state.results, id, pc)
    requires !IsDone(state.results, id) ==> DepsDone(state.steps, state.results, id)
    requires forall h :: h in state.Held() && h != id ==> !Reaches(GraphOf(state.steps), id, h)
    requires !IsDone(state.results, id) ==> id !in state.Held()
    requires StepContextOf(state.steps, state.results, id) == StepContextOf(state.steps, entry, id)
    requires Spent(state.run) == AddUsage(base, g.usage)
    modifies state`results, state`run
    ensures state.Valid(cfg.agents) && Continues(old(state.run), state.run, false) && |state.run| <= |old(state.run)| + 1
    ensures state.results.Keys == old(state.results).Keys
    ensures forall x :: x in state.results && x != id ==> state.results[x] == old(state.results)[x]
    ensures PcOk(cfg.agents, state.steps, entry, state.results, id, pc') && pc' != Idle
    ensures Work(RetryLimit(FindStep(state.steps, id)), pc') < Work(RetryLimit(FindStep(state.steps, id)), pc)
    ensures state.Held() == if IsDone(old(state.results), id) then old(state.Held())
                            else old(state.Held()) + GateOf(state.steps, state.results, id)
    ensures IsDone(old(state.results), id) ==> IsDone(state.results, id)
    ensures Spent(state.run) == AddUsage(base, g'.usage)
    ensures (g.failed ==> g'.failed) && (g.erred ==> g'.erred)
    ensures g'.failed && !g.failed ==> pc' == Returning(false)
    ensures g'.erred && !g.erred ==> g.failed || pc == Returning(false) || ctxDone || g.cancelled
    ensures g'.cancelled <==> g.cancelled || pc == Returning(false)
    ensures pc == Returning(false) ==> g'.erred
    ensures pc' == Returning(false) ==> g'.failed
    ensures pc' == Exited ==> IsDone(state.results, id) || g'.erred
    ensures pc.Returning? ==> state.results == old(state.results)
    ensures pc == Launched ==> pc' == if ctxDone || g.cancelled then Exited
                                      else if !Known(cfg.agents, state.steps, id) then Returning(false)
                                      else Attempting(0)
    ensures pc.Attempting? ==> pc'.Calling? && pc'.retry == pc.retry
  {
    hide Reaches, GraphOf, Sound, StepContextOf, Spent, IsRun, RetryLimit, FindStep, Continues;
    g' := g;
    ContinuesSelf(state.run);
    match pc {
      case Launched =>
        if ctxDone || g.cancelled {
          pc', g' := Exited, g.(erred := true);
        } else if FindStep(state.steps, id).agent !in cfg.agents {
          pc', g' := Returning(false), g.(failed := true);
        } else {
          pc' := Attempting(0);
        }
      case Attempting(r) =>
        var context := state.BeginAttempt(cfg.agents, id, r);
        pc' := Calling(r, context);
        LastSpent(old(state.run), state.run);
      case Calling(r, context) =>
        ghost var outcome;
        pc', g', outcome := Conclude(cfg, state, id, r, context, g, entry, base);
      case Returning(ok) =>
        pc' := Exited;
        if !ok {
          g' := g.(erred := true, cancelled := true);
        }
    }
  }

  /** The agent returns: success, a transient failure that is retried within the limit, or a final failure. */
  method Conclude(cfg: Config, state: PlanState, id: Id, r: nat, context: StepContext, g: Group,
                  ghost entry: Results, ghost base: Usage)
    returns (pc': Pc, g': Group, ghost outcome: Outcome)
    requires state.Valid(cfg.agents) && id in Ids(state.steps)
    requires PcOk(cfg.agents, state.steps, entry, state.results, id, Calling(r, context))
    requires StepContextOf(state.steps, state.results, id) == StepContextOf(state.steps, entry, id)
    requires Spent(state.run) == AddUsage(base, g.usage)
    modifies state`results, state`run
    ensures state.Valid(cfg.agents) && Continues(old(state.run), state.run, false) && |state.run| <= |old(state.run)| + 1
    ensures state.results.Keys == old(state.results).Keys
    ensures forall x :: x in state.results && x != id ==> state.results[x] == old(state.results)[x]
    ensures PcOk(cfg.agents, state.steps, entry, state.results, id, pc')
    ensures pc' == Attempting(r + 1) || pc'.Returning?
    ensures state.Held() == old(state.Held()) + GateOf(state.steps, state.results, id)
    ensures Spent(state.run) == AddUsage(base, g'.usage)
    ensures g' == g.(usage := g'.usage, failed := g.failed || pc' == Returning(false))
    ensures state.results == old(state.results)[id := Apply(old(state.results)[id], outcome)]
    ensures match outcome
            case Success(p) => pc' == Returning(true) && g'.usage == AddUsage(g.usage, p.usage)
            case Transient(_) =>
              var retries := FindStep(state.steps, id).maxRetries;
              pc' == if r + 1 <= (if retries <= 0 then 3 else retries) then Attempting(r + 1) else Returning(false)
            case Permanent(_) => pc' == Returning(false)
  {
    hide GraphOf, Sound, StepContextOf, Spent, IsRun, RetryLimit, FindStep, Continues, Apply, GateOf, PcOk,
         AddUsage, EventUsage, DepsDone;
    assert id in state.results && HasStatus(state.results, id, Running) && Known(cfg.agents, state.steps, id) &&
      r <= RetryLimit(FindStep(state.steps, id)) && context == StepContextOf(state.steps, entry, id)
    by { CallingOk(cfg.agents, state.steps, entry, state.results, id, r, context); }
    var answer: Outcome := *;
    outcome := answer;
    Limits(cfg, FindStep(state.steps, id));
    state.EndAttempt(cfg.agents, id, context, answer);
    LastSpent(old(state.run), state.run);
    match answer {
      case Success(p) =>
        pc', g' := Returning(true), g.(usage := AddUsage(g.usage, p.usage));
      case Transient(_) =>
        if r + 1 <= RetryLimit(FindStep(state.steps, id)) {
          pc', g' := Attempting(r + 1), g;
        } else {
          pc', g' := Returning(false), g.(failed := true);
        }
      case Permanent(_) =>
        pc', g' := Returning(false), g.(failed := true);
    }
    ConcludedUsage(base, g.usage, id, context, answer);
    ConcludedOk(cfg.agents, state.steps, entry, old(state.results), state.results, id, r, answer, pc');
  }

  lemma CallingOk(agents: set<string>, steps: seq<StepDef>, entry: Results, results: Results, id: Id, r: nat, context: StepContext)
    requires PcOk(agents, steps, entry, results, id, Calling(r, context))
    ensures HasStatus(results, id, Running) && Known(agents, steps, id)
    ensures r <= RetryLimit(FindStep(steps, id)) && context == StepContextOf(steps, entry, id)
  {
  }

  lemma ConcludedUsage(base: Usage, usage: Usage, id: Id, context: StepContext, outcome: Outcome)
    ensures AddUsage(AddUsage(base, usage), EventUsage(Finished(id, context, outcome))) ==
            if outcome.Success? then AddUsage(base, AddUsage(usage, outcome.payload.usage)) else AddUsage(base, usage)
  {
  }

  lemma ConcludedOk(agents: set<string>, steps: seq<StepDef>, entry: Results, before: Results, results: Results, id: Id, r: nat,
                    outcome: Outcome, pc': Pc)
    requires id in before && results == before[id := Apply(before[id], outcome)] && Known(agents, steps, id)
    requires match outcome
             case Success(_) => pc' == Returning(true)
             case Transient(_) => pc' == Returning(false) || (pc' == Attempting(r + 1) && r + 1 <= RetryLimit(FindStep(steps, id)))
             case Permanent(_) => pc' == Returning(false)
    ensures PcOk(agents, steps, entry, results, id, pc')
    ensures GateOf(steps, results, id) == if outcome.Success? && FindStep(steps, id).gate then {id} else {}
  {
    hide RetryLimit, FindStep, StepContextOf;
  }

  lemma LastSpent(before: seq<Snapshot>, after: seq<Snapshot>)
    requires exists t: Snapshot :: after == before + [t]
    ensures Spent(after) == AddUsage(Spent(before), EventUsage(after[|after| - 1].event))
  {
    var t: Snapshot :| after == before + [t];
    SpentSnoc(before, t);
  }

  // ----- the whole batch -----

  /** A batch may run: its steps wait, and everything they depend on is done. */
  ghost predicate Runnable(steps: seq<StepDef>, results: Results, batch: seq<Id>) {
    && Distinct(batch)
    && forall id :: id in batch ==> id in Ids(steps) && Waiting(results, id) && DepsDone(steps, results, id)
  }

  /** The first `next` goroutines have been launched; `active` are those that have not exited. */
  ghost predicate Positions(batch: seq<Id>, next: nat, active: set<Id>, pcs: map<Id, Pc>) {
    && next <= |batch| && (forall id :: id in batch <==> id in pcs)
    && (forall i :: 0 <= i < |batch| ==> (pcs[batch[i]] == Idle <==> i >= next))
    && (forall id :: id in active <==> id in pcs && pcs[id] != Idle && pcs[id] != Exited)
  }

  /** Only the batch's results change, each as its goroutine's position says. */
  ghost predicate ResultsOk(agents: set<string>, steps: seq<StepDef>, batch: seq<Id>, entry: Results, results: Results,
                            pcs: map<Id, Pc>)
  {
    && results.Keys == entry.Keys
    && (forall id :: id in entry && id !in batch ==> results[id] == entry[id])
    && (forall id :: id in pcs ==> PcOk(agents, steps, entry, results, id, pcs[id]))
  }

  /** What the shared flags mean. */
  ghost predicate FlagsOk(agents: set<string>, steps: seq<StepDef>, results: Results, pcs: map<Id, Pc>, g: Group,
                          ctxDone: bool)
  {
    && (forall id :: id in pcs && pcs[id] == Exited ==> IsDone(results, id) || g.erred)
    && (forall id :: id in pcs && pcs[id] == Returning(false) ==> g.failed)
    && (g.cancelled ==> g.failed) && (g.erred ==> g.failed || ctxDone)
    && (g.failed ==> exists id :: id in pcs && Culprit(agents, steps, results, id, pcs[id]))
  }

  predicate Culprit(agents: set<string>, steps: seq<StepDef>, results: Results, id: Id, pc: Pc) {
    (pc == Returning(false) || pc == Exited) && (HasStatus(results, id, Failed) || !Known(agents, steps, id))
  }

  function TotalWork(steps: seq<StepDef>, batch: seq<Id>, pcs: map<Id, Pc>): nat
    requires forall id :: id in batch ==> id in pcs
  {
    if batch == [] then 0
    else
      var last := batch[|batch| - 1];
      TotalWork(steps, batch[..|batch| - 1], pcs) + Work(RetryLimit(FindStep(steps, last)), pcs[last])
  }

  lemma {:induction false} LessWork(steps: seq<StepDef>, batch: seq<Id>, pcs: map<Id, Pc>, id: Id, pc: Pc)
    requires (forall x :: x in batch ==> x in pcs) && id in pcs
    requires Work(RetryLimit(FindStep(steps, id)), pc) < Work(RetryLimit(FindStep(steps, id)), pcs[id])
    ensures TotalWork(steps, batch, pcs[id := pc]) <= TotalWork(steps, batch, pcs)
    ensures id in batch ==> TotalWork(steps, batch, pcs[id := pc]) < TotalWork(steps, batch, pcs)
    decreases |batch|
  {
    if batch != [] {
      LessWork(steps, batch[..|batch| - 1], pcs, id, pc);
      assert batch == batch[..|batch| - 1] + [batch[|batch| - 1]];
    }
  }

  /** No step of a runnable batch depends, even transitively, on another. */
  lemma BatchIndependent(agents: set<string>, s: Snapshot, batch: seq<Id>, u: Id, v: Id)
    requires Inv(agents, s) && Runnable(s.steps, s.results, batch) && u in batch && v in batch && u != v
    ensures !Reaches(GraphOf(s.steps), u, v)
  {
    if Reaches(GraphOf(s.steps), u, v) {
      var w := ReachesFirstEdge(GraphOf(s.steps), u, v);
      EdgeIsDependency(s.steps, u, w);
      assert IsDone(s.results, w);
      var p :| PathBetween(GraphOf(s.steps), p, w, v);
      DoneReachesDone(s, p);
    }
  }

  /** While only the batch's results change, its steps' dependencies and contexts stay as they were. */
  lemma DependenciesStable(steps: seq<StepDef>, entry: Results, results: Results, batch: seq<Id>, id: Id)
    requires Sound(steps) && Runnable(steps, entry, batch) && id in batch
    requires results.Keys == entry.Keys && forall x :: x in entry && x !in batch ==> results[x] == entry[x]
    ensures DepsDone(steps, results, id)
    ensures StepContextOf(steps, results, id) == StepContextOf(steps, entry, id)
  {
    hide Sound;
    var s :| s in steps && s.id == id;
    SoundStep(steps, s);
    forall d | d in s.dependsOn ensures d !in batch && IsDone(entry, d) && IsDone(results, d) {
      assert IsDone(entry, d);
      assert d in batch ==> Waiting(entry, d);
    }
    forall t, d | t in steps && t.id == id && d in t.dependsOn ensures IsDone(results, d) {
      StepUnique(steps, s, t);
    }
    SameResults(steps, entry, results, s.dependsOn);
  }

  lemma {:induction false} SameResults(steps: seq<StepDef>, a: Results, b: Results, deps: seq<Id>)
    requires forall d :: d in deps ==> d in a && d in b && a[d] == b[d]
    ensures DepResults(steps, a, deps) == DepResults(steps, b, deps)
    decreases |deps|
  {
    if deps != [] {
      SameResults(steps, a, b, deps[..|deps| - 1]);
    }
  }

  lemma Launch(agents: set<string>, steps: seq<StepDef>, batch: seq<Id>, entry: Results, results: Results,
               next: nat, active: set<Id>, pcs: map<Id, Pc>, g: Group, ctxDone: bool)
    requires Positions(batch, next, active, pcs) && next < |batch| && Distinct(batch)
    requires ResultsOk(agents, steps, batch, entry, results, pcs) && FlagsOk(agents, steps, results, pcs, g, ctxDone)
    ensures batch[next] in pcs && pcs[batch[next]] == Idle && batch[next] !in active
    ensures Positions(batch, next + 1, active + {batch[next]}, pcs[batch[next] := Launched])
    ensures ResultsOk(agents, steps, batch, entry, results, pcs[batch[next] := Launched])
    ensures FlagsOk(agents, steps, results, pcs[batch[next] := Launched], g, ctxDone)
  {
    hide Known, RetryLimit, StepContextOf;
    var id := batch[next];
    assert PcOk(agents, steps, entry, results, id, pcs[id]);
    FlagsStep(agents, steps, results, pcs, g, ctxDone, id, results, Launched, g);
  }

  lemma AdvancePositions(batch: seq<Id>, next: nat, active: set<Id>, pcs: map<Id, Pc>, id: Id, pc': Pc)
    requires Positions(batch, next, active, pcs) && Distinct(batch) && id in active && pc' != Idle
    ensures Positions(batch, next, if pc' == Exited then active - {id} else active, pcs[id := pc'])
  {
  }

  lemma AdvanceResults(agents: set<string>, steps: seq<StepDef>, batch: seq<Id>, entry: Results, results: Results,
                       pcs: map<Id, Pc>, id: Id, results': Results, pc': Pc)
    requires ResultsOk(agents, steps, batch, entry, results, pcs)
    requires id in batch && id in pcs && results'.Keys == results.Keys
    requires forall x :: x in results' && x != id ==> results'[x] == results[x]
    requires PcOk(agents, steps, entry, results', id, pc')
    ensures ResultsOk(agents, steps, batch, entry, results', pcs[id := pc'])
  {
    hide Known, RetryLimit, StepContextOf;
    forall x | x in pcs && x != id ensures PcOk(agents, steps, entry, results', x, pcs[x]) {
      assert PcOk(agents, steps, entry, results, x, pcs[x]);
    }
  }

  lemma FlagsStep(agents: set<string>, steps: seq<StepDef>, results: Results, pcs: map<Id, Pc>, g: Group, ctxDone: bool,
                  id: Id, results': Results, pc': Pc, g': Group)
    requires FlagsOk(agents, steps, results, pcs, g, ctxDone)
    requires id in pcs && results'.Keys == results.Keys
    requires forall x :: x in results' && x != id ==> results'[x] == results[x]
    requires (g.failed ==> g'.failed) && (g.erred ==> g'.erred)
    requires g'.failed && !g.failed ==> pc' == Returning(false)
    requires g'.erred && !g.erred ==> g.failed || ctxDone
    requires g'.cancelled ==> g.cancelled || g.failed
    requires pc' == Returning(false) ==> g'.failed && Culprit(agents, steps, results', id, pc')
    requires pc' == Exited ==> IsDone(results', id) || g'.erred
    requires pcs[id] == Exited || pcs[id] == Returning(false) ==> results' == results && pc' == Exited
    ensures FlagsOk(agents, steps, results', pcs[id := pc'], g', ctxDone)
  {
    hide Known;
    var pcs' := pcs[id := pc'];
    if g.failed {
      var x :| x in pcs && Culprit(agents, steps, results, x, pcs[x]);
      assert x in pcs' && Culprit(agents, steps, results', x, pcs'[x]);
    } else if g'.failed {
      assert id in pcs' && Culprit(agents, steps, results', id, pcs'[id]);
    }
    forall x | x in pcs' && pcs'[x] == Exited ensures IsDone(results', x) || g'.erred {
      if x != id { assert IsDone(results, x) || g.erred; }
    }
  }

  /** The goroutines of a batch, with the number launched and the ones still alive. */
  datatype Pool = Pool(next: nat, active: set<Id>, pcs: map<Id, Pc>, g: Group)

  ghost predicate PoolOk(agents: set<string>, steps: seq<StepDef>, batch: seq<Id>, entry: Results, results: Results,
                         pool: Pool, ctxDone: bool)
  {
    && Positions(batch, pool.next, pool.active, pool.pcs)
    && ResultsOk(agents, steps, batch, entry, results, pool.pcs)
    && FlagsOk(agents, steps, results, pool.pcs, pool.g, ctxDone)
  }

  /** The gates of the batch that are done. */
  function GatesDone(steps: seq<StepDef>, results: Results, batch: seq<Id>): set<Id> {
    set id | id in batch && id in GateOf(steps, results, id)
  }

  /** What holds between two goroutine steps. */
  ghost predicate BatchInv(cfg: Config, state: PlanState, batch: seq<Id>, pool: Pool, ctxDone: bool,
                           entry: Results, run0: seq<Snapshot>)
    reads state`run, state`steps, state`results
  {
    && state.Valid(cfg.agents) && Continues(run0, state.run, false)
    && PoolOk(cfg.agents, state.steps, batch, entry, state.results, pool, ctxDone)
    && state.Held() == GatesDone(state.steps, state.results, batch)
    && Spent(state.run) == AddUsage(Spent(run0), pool.g.usage)
    && |pool.active| <= ConcurrencyLimit(cfg) && (Quiet(entry) ==> Limited(ConcurrencyLimit(cfg), run0, state.run))
  }

  /** In a batch only live goroutines have running steps. */
  lemma RunningAreActive(agents: set<string>, steps: seq<StepDef>, batch: seq<Id>, entry: Results, results: Results, next: nat,
                         active: set<Id>, pcs: map<Id, Pc>)
    requires Positions(batch, next, active, pcs) && ResultsOk(agents, steps, batch, entry, results, pcs) && Quiet(entry)
    ensures RunningIds(results) <= active && |RunningIds(results)| <= |active|
  {
    hide Known, RetryLimit, StepContextOf;
    forall id | id in RunningIds(results) ensures id in active {
      assert id in batch;
      assert PcOk(agents, steps, entry, results, id, pcs[id]);
    }
    SubsetSize(RunningIds(results), active);
  }

  lemma SubsetSize(a: set<Id>, b: set<Id>)
    requires a <= b
    ensures |a| <= |b|
  {
    assert b == a + (b - a);
  }

  /** What stays true of a batch however its goroutines interleave. */
  ghost predicate BatchFacts(steps: seq<StepDef>, entry: Results, batch: seq<Id>) {
    && Sound(steps) && Runnable(steps, entry, batch)
    && forall u, v :: u in batch && v in batch && u != v ==> !Reaches(GraphOf(steps), u, v)
  }

  /** One step of the scheduler: launch the next goroutine if the semaphore allows, or let some live one go on. */
  method Round(cfg: Config, batch: seq<Id>, state: PlanState, pool: Pool, ctxDone: bool,
               ghost entry: Results, ghost run0: seq<Snapshot>)
    returns (pool': Pool)
    requires BatchFacts(state.steps, entry, batch) && BatchInv(cfg, state, batch, pool, ctxDone, entry, run0)
    requires pool.next < |batch| || pool.active != {}
    modifies state`results, state`run
    ensures BatchInv(cfg, state, batch, pool', ctxDone, entry, run0)
    ensures (forall x :: x in batch ==> x in pool.pcs && x in pool'.pcs)
    ensures TotalWork(state.steps, batch, pool'.pcs) < TotalWork(state.steps, batch, pool.pcs)
  {
    hide *;
    var limit := ConcurrencyLimit(cfg);
    var launch: bool := *;
    if pool.next < |batch| && |pool.active| < limit && (launch || pool.active == {}) {
      LaunchNext(cfg, batch, state, pool, ctxDone, entry, run0);
      var id := batch[pool.next];
      pool' := pool.(next := pool.next + 1, active := pool.active + {id}, pcs := pool.pcs[id := Launched]);
    } else {
      LimitPositive(cfg);
      assert pool.active != {};
      var id :| id in pool.active;
      pool' := Resume(cfg, batch, state, pool, ctxDone, id, entry, run0);
    }
  }

  lemma LimitPositive(cfg: Config)
    ensures ConcurrencyLimit(cfg) > 0
  {
  }

  lemma LaunchNext(cfg: Config, batch: seq<Id>, state: PlanState, pool: Pool, ctxDone: bool,
                   entry: Results, run0: seq<Snapshot>)
    requires BatchFacts(state.steps, entry, batch) && BatchInv(cfg, state, batch, pool, ctxDone, entry, run0)
    requires pool.next < |batch| && |pool.active| < ConcurrencyLimit(cfg)
    ensures var id := batch[pool.next];
            var pool' := pool.(next := pool.next + 1, active := pool.active + {id}, pcs := pool.pcs[id := Launched]);
            && BatchInv(cfg, state, batch, pool', ctxDone, entry, run0)
            && (forall x :: x in batch ==> x in pool.pcs && x in pool'.pcs)
            && TotalWork(state.steps, batch, pool'.pcs) < TotalWork(state.steps, batch, pool.pcs)
  {
    var id := batch[pool.next];
    LaunchPool(cfg.agents, state.steps, batch, entry, state.results, pool, ctxDone);
    SamePool(cfg, state, batch, pool, pool.(next := pool.next + 1, active := pool.active + {id}, pcs := pool.pcs[id := Launched]),
             ctxDone, entry, run0);
    hide *;
    LessWork(state.steps, batch, pool.pcs, id, Launched);
  }

  lemma LaunchPool(agents: set<string>, steps: seq<StepDef>, batch: seq<Id>, entry: Results, results: Results, pool: Pool,
                   ctxDone: bool)
    requires PoolOk(agents, steps, batch, entry, results, pool, ctxDone) && pool.next < |batch| && Distinct(batch)
    ensures var id := batch[pool.next];
            && PoolOk(agents, steps, batch, entry, results,
                      pool.(next := pool.next + 1, active := pool.active + {id}, pcs := pool.pcs[id := Launched]), ctxDone)
            && id in pool.pcs && id !in pool.active && (forall x :: x in batch ==> x in pool.pcs)
            && Work(RetryLimit(FindStep(steps, id)), Launched) < Work(RetryLimit(FindStep(steps, id)), pool.pcs[id])
  {
    hide RetryLimit, FindStep, FlagsOk, ResultsOk;
    Launch(agents, steps, batch, entry, results, pool.next, pool.active, pool.pcs, pool.g, ctxDone);
  }

  lemma SamePool(cfg: Config, state: PlanState, batch: seq<Id>, pool: Pool, pool': Pool, ctxDone: bool,
                 entry: Results, run0: seq<Snapshot>)
    requires BatchInv(cfg, state, batch, pool, ctxDone, entry, run0)
    requires PoolOk(cfg.agents, state.steps, batch, entry, state.results, pool', ctxDone)
    requires pool'.g == pool.g && |pool'.active| <= ConcurrencyLimit(cfg)
    ensures BatchInv(cfg, state, batch, pool', ctxDone, entry, run0)
  {
    hide Spent, IsRun, PoolOk, GatesDone, Continues, Limited, ConcurrencyLimit;
  }

  method Resume(cfg: Config, batch: seq<Id>, state: PlanState, pool: Pool, ctxDone: bool, id: Id,
                ghost entry: Results, ghost run0: seq<Snapshot>)
    returns (pool': Pool)
    requires BatchFacts(state.steps, entry, batch) && BatchInv(cfg, state, batch, pool, ctxDone, entry, run0)
    requires id in pool.active
    modifies state`results, state`run
    ensures BatchInv(cfg, state, batch, pool', ctxDone, entry, run0)
    ensures (forall x :: x in batch ==> x in pool.pcs && x in pool'.pcs)
    ensures TotalWork(state.steps, batch, pool'.pcs) < TotalWork(state.steps, batch, pool.pcs)
  {
    hide Reaches, GraphOf, Sound, Spent, IsRun, RetryLimit, FindStep, StepContextOf, FlagsOk, TotalWork, GateOf, Continues,
         ConcurrencyLimit, Limited, RunningIds;
    ghost var results, run := state.results, state.run;
    DependenciesStable(state.steps, entry, results, batch, id);
    ReadyToGo(cfg.agents, state.steps, batch, entry, results, pool, ctxDone, id);
    var pc', g' := StepGoroutine(cfg, state, id, pool.pcs[id], pool.g, ctxDone, entry, Spent(run0));
    ContinuesTransitive(run0, run, state.run, false);
    AdvancePositions(batch, pool.next, pool.active, pool.pcs, id, pc');
    AdvanceResults(cfg.agents, state.steps, batch, entry, results, pool.pcs, id, state.results, pc');
    StepFlags(cfg.agents, state.steps, batch, entry, results, pool, ctxDone, id, state.results, pc', g');
    NewGates(state.steps, results, state.results, batch, id);
    LessWork(state.steps, batch, pool.pcs, id, pc');
    StaysLimited(cfg, state, batch, entry, run0, run, pool, id, pc');
    pool' := Pool(pool.next, if pc' == Exited then pool.active - {id} else pool.active, pool.pcs[id := pc'], g');
  }

  lemma StaysLimited(cfg: Config, state: PlanState, batch: seq<Id>, entry: Results, run0: seq<Snapshot>, run: seq<Snapshot>,
                     pool: Pool, id: Id, pc': Pc)
    requires state.Valid(cfg.agents) && Continues(run, state.run, false) && |state.run| <= |run| + 1
    requires var active := if pc' == Exited then pool.active - {id} else pool.active;
             Positions(batch, pool.next, active, pool.pcs[id := pc']) &&
             ResultsOk(cfg.agents, state.steps, batch, entry, state.results, pool.pcs[id := pc'])
    requires |pool.active| <= ConcurrencyLimit(cfg) && (Quiet(entry) ==> Limited(ConcurrencyLimit(cfg), run0, run))
    ensures |if pc' == Exited then pool.active - {id} else pool.active| <= ConcurrencyLimit(cfg)
    ensures Quiet(entry) ==> Limited(ConcurrencyLimit(cfg), run0, state.run)
  {
    var active := if pc' == Exited then pool.active - {id} else pool.active;
    SubsetSize(active, pool.active);
    if Quiet(entry) {
      RunningAreActive(cfg.agents, state.steps, batch, entry, state.results, pool.next, active, pool.pcs[id := pc']);
      assert run <= state.run && state.run[|state.run| - 1].results == state.results by { hide IsRun, ResultsOk, Positions; }
      hide *;
      LimitedSnoc(ConcurrencyLimit(cfg), run, state.run);
      LimitedTransitive(ConcurrencyLimit(cfg), run0, run, state.run);
    }
  }

  lemma ReadyToGo(agents: set<string>, steps: seq<StepDef>, batch: seq<Id>, entry: Results, results: Results,
                  pool: Pool, ctxDone: bool, id: Id)
    requires BatchFacts(steps, entry, batch) && PoolOk(agents, steps, batch, entry, results, pool, ctxDone)
    requires id in pool.active
    ensures id in batch && id in pool.pcs && id in Ids(steps)
    ensures pool.pcs[id] != Idle && pool.pcs[id] != Exited
    ensures PcOk(agents, steps, entry, results, id, pool.pcs[id])
    ensures forall h :: h in GatesDone(steps, results, batch) && h != id ==> !Reaches(GraphOf(steps), id, h)
    ensures !IsDone(results, id) ==> id !in GatesDone(steps, results, batch)
    ensures pool.pcs[id] == Returning(false) ==> pool.g.failed
    ensures pool.g.cancelled ==> pool.g.failed
  {
    hide Reaches, GraphOf, Sound, PcOk, FindStep;
  }

  lemma StepFlags(agents: set<string>, steps: seq<StepDef>, batch: seq<Id>, entry: Results, results: Results,
                  pool: Pool, ctxDone: bool, id: Id, results': Results, pc': Pc, g': Group)
    requires PoolOk(agents, steps, batch, entry, results, pool, ctxDone) && id in pool.active
    requires results'.Keys == results.Keys && forall x :: x in results' && x != id ==> results'[x] == results[x]
    requires PcOk(agents, steps, entry, results', id, pc') && pc' != Idle
    requires Work(RetryLimit(FindStep(steps, id)), pc') < Work(RetryLimit(FindStep(steps, id)), pool.pcs[id])
    requires (pool.g.failed ==> g'.failed) && (pool.g.erred ==> g'.erred)
    requires g'.failed && !pool.g.failed ==> pc' == Returning(false)
    requires g'.erred && !pool.g.erred ==> pool.g.failed || pool.pcs[id] == Returning(false) || ctxDone || pool.g.cancelled
    requires g'.cancelled ==> pool.g.cancelled || pool.pcs[id] == Returning(false)
    requires pc' == Returning(false) ==> g'.failed
    requires pc' == Exited ==> IsDone(results', id) || g'.erred
    requires pool.pcs[id].Returning? ==> results' == results
    ensures FlagsOk(agents, steps, results', pool.pcs[id := pc'], g', ctxDone)
  {
    hide RetryLimit, FindStep, StepContextOf;
    FlagsStep(agents, steps, results, pool.pcs, pool.g, ctxDone, id, results', pc', g');
  }

  lemma NewGates(steps: seq<StepDef>, a: Results, b: Results, batch: seq<Id>, id: Id)
    requires id in batch && id in a && a.Keys == b.Keys && forall x :: x in b && x != id ==> b[x] == a[x]
    requires IsDone(a, id) ==> IsDone(b, id)
    ensures GatesDone(steps, b, batch) ==
            if IsDone(a, id) then GatesDone(steps, a, batch) else GatesDone(steps, a, batch) + GateOf(steps, b, id)
  {
    hide FindStep;
    forall x | x in batch && x != id ensures GateOf(steps, a, x) == GateOf(steps, b, x) {
      assert IsDone(a, x) <==> IsDone(b, x);
    }
  }

  /** Runs a batch to completion under every interleaving. Unless the context was cancelled, either every
      step of the batch is done, or a failure is reported, recorded if the agents exist. */
  method RunBatch(cfg: Config, batch: seq<Id>, state: PlanState, ctxDone0: bool)
    returns (usage: Usage, failed: bool, err: bool, ctxDone: bool)
    requires state.Valid(cfg.agents) && state.Held() == {} && Runnable(state.steps, state.results, batch)
    modifies state`results, state`run
    ensures state.Valid(cfg.agents) && Continues(old(state.run), state.run, false)
    ensures state.results.Keys == old(state.results).Keys
    ensures forall id :: id in state.results && id !in batch ==> state.results[id] == old(state.results)[id]
    ensures forall id :: id in batch ==> IsDone(state.results, id) || Waiting(state.results, id)
    ensures state.Held() == GatesDone(state.steps, state.results, batch)
    ensures Quiet(old(state.results)) ==> Limited(ConcurrencyLimit(cfg), old(state.run), state.run)
    ensures Spent(state.run) == AddUsage(Spent(old(state.run)), usage)
    ensures (err ==> ctxDone) && (ctxDone0 ==> ctxDone)
    ensures !failed && !err ==> forall id :: id in batch ==> IsDone(state.results, id)
    ensures failed ==> exists id :: id in batch && (HasStatus(state.results, id, Failed) || !Known(cfg.agents, state.steps, id))
  {
    hide *;
    ghost var entry, run0 := state.results, state.run;
    ctxDone := ctxDone0;
    var pool := Pool(0, {}, map id | id in batch :: Idle, Group(NO_USAGE, false, false, false));
    StartBatch(cfg, state, batch, pool, ctxDone);
    while pool.next < |batch| || pool.active != {}
      invariant BatchFacts(state.steps, entry, batch)
      invariant BatchInv(cfg, state, batch, pool, ctxDone, entry, run0)
      invariant (forall x :: x in batch ==> x in pool.pcs) && (ctxDone0 ==> ctxDone)
      decreases TotalWork(state.steps, batch, pool.pcs)
    {
      var cancelNow: bool := *;
      if cancelNow {
        CancelContext(cfg, state, batch, pool, ctxDone, entry, run0);
        ctxDone := true;
      }
      pool := Round(cfg, batch, state, pool, ctxDone, entry, run0);
    }
    EndBatch(cfg, state, batch, pool, ctxDone, entry, run0);
    usage, failed := pool.g.usage, pool.g.failed;
    err := pool.g.erred && ctxDone;
  }

  lemma StartBatch(cfg: Config, state: PlanState, batch: seq<Id>, pool: Pool, ctxDone: bool)
    requires state.Valid(cfg.agents) && state.Held() == {} && Runnable(state.steps, state.results, batch)
    requires pool == Pool(0, {}, map id | id in batch :: Idle, Group(NO_USAGE, false, false, false))
    ensures BatchFacts(state.steps, state.results, batch)
    ensures BatchInv(cfg, state, batch, pool, ctxDone, state.results, state.run)
    ensures forall x :: x in batch ==> x in pool.pcs
  {
    hide Reaches, GraphOf, Sound, Spent, IsRun, FindStep, StepContextOf, DepsDone;
    LastIsSafe(cfg.agents, state.run);
    forall u, v | u in batch && v in batch && u != v ensures !Reaches(GraphOf(state.steps), u, v) {
      BatchIndependent(cfg.agents, state.run[|state.run| - 1], batch, u, v);
    }
    assert forall id :: id in batch ==> Waiting(state.results, id);
    assert GatesDone(state.steps, state.results, batch) == {};
    assert AddUsage(Spent(state.run), NO_USAGE) == Spent(state.run);
  }

  lemma CancelContext(cfg: Config, state: PlanState, batch: seq<Id>, pool: Pool, ctxDone: bool,
                      entry: Results, run0: seq<Snapshot>)
    requires BatchInv(cfg, state, batch, pool, ctxDone, entry, run0)
    ensures BatchInv(cfg, state, batch, pool, true, entry, run0)
  {
    hide Spent, IsRun, FindStep, GatesDone, Positions, ResultsOk;
  }

  lemma EndBatch(cfg: Config, state: PlanState, batch: seq<Id>, pool: Pool, ctxDone: bool,
                 entry: Results, run0: seq<Snapshot>)
    requires BatchInv(cfg, state, batch, pool, ctxDone, entry, run0)
    requires pool.next >= |batch| && pool.active == {}
    ensures state.Valid(cfg.agents) && Continues(run0, state.run, false)
    ensures state.results.Keys == entry.Keys
    ensures forall id :: id in state.results && id !in batch ==> state.results[id] == entry[id]
    ensures forall id :: id in batch ==> IsDone(state.results, id) || Waiting(state.results, id)
    ensures state.Held() == GatesDone(state.steps, state.results, batch)
    ensures Quiet(entry) ==> Limited(ConcurrencyLimit(cfg), run0, state.run)
    ensures Spent(state.run) == AddUsage(Spent(run0), pool.g.usage)
    ensures !pool.g.failed && !(pool.g.erred && ctxDone) ==> forall id :: id in batch ==> IsDone(state.results, id)
    ensures pool.g.failed ==>
              exists id :: id in batch && (HasStatus(state.results, id, Failed) || !Known(cfg.agents, state.steps, id))
  {
    hide Spent, IsRun, FindStep, GatesDone, Continues, StepContextOf, Known;
    forall id | id in batch ensures id in pool.pcs && pool.pcs[id] == Exited {
      var i :| 0 <= i < |batch| && batch[i] == id;
    }
    forall id | id in batch ensures IsDone(state.results, id) || Waiting(state.results, id) {
      assert PcOk(cfg.agents, state.steps, entry, state.results, id, pool.pcs[id]);
    }
    if pool.g.failed {
      var id :| id in pool.pcs && Culprit(cfg.agents, state.steps, state.results, id, pool.pcs[id]);
      assert id in batch;
    }
  }
}
