/** A plan session: editing, executing, and resuming a paused execution by retry or replan with feedback.
    Automatic replanning is off. */
module PlanSessions {
  import opened Basics
  import opened Graphs
  import opened PlanModel
  import opened Validation
  import opened Replanning
  import opened PlanTrace
  import opened ExecState
  import opened Executor

  /** What the user can do while an execution is paused. */
  datatype Command = Retry(stepID: Id) | Replan | Cancel

  datatype SessionResult =
    | Refused                        // already running, or nothing to execute
    | Ended(result: ExecResult)      // done, failed or cancelled by the executor
    | Abandoned                      // cancelled, or no further command, while paused
    | IdsCollide                     // the planner reused a surviving id against its instructions

  const MAX_STEPS := 20

  /** A call of Execute came back with this result when the run had so many snapshots. */
  datatype Stop = Stop(at: nat, result: ExecResult)

  predicate Paused(r: ExecResult) {
    r.GatePause? || r.FailurePause?
  }

  /** Control was given back exactly where Execute came back, and always for a pause unless the run ends there. */
  ghost predicate Stops(run: seq<Snapshot>, stops: seq<Stop>) {
    && (forall k {:trigger run[k]} :: 0 <= k < |run| && run[k].event == Returned ==> StoppedAt(stops, k + 1))
    && (forall n :: 0 <= n < |stops| ==> 0 < stops[n].at <= |run| && run[stops[n].at - 1].event == Returned)
    && (forall n :: 0 <= n < |stops| ==> Paused(stops[n].result) || stops[n].at == |run|)
  }

  ghost predicate StoppedAt(stops: seq<Stop>, at: nat) {
    exists n :: 0 <= n < |stops| && stops[n].at == at
  }

  lemma ManualExecuted(a: seq<Snapshot>, b: seq<Snapshot>)
    requires Manual(a) && HandsBack(a, b, false)
    ensures Manual(b)
  {
    forall k | 0 <= k < |b| ensures !(b[k].event.Replanned? && b[k].event.auto) {
      InitSame(b, k);
      if k < |a| {
        assert b[..|b| - 1][k] == a[k];
      }
    }
  }

  lemma InitSame(run: seq<Snapshot>, k: nat)
    ensures k < |run| - 1 ==> run[..|run| - 1][k] == run[k]
  {
  }

  /** One call of Execute adds one stop. */
  lemma StopsExecuted(a: seq<Snapshot>, b: seq<Snapshot>, stops: seq<Stop>, r: ExecResult)
    requires Stops(a, stops) && (forall n :: 0 <= n < |stops| ==> Paused(stops[n].result)) && HandsBack(a, b, false)
    ensures Stops(b, stops + [Stop(|b|, r)])
  {
    var all := stops + [Stop(|b|, r)];
    assert b[..|b| - 1][..|a|] == a;
    forall k | 0 <= k < |b| && b[k].event == Returned ensures StoppedAt(all, k + 1) {
      InitSame(b, k);
      if k < |a| {
        assert a[k] == b[k];
        var n :| 0 <= n < |stops| && stops[n].at == k + 1;
        assert all[n].at == k + 1;
      } else if k == |b| - 1 {
        assert all[|stops|].at == k + 1;
      }
    }
  }

  /** A command that is obeyed adds none. */
  lemma StopsResumed(a: seq<Snapshot>, b: seq<Snapshot>, stops: seq<Stop>)
    requires Stops(a, stops) && (forall n :: 0 <= n < |stops| ==> Paused(stops[n].result))
    requires b == a || (|b| > 0 && b == a + [b[|b| - 1]] && b[|b| - 1].event != Returned)
    ensures Stops(b, stops)
  {
    forall k | 0 <= k < |b| && b[k].event == Returned ensures StoppedAt(stops, k + 1) {
      assert a[k] == b[k];
    }
  }

  /** Gates: between a gate finishing and the start of anything that depends on it, directly or transitively, Execute
      has come back to the session and paused it. */
  lemma GatesReturnControl(agents: set<string>, run: seq<Snapshot>, stops: seq<Stop>, i: nat, j: nat, g: Id)
    requires IsRun(agents, run) && Manual(run) && Stops(run, stops)
    requires i < j && GateFinishes(run, i, g) && DependentStarts(run, j, g)
    ensures exists n :: 0 <= n < |stops| && i < stops[n].at - 1 < j && Paused(stops[n].result)
  {
    hide IsRun, GateFinishes, DependentStarts;
    ManualGatesHold(agents, run);
    assert ReturnsBetween(run, i, j);
    var k :| i < k < j < |run| && run[k].event == Returned;
    assert StoppedAt(stops, k + 1);
    var n :| 0 <= n < |stops| && stops[n].at == k + 1;
  }

  // ----- commands -----

  /** A retry is accepted for a failed step and for a finished gate. */
  predicate RetryAccepted(steps: seq<StepDef>, results: Results, id: Id) {
    HasStatus(results, id, Failed) || (IsDone(results, id) && exists s :: s in steps && s.id == id && s.gate)
  }

  /** A failed step goes back to pending, a finished gate stays done. */
  function AfterRetry(results: Results, id: Id): Results
    requires id in results
  {
    if IsDone(results, id) then results else results[id := results[id].(status := Pending, error := "", retries := 0)]
  }

  /** What a command that resumes the execution does to the plan's state. */
  ghost predicate Obeyed(agents: set<string>, command: Command, steps0: seq<StepDef>, results0: Results, run0: seq<Snapshot>,
                         steps: seq<StepDef>, results: Results, run: seq<Snapshot>)
  {
    match command
    case Cancel => false
    case Retry(id) =>
      && RetryAccepted(steps0, results0, id) && steps == steps0 && results == AfterRetry(results0, id)
      && (if IsDone(results0, id) then run == run0
          else |run| > 0 && run == run0 + [run[|run| - 1]] && run[|run| - 1].event == Retried(id))
    case Replan =>
      && PlanReplaced(false, steps0, results0, run0, steps, results, run)
      && IsFirstFailed(steps0, results0, run[|run| - 1].event.failedID)
      && ValidPlan(run[|run| - 1].event.newSteps, agents)
  }

  /** The replacement of the first failed step reuses the id of a surviving step. */
  ghost predicate Collides(steps: seq<StepDef>, results: Results, newSteps: seq<StepDef>) {
    exists id, affected ::
      IsFirstFailed(steps, results, id) && IsAffected(steps, id, affected) && !(Ids(Survivors(steps, affected)) !! Ids(newSteps))
  }

  /** A command that does not resume the execution. */
  ghost predicate Passed(command: Command, steps: seq<StepDef>, results: Results) {
    command != Cancel && (command.Retry? ==> !RetryAccepted(steps, results, command.stepID))
  }

  /** A resumption: the position of the command obeyed, and the length of the run once it was. */
  datatype Resume = Resume(position: nat, at: nat)

  /** Where the stretch that ends in the n-th stop begins, and the first command not read by then. */
  function Begun(resumes: seq<Resume>, n: nat): nat {
    if 0 < n <= |resumes| then resumes[n - 1].at else 1
  }

  function Unread(resumes: seq<Resume>, n: nat): nat {
    if 0 < n <= |resumes| then resumes[n - 1].position + 1 else 0
  }

  /** One call of Execute took the run from one length to the other. */
  ghost predicate Executed(run: seq<Snapshot>, begun: nat, at: nat) {
    0 < begun < at <= |run| && HandsBack(run[..begun], run[..at], false)
  }

  /** At a stop the commands from `unread` on were passed over, up to the one that resumed the execution. */
  ghost predicate ResumedBy(agents: set<string>, commands: seq<Command>, run: seq<Snapshot>, at: nat, unread: nat, r: Resume) {
    && 0 < at <= r.at <= |run| && unread <= r.position < |commands|
    && (forall k :: unread <= k < r.position ==> Passed(commands[k], run[at - 1].steps, run[at - 1].results))
    && Obeyed(agents, commands[r.position], run[at - 1].steps, run[at - 1].results, run[..at],
              run[r.at - 1].steps, run[r.at - 1].results, run[..r.at])
  }

  /** The whole session: every stretch of the run is one call of Execute, and between two of them exactly one command was
      obeyed. */
  ghost predicate Account(agents: set<string>, commands: seq<Command>, run: seq<Snapshot>, stops: seq<Stop>, resumes: seq<Resume>) {
    && |resumes| <= |stops| <= |resumes| + 1
    && (forall n :: 0 <= n < |stops| ==> Executed(run, Begun(resumes, n), stops[n].at))
    && (forall n :: 0 <= n < |resumes| ==> ResumedBy(agents, commands, run, stops[n].at, Unread(resumes, n), resumes[n]))
  }

  lemma ExecutedStays(a: seq<Snapshot>, b: seq<Snapshot>, begun: nat, at: nat)
    requires a <= b && Executed(a, begun, at)
    ensures Executed(b, begun, at)
  {
    assert b[..begun] == a[..begun] && b[..at] == a[..at];
  }

  lemma ResumedStays(agents: set<string>, commands: seq<Command>, a: seq<Snapshot>, b: seq<Snapshot>, at: nat, unread: nat, r: Resume)
    requires a <= b && ResumedBy(agents, commands, a, at, unread, r)
    ensures ResumedBy(agents, commands, b, at, unread, r)
  {
    hide Obeyed, Passed;
    assert b[..r.at] == a[..r.at] && b[..at] == a[..at];
  }

  lemma AccountStopped(agents: set<string>, commands: seq<Command>, a: seq<Snapshot>, b: seq<Snapshot>, stops: seq<Stop>,
                       resumes: seq<Resume>, r: ExecResult)
    requires Account(agents, commands, a, stops, resumes) && |stops| == |resumes|
    requires 0 < |a| == Begun(resumes, |resumes|) && HandsBack(a, b, false)
    ensures Account(agents, commands, b, stops + [Stop(|b|, r)], resumes)
  {
    PrefixOf(a, b);
    WholeExecuted(a, b);
    AccountStays(agents, commands, a, b, stops, resumes);
    hide Executed, ResumedBy, HandsBack, Begun, Unread;
  }

  lemma PrefixOf(a: seq<Snapshot>, b: seq<Snapshot>)
    requires HandsBack(a, b, false)
    ensures a <= b && |a| < |b|
  {
    assert b[..|b| - 1][..|a|] == a;
  }

  lemma WholeExecuted(a: seq<Snapshot>, b: seq<Snapshot>)
    requires HandsBack(a, b, false) && |a| > 0
    ensures Executed(b, |a|, |b|)
  {
    PrefixOf(a, b);
    hide HandsBack;
    assert b[..|a|] == a && b[..|b|] == b;
  }

  lemma AccountResumed(agents: set<string>, commands: seq<Command>, a: seq<Snapshot>, b: seq<Snapshot>, stops: seq<Stop>,
                       resumes: seq<Resume>, next: nat)
    requires Account(agents, commands, a, stops, resumes) && |stops| == |resumes| + 1
    requires 0 < |a| == stops[|resumes|].at && a <= b && Unread(resumes, |resumes|) <= next < |commands|
    requires forall k :: Unread(resumes, |resumes|) <= k < next ==> Passed(commands[k], a[|a| - 1].steps, a[|a| - 1].results)
    requires Obeyed(agents, commands[next], a[|a| - 1].steps, a[|a| - 1].results, a, b[|b| - 1].steps, b[|b| - 1].results, b)
    ensures Account(agents, commands, b, stops, resumes + [Resume(next, |b|)])
  {
    var all := resumes + [Resume(next, |b|)];
    hide *;
    NewResume(agents, commands, a, b, Unread(resumes, |resumes|), next);
    AccountStays(agents, commands, a, b, stops, resumes);
    AccountSnoc(agents, commands, b, stops, resumes, Resume(next, |b|));
  }

  lemma AccountSnoc(agents: set<string>, commands: seq<Command>, run: seq<Snapshot>, stops: seq<Stop>, resumes: seq<Resume>, r: Resume)
    requires Account(agents, commands, run, stops, resumes) && |stops| == |resumes| + 1
    requires ResumedBy(agents, commands, run, stops[|resumes|].at, Unread(resumes, |resumes|), r)
    ensures Account(agents, commands, run, stops, resumes + [r])
  {
    hide Executed, ResumedBy, Begun, Unread;
    var all := resumes + [r];
    forall n | 0 <= n < |stops| ensures Executed(run, Begun(all, n), stops[n].at) {
      SameBegun(resumes, r, n);
    }
    forall n | 0 <= n < |all| ensures ResumedBy(agents, commands, run, stops[n].at, Unread(all, n), all[n]) {
      SameBegun(resumes, r, n);
    }
  }

  lemma SameBegun(resumes: seq<Resume>, r: Resume, n: nat)
    requires n <= |resumes|
    ensures Begun(resumes + [r], n) == Begun(resumes, n) && Unread(resumes + [r], n) == Unread(resumes, n)
  {
  }

  lemma AccountStays(agents: set<string>, commands: seq<Command>, a: seq<Snapshot>, b: seq<Snapshot>, stops: seq<Stop>,
                     resumes: seq<Resume>)
    requires Account(agents, commands, a, stops, resumes) && a <= b
    ensures Account(agents, commands, b, stops, resumes)
  {
    hide Executed, ResumedBy;
    forall n | 0 <= n < |stops| ensures Executed(b, Begun(resumes, n), stops[n].at) {
      ExecutedStays(a, b, Begun(resumes, n), stops[n].at);
    }
    forall n | 0 <= n < |resumes| ensures ResumedBy(agents, commands, b, stops[n].at, Unread(resumes, n), resumes[n]) {
      ResumedStays(agents, commands, a, b, stops[n].at, Unread(resumes, n), resumes[n]);
    }
  }

  lemma NewResume(agents: set<string>, commands: seq<Command>, a: seq<Snapshot>, b: seq<Snapshot>, unread: nat, next: nat)
    requires 0 < |a| && a <= b && unread <= next < |commands|
    requires forall k :: unread <= k < next ==> Passed(commands[k], a[|a| - 1].steps, a[|a| - 1].results)
    requires Obeyed(agents, commands[next], a[|a| - 1].steps, a[|a| - 1].results, a, b[|b| - 1].steps, b[|b| - 1].results, b)
    ensures ResumedBy(agents, commands, b, |a|, unread, Resume(next, |b|))
  {
    hide Passed, Obeyed;
    assert b[..|a|] == a && b[..|b|] == b;
  }

  /** The session is about to call Execute; `next` is the first command not read. */
  ghost predicate Going(agents: set<string>, commands: seq<Command>, first: Snapshot, run: seq<Snapshot>, stops: seq<Stop>,
                        resumes: seq<Resume>, next: nat)
  {
    && run != [] && run[0] == first && Stops(run, stops) && (forall n :: 0 <= n < |stops| ==> Paused(stops[n].result))
    && Account(agents, commands, run, stops, resumes) && |stops| == |resumes|
    && |run| == Begun(resumes, |resumes|) && next == Unread(resumes, |resumes|)
  }

  /** Execute has come back. */
  ghost predicate Halted(agents: set<string>, commands: seq<Command>, first: Snapshot, run: seq<Snapshot>, stops: seq<Stop>,
                         resumes: seq<Resume>, next: nat)
  {
    && run != [] && run[0] == first && Stops(run, stops)
    && (forall n :: 0 <= n < |stops| - 1 ==> Paused(stops[n].result))
    && Account(agents, commands, run, stops, resumes) && |stops| == |resumes| + 1
    && |run| == stops[|resumes|].at && next == Unread(resumes, |resumes|)
  }

  lemma NothingYet(agents: set<string>, commands: seq<Command>, run: seq<Snapshot>)
    requires |run| == 1 && run[0].event == Created
    ensures Going(agents, commands, run[0], run, [], [], 0)
  {
  }

  lemma GoingStops(agents: set<string>, commands: seq<Command>, first: Snapshot, a: seq<Snapshot>, b: seq<Snapshot>,
                   stops: seq<Stop>, resumes: seq<Resume>, next: nat, r: ExecResult)
    requires Going(agents, commands, first, a, stops, resumes, next) && HandsBack(a, b, false)
    ensures Halted(agents, commands, first, b, stops + [Stop(|b|, r)], resumes, next)
  {
    PrefixOf(a, b);
    assert Stops(a, stops) && Account(agents, commands, a, stops, resumes) && |stops| == |resumes| by {
      hide Stops, Account, HandsBack;
    }
    assert |a| == Begun(resumes, |resumes|) && forall n :: 0 <= n < |stops| ==> Paused(stops[n].result) by {
      hide Stops, Account, HandsBack;
    }
    hide *;
    StopsExecuted(a, b, stops, r);
    AccountStopped(agents, commands, a, b, stops, resumes, r);
    BeHalted(agents, commands, first, a, b, stops, resumes, next, Stop(|b|, r));
  }

  lemma BeHalted(agents: set<string>, commands: seq<Command>, first: Snapshot, a: seq<Snapshot>, b: seq<Snapshot>,
                 stops: seq<Stop>, resumes: seq<Resume>, next: nat, stop: Stop)
    requires Going(agents, commands, first, a, stops, resumes, next) && a <= b && stop.at == |b|
    requires Stops(b, stops + [stop]) && Account(agents, commands, b, stops + [stop], resumes)
    ensures Halted(agents, commands, first, b, stops + [stop], resumes, next)
  {
    hide Stops, Account;
  }

  lemma BeGoing(agents: set<string>, commands: seq<Command>, first: Snapshot, a: seq<Snapshot>, b: seq<Snapshot>,
                stops: seq<Stop>, resumes: seq<Resume>, unread: nat, r: Resume)
    requires Halted(agents, commands, first, a, stops, resumes, unread) && a <= b && r.at == |b|
    requires |stops| > 0 && Paused(stops[|stops| - 1].result)
    requires Stops(b, stops) && Account(agents, commands, b, stops, resumes + [r])
    ensures Going(agents, commands, first, b, stops, resumes + [r], r.position + 1)
  {
    hide Stops, Account;
  }

  lemma ObeyedRun(agents: set<string>, command: Command, steps0: seq<StepDef>, results0: Results, run0: seq<Snapshot>,
                  steps: seq<StepDef>, results: Results, run: seq<Snapshot>)
    requires Obeyed(agents, command, steps0, results0, run0, steps, results, run)
    ensures run == run0 || (|run| > 0 && run == run0 + [run[|run| - 1]] && run[|run| - 1].event != Returned)
    ensures run0 <= run
  {
    hide RetryAccepted, IsFirstFailed, ValidPlan, IsAffected;
  }

  lemma HaltedResumes(agents: set<string>, commands: seq<Command>, first: Snapshot, a: seq<Snapshot>, state: PlanState,
                      stops: seq<Stop>, resumes: seq<Resume>, unread: nat, next: nat)
    requires Halted(agents, commands, first, a, stops, resumes, unread) && unread <= next < |commands|
    requires |stops| > 0 && Paused(stops[|stops| - 1].result) && a != [] && state.run != []
    requires var b := state.run; b[|b| - 1].steps == state.steps && b[|b| - 1].results == state.results
    requires forall k :: unread <= k < next ==> Passed(commands[k], a[|a| - 1].steps, a[|a| - 1].results)
    requires Obeyed(agents, commands[next], a[|a| - 1].steps, a[|a| - 1].results, a, state.steps, state.results, state.run)
    ensures Going(agents, commands, first, state.run, stops, resumes + [Resume(next, |state.run|)], next + 1)
  {
    hide *;
    var b := state.run;
    ObeyedRun(agents, commands[next], a[|a| - 1].steps, a[|a| - 1].results, a, state.steps, state.results, b);
    HaltedParts(agents, commands, first, a, stops, resumes, unread);
    StopsResumed(a, b, stops);
    AccountResumed(agents, commands, a, b, stops, resumes, next);
    BeGoing(agents, commands, first, a, b, stops, resumes, unread, Resume(next, |b|));
  }

  lemma HaltedParts(agents: set<string>, commands: seq<Command>, first: Snapshot, run: seq<Snapshot>, stops: seq<Stop>,
                    resumes: seq<Resume>, next: nat)
    requires Halted(agents, commands, first, run, stops, resumes, next)
    ensures run != [] && run[0] == first && Stops(run, stops) && |stops| == |resumes| + 1
    ensures Account(agents, commands, run, stops, resumes) && stops[|stops| - 1].at == |run|
    ensures next == Unread(resumes, |resumes|) && forall n :: 0 <= n < |stops| - 1 ==> Paused(stops[n].result)
  {
    hide Stops, Account;
  }

  class PlanSession {
    const agents: set<string>
    var currentDef: Option<PlanDef>
    var running: bool

    ghost predicate Valid()
      reads this`currentDef
    {
      currentDef.Some? ==> ValidPlan(currentDef.value.steps, agents)
    }

    /** The plan state of an execution that is paused or about to go on. */
    ghost predicate Ready(state: PlanState)
      reads this`currentDef, state`run, state`steps, state`results
    {
      && Valid() && state.Valid(agents) && Resumable(state) && Manual(state.run)
      && currentDef.Some? && currentDef.value.steps == state.steps
    }

    constructor (agents: set<string>)
      ensures Valid() && this.agents == agents && currentDef == None && !running
    {
      this.agents, currentDef, running := agents, None, false;
    }

    /** Replaces the plan by a user-edited one, if it is valid, small enough, and nothing is running. */
    method UpdatePlan(def: PlanDef) returns (ok: bool)
      requires Valid()
      modifies this`currentDef
      ensures Valid()
      ensures ok <==> ValidPlan(def.steps, agents) && |def.steps| <= 20 && !running
      ensures currentDef == if ok then Some(def) else old(currentDef)
    {
      hide ValidPlan;
      var errs := Validate(def, agents);
      if errs != [] || |def.steps| > MAX_STEPS || running {
        return false;
      }
      currentDef := Some(def);
      ok := true;
    }

    /** Executes the current plan, pausing and resuming as the user commands. The first `used` commands are consumed. */
    method ExecutePlan(commands: seq<Command>)
      returns (state: PlanState?, r: SessionResult, ghost stops: seq<Stop>, ghost resumes: seq<Resume>, ghost used: nat)
      requires Valid()
      modifies this
      ensures Valid() && running == old(running)
      ensures r == Refused <==> old(running) || old(currentDef) == None
      ensures r == Refused <==> state == null
      ensures r != Refused ==> fresh(state) && state.Valid(agents) && Manual(state.run)
      // control came back exactly at the stops, all of them pauses but the last of a session that ended by itself
      ensures r != Refused ==> Stops(state.run, stops) && stops != [] && stops[|stops| - 1].at == |state.run|
      // the run begins with the session's plan; each stretch is one call of Execute, and one command was obeyed in between
      ensures r != Refused ==> state.run[0].steps == old(currentDef).value.steps
      ensures r != Refused ==> Account(agents, commands, state.run, stops, resumes) && |stops| == |resumes| + 1
      // the commands read last, if any, were passed over or ended the session
      ensures r != Refused ==> Unread(resumes, |resumes|) <= used <= |commands|
      ensures r.Ended? ==> used == Unread(resumes, |resumes|)
      ensures r == Abandoned || r == IdsCollide ==>
                forall k :: Unread(resumes, |resumes|) <= k < used - 1 ==> Passed(commands[k], state.steps, state.results)
      ensures r.Ended? ==> stops[|stops| - 1] == Stop(|state.run|, r.result) && !Paused(r.result)
      ensures r == Abandoned || r == IdsCollide ==> Paused(stops[|stops| - 1].result)
      ensures r == Abandoned ==> used == |commands| || (used > 0 && commands[used - 1] == Cancel)
      ensures r == IdsCollide ==> used > 0 && commands[used - 1] == Replan
      ensures r.Ended? && r.result.PlanCompleted? ==>
                (EveryStepDone(state.steps, state.results) <==> AgentsKnown(state.steps, agents))
      ensures r.Ended? && r.result.PlanCompleted? && agents != {} ==> EveryStepDone(state.steps, state.results)
    {
      hide *;
      state, stops, resumes, used := null, [], [], 0;
      if running || currentDef == None {
        return state, Refused, stops, resumes, used;
      }
      DefinitionSound();
      running := true;
      var cfg := Config(agents, 0, 8, false);
      var st := new PlanState(currentDef.value);
      state := st;
      FreshReady(st);
      NothingYet(agents, commands, st.run);
      ghost var first := st.run[0];
      var next := 0;
      while true
        invariant Ready(st) && running && next <= |commands| && cfg == Config(agents, 0, 8, false)
        invariant fresh(st) && st == state
        invariant Going(agents, commands, first, st.run, stops, resumes, next)
        decreases |commands| - next
      {
        ghost var run := st.run;
        ReadyParts(st);
        var res, _, _, _ := Execute(cfg, st, false);
        ManualExecuted(run, st.run);
        BeReady(st);
        LastIsState(st);
        GoingStops(agents, commands, first, run, st.run, stops, resumes, next, res);
        stops := stops + [Stop(|st.run|, res)];
        used := next;
        if !res.GatePause? && !res.FailurePause? {
          running := false;
          KnownAgents(st);
          NotPaused(res);
          StillValid(st);
          HaltedParts(agents, commands, first, st.run, stops, resumes, next);
          return state, Ended(res), stops, resumes, used;
        }
        PausedIs(res);
        run := st.run;
        var outcome;
        outcome, next := Await(commands, next, st);
        if outcome != Resumed {
          running := false;
          StillValid(st);
          HaltedParts(agents, commands, first, st.run, stops, resumes, used);
          return state, if outcome == Collided then IdsCollide else Abandoned, stops, resumes, next;
        }
        LastIsState(st);
        HaltedResumes(agents, commands, first, run, st, stops, resumes, used, next - 1);
        resumes := resumes + [Resume(next - 1, |st.run|)];
      }
    }

    /** Waits for a command that resumes the execution, and applies it. Commands before it are passed over. */
    method Await(commands: seq<Command>, start: nat, state: PlanState) returns (outcome: Resumption, next: nat)
      requires start <= |commands| && Ready(state)
      modifies this`currentDef, state
      ensures start <= next <= |commands| && Ready(state)
      ensures forall k :: start <= k < next - 1 ==> Passed(commands[k], old(state.steps), old(state.results))
      ensures outcome == Resumed ==> start < next && Obeyed(agents, commands[next - 1], old(state.steps), old(state.results),
                                                            old(state.run), state.steps, state.results, state.run)
      ensures outcome != Resumed ==>
                state.run == old(state.run) && state.steps == old(state.steps) && state.results == old(state.results)
      ensures outcome == GaveUp ==> next == |commands| || (start < next && commands[next - 1] == Cancel)
      ensures outcome == Collided ==> start < next && commands[next - 1] == Replan
    {
      hide *;
      next := start;
      while next < |commands|
        invariant start <= next <= |commands| && Ready(state)
        invariant state.run == old(state.run) && state.steps == old(state.steps) && state.results == old(state.results)
        invariant forall k :: start <= k < next ==> Passed(commands[k], state.steps, state.results)
      {
        var command := commands[next];
        next := next + 1;
        match command {
          case Cancel =>
            return GaveUp, next;
          case Retry(stepID) =>
            var ok := ApplyRetry(stepID, state);
            if ok { return Resumed, next; }
          case Replan =>
            ghost var planned;
            outcome, planned := ApplyReplan(state);
            if outcome != GaveUp { return outcome, next; }
        }
        PassedIs(command, state.steps, state.results);
      }
      outcome := GaveUp;
    }

    /** Retries a step, if it is one that can be retried. */
    method ApplyRetry(stepID: Id, state: PlanState) returns (ok: bool)
      requires Ready(state)
      modifies state
      ensures Ready(state)
      ensures ok <==> RetryAccepted(old(state.steps), old(state.results), stepID)
      ensures ok ==> Obeyed(agents, Retry(stepID), old(state.steps), old(state.results), old(state.run),
                            state.steps, state.results, state.run)
      ensures !ok ==> state.steps == old(state.steps) && state.results == old(state.results) && state.run == old(state.run)
    {
      hide ValidPlan, IsRun;
      if stepID !in state.results {
        return false;
      }
      var isGate := exists s :: s in currentDef.value.steps && s.id == stepID && s.gate;
      var status := state.results[stepID].status;
      if status != Failed && !(isGate && status == Done) {
        return false;
      }
      if status != Done {
        state.Reset(agents, stepID);
      }
      ok := true;
    }

    /** Replans the first failed step with the planner's answer `planned`. The planner validates the replacement on its
        own; the merged plan is not validated again, and is valid if no surviving id is reused. */
    method ApplyReplan(state: PlanState) returns (outcome: Resumption, ghost planned: seq<StepDef>)
      requires Ready(state)
      modifies this`currentDef, state
      ensures Ready(state)
      ensures outcome == GaveUp <==>
                (forall id :: !IsFirstFailed(old(state.steps), old(state.results), id)) || !ValidPlan(planned, agents)
      ensures outcome == Collided ==> Collides(old(state.steps), old(state.results), planned)
      ensures outcome == Resumed ==> Obeyed(agents, Replan, old(state.steps), old(state.results), old(state.run),
                                            state.steps, state.results, state.run)
      ensures outcome == Resumed ==> state.run[|state.run| - 1].event.newSteps == planned && ValidPlan(state.steps, agents)
      ensures outcome == Resumed ==> state.replanCount == old(state.replanCount) + 1
      ensures outcome != Resumed ==>
                state.steps == old(state.steps) && state.results == old(state.results) && state.run == old(state.run)
      ensures outcome == Resumed ==> forall id :: IsDone(old(state.results), id) ==>
                id in state.results && state.results[id] == old(state.results)[id]
    {
      hide IsRun, Sound, ValidPlan, IsAffected, Survivors, Ids, FirstFailed, HandsBack, Collides;
      planned := [];
      var failed := FindFailed(currentDef.value.steps, state.results);
      if failed == None {
        NoneFirstFailed(state.steps, state.results);
        return GaveUp, planned;
      }
      var affected := AffectedSteps(state.steps, failed.value);
      var newSteps: seq<StepDef> := *;
      planned := newSteps;
      var errs := Validate(PlanDef(currentDef.value.goal, newSteps), agents);
      if errs != [] {
        return GaveUp, planned;
      }
      MergeValidIff(state.steps, newSteps, agents, failed.value, affected);
      var merged := MergeSteps(state.steps, affected, newSteps);
      if !(Ids(Survivors(state.steps, affected)) !! Ids(newSteps)) {
        CollidesIs(state.steps, state.results, newSteps, failed.value, affected);
        return Collided, planned;
      }
      ValidForAnyAgents(merged, agents);
      DoneUnaffected(agents, state, failed.value, affected);
      state.ReplacePlan(agents, false, failed.value, affected, newSteps, merged);
      assert Manual(state.run);
      currentDef := Some(PlanDef(currentDef.value.goal, merged));
      state.replanCount := state.replanCount + 1;
      outcome := Resumed;
    }

    lemma DefinitionSound()
      requires Valid() && currentDef != None
      ensures currentDef.Some? && Sound(currentDef.value.steps)
    {
      ValidForAnyAgents(currentDef.value.steps, agents);
    }

    lemma FreshReady(state: PlanState)
      requires Valid() && currentDef.Some? && currentDef.value.steps == state.steps && state.Valid(agents)
      requires state.results == map[] && |state.run| == 1 && state.run[0].event == Created && state.Held() == {}
      ensures Ready(state) && state.run[0].steps == state.steps
    {
      hide IsRun, ValidPlan;
    }

    lemma LastIsState(state: PlanState)
      requires Ready(state)
      ensures |state.run| > 0
      ensures state.run[|state.run| - 1].steps == state.steps && state.run[|state.run| - 1].results == state.results
    {
      hide ValidPlan, Next;
    }

    lemma ReadyParts(state: PlanState)
      requires Ready(state)
      ensures state.Valid(agents) && Resumable(state) && Manual(state.run) && Valid()
      ensures currentDef.Some? && currentDef.value.steps == state.steps
    {
      hide IsRun, ValidPlan;
    }

    lemma BeReady(state: PlanState)
      requires Valid() && state.Valid(agents) && Resumable(state) && Manual(state.run)
      requires currentDef.Some? && currentDef.value.steps == state.steps
      ensures Ready(state)
    {
    }

    lemma StillValid(state: PlanState)
      requires Ready(state)
      ensures Valid() && state.Valid(agents) && Manual(state.run)
    {
      hide IsRun, ValidPlan;
    }

    lemma KnownAgents(state: PlanState)
      requires Ready(state)
      ensures agents != {} ==> AgentsKnown(state.steps, agents)
    {
      hide IsRun, Acyclic;
    }
  }

  datatype Resumption = Resumed | GaveUp | Collided

  lemma NotPaused(r: ExecResult)
    requires !r.GatePause? && !r.FailurePause?
    ensures !Paused(r)
  {
  }

  lemma PausedIs(r: ExecResult)
    requires r.GatePause? || r.FailurePause?
    ensures Paused(r)
  {
  }

  lemma PassedIs(command: Command, steps: seq<StepDef>, results: Results)
    requires command != Cancel && (command.Retry? ==> !RetryAccepted(steps, results, command.stepID))
    ensures Passed(command, steps, results)
  {
  }

  lemma CollidesIs(steps: seq<StepDef>, results: Results, newSteps: seq<StepDef>, id: Id, affected: set<Id>)
    requires IsFirstFailed(steps, results, id) && IsAffected(steps, id, affected)
    requires !(Ids(Survivors(steps, affected)) !! Ids(newSteps))
    ensures Collides(steps, results, newSteps)
  {
  }

  lemma NoneFirstFailed(steps: seq<StepDef>, results: Results)
    requires forall id :: id in Ids(steps) ==> !HasStatus(results, id, Failed)
    ensures forall id :: !IsFirstFailed(steps, results, id)
  {
    forall n: nat | n < |steps| ensures !FirstFailed(steps, results, n) {
      assert steps[n] in steps;
    }
  }

  lemma DoneUnaffected(agents: set<string>, state: PlanState, failedID: Id, affected: set<Id>)
    requires state.Valid(agents) && HasStatus(state.results, failedID, Failed) && IsAffected(state.steps, failedID, affected)
    ensures forall id :: IsDone(state.results, id) ==> id !in affected
  {
    hide IsRun, Sound, IsAffected, Next;
    LastIsSafe(agents, state.run);
    forall id | id in affected ensures !IsDone(state.results, id) {
      AffectedNotDone(state.run[|state.run| - 1], failedID, affected, id);
    }
  }
}
