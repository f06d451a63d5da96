/** Runs built write by write: a gate passed by under automatic replanning, and what comes of replacing a plan without
    validating the result. */
module PlanRuns {
  import opened Graphs
  import opened PlanModel
  import opened Replanning
  import opened PlanTrace
  import opened Executor

  // ----- runs of writes -----

  ghost predicate Writes(agents: set<string>, run: seq<Snapshot>) {
    forall i, j :: 0 <= i && j == i + 1 && j < |run| ==> Write(agents, run[i], run[j])
  }

  /** A run whose plan may be replaced by anything. */
  ghost predicate IsWriteRun(agents: set<string>, run: seq<Snapshot>) {
    |run| > 0 && Begins(run[0]) && Writes(agents, run)
  }

  lemma WritesConcat(agents: set<string>, a: seq<Snapshot>, b: seq<Snapshot>)
    requires a != [] && b != [] && Writes(agents, a) && Writes(agents, b) && Write(agents, a[|a| - 1], b[0])
    ensures Writes(agents, a + b)
  {
    hide Write;
    var run := a + b;
    forall i, j | 0 <= i && j == i + 1 && j < |run| ensures Write(agents, run[i], run[j]) {
      if j < |a| {
        assert Write(agents, a[i], a[j]);
      } else if i >= |a| {
        assert Write(agents, b[i - |a|], b[j - |a|]);
      }
    }
  }

  ghost predicate SoundAfter(run: seq<Snapshot>, k: nat) {
    k < |run| && run[k].event.Replanned? ==> Sound(run[k].steps)
  }

  lemma RunIff(agents: set<string>, run: seq<Snapshot>)
    ensures IsRun(agents, run) <==> IsWriteRun(agents, run) && forall k: nat :: SoundAfter(run, k)
  {
    hide Write, Sound;
    if IsRun(agents, run) {
      forall k: nat ensures SoundAfter(run, k) {
        if 0 < k < |run| {
          assert Next(agents, run[k - 1], run[k]);
        }
      }
    } else if IsWriteRun(agents, run) {
      var i, j :| 0 <= i && j == i + 1 && j < |run| && !Next(agents, run[i], run[j]);
      assert Write(agents, run[i], run[j]);
      assert !SoundAfter(run, j);
    }
  }

  // ----- single writes -----

  lemma Prepare(agents: set<string>, s: Snapshot) returns (t: Snapshot)
    ensures Write(agents, s, t) && t.event == Prepared && t.steps == s.steps && t.held == s.held
    ensures t.results.Keys == s.results.Keys + Ids(s.steps)
    ensures forall id :: id in t.results ==> t.results[id] == if id in s.results then s.results[id] else FRESH
  {
    t := s.(event := Prepared,
            results := map id | id in s.results.Keys + Ids(s.steps) :: if id in s.results then s.results[id] else FRESH);
  }

  ghost predicate MayStart(s: Snapshot, id: Id) {
    && id in Ids(s.steps) && (HasStatus(s.results, id, Pending) || HasStatus(s.results, id, Failed))
    && DepsDone(s.steps, s.results, id) && forall g :: g in s.held ==> !Reaches(GraphOf(s.steps), id, g)
  }

  /** Only the result of the step has changed. */
  predicate OnlyResult(s: Snapshot, t: Snapshot, id: Id, status: StepStatus) {
    && t.steps == s.steps && t.results.Keys == s.results.Keys && HasStatus(t.results, id, status)
    && forall x :: x in s.results && x != id ==> t.results[x] == s.results[x]
  }

  lemma Start(agents: set<string>, s: Snapshot, id: Id) returns (t: Snapshot)
    requires MayStart(s, id)
    ensures Write(agents, s, t) && t.event.Started? && t.event.id == id && t.held == s.held && t.steps == s.steps
    ensures OnlyResult(s, t, id, Running)
  {
    hide StepContextOf, GraphOf, Reaches, DepsDone;
    t := s.(event := Started(id, StepContextOf(s.steps, s.results, id)),
            results := s.results[id := s.results[id].(status := Running)]);
    assert t.results == s.results[id := s.results[id].(status := Running, retries := s.results[id].retries)];
  }

  /** A running step whose agent exists can finish in any way. */
  lemma Finish(agents: set<string>, s: Snapshot, id: Id, outcome: Outcome) returns (t: Snapshot)
    requires id in Ids(s.steps) && HasStatus(s.results, id, Running) && FindStep(s.steps, id).agent in agents
    ensures Write(agents, s, t) && t.event.Finished? && t.event.id == id && t.event.outcome == outcome
    ensures t.held == s.held + if outcome.Success? && FindStep(s.steps, id).gate then {id} else {}
    ensures OnlyResult(s, t, id, if outcome.Success? then Done else Failed)
  {
    hide StepContextOf, FindStep;
    t := Snapshot(Finished(id, StepContextOf(s.steps, s.results, id), outcome), s.steps,
                  s.results[id := Apply(s.results[id], outcome)],
                  s.held + if outcome.Success? && FindStep(s.steps, id).gate then {id} else {});
  }

  lemma Return(agents: set<string>, s: Snapshot) returns (t: Snapshot)
    ensures Write(agents, s, t) && t.event == Returned && t.steps == s.steps && t.results == s.results && t.held == {}
  {
    t := s.(event := Returned, held := {});
  }

  lemma Replace(agents: set<string>, s: Snapshot, auto: bool, failedID: Id, affected: set<Id>, newSteps: seq<StepDef>)
    returns (t: Snapshot)
    requires HasStatus(s.results, failedID, Failed) && Quiet(s.results) && IsAffected(s.steps, failedID, affected)
    ensures Write(agents, s, t) && t.event == Replanned(auto, failedID, affected, newSteps)
    ensures t.steps == Survivors(s.steps, affected) + newSteps && t.results == s.results - affected
    ensures t.held == if auto then {} else s.held
  {
    hide IsAffected, Survivors;
    t := Snapshot(Replanned(auto, failedID, affected, newSteps), Survivors(s.steps, affected) + newSteps,
                  s.results - affected, if auto then {} else s.held);
  }

  // ----- plans of two steps -----

  /** Two steps of which the second may depend on the first. */
  predicate Pair(a: StepDef, b: StepDef) {
    && a.id != "" && b.id != "" && a.id != b.id && a.agent != "" && b.agent != ""
    && a.dependsOn == [] && (b.dependsOn == [] || b.dependsOn == [a.id])
  }

  lemma PairEdges(a: StepDef, b: StepDef)
    requires Pair(a, b)
    ensures forall u, v :: Edge(GraphOf([a, b]), u, v) <==> u == b.id && v == a.id && b.dependsOn == [a.id]
  {
    var steps := [a, b];
    assert steps[1] == b && b in steps;
    forall u, v ensures Edge(GraphOf(steps), u, v) <==> u == b.id && v == a.id && b.dependsOn == [a.id] {
      EdgeIsDependency(steps, u, v);
    }
  }

  lemma PairValid(a: StepDef, b: StepDef, agents: set<string>)
    requires Pair(a, b) && (agents == {} || (a.agent in agents && b.agent in agents))
    ensures ValidPlan([a, b], agents) && Ids([a, b]) == {a.id, b.id}
  {
    var steps := [a, b];
    assert steps[0] == a && steps[1] == b && a in steps && b in steps;
    PairEdges(a, b);
    var rank: map<Id, int> := map[a.id := 0, b.id := 1];
    RankedIsAcyclic(GraphOf(steps), rank);
  }

  lemma PairReaches(a: StepDef, b: StepDef)
    requires Pair(a, b)
    ensures IsAffected([a, b], b.id, {b.id})
    ensures Reaches(GraphOf([a, b]), b.id, a.id) <==> b.dependsOn == [a.id]
  {
    hide GraphOf, Reaches, Edge;
    var g := GraphOf([a, b]);
    PairEdges(a, b);
    ReachesSelf(g, b.id);
    forall x | Reaches(g, x, b.id) ensures x == b.id {
      if x != b.id { var y := ReachesFirstEdge(g, x, b.id); }
    }
    if Reaches(g, b.id, a.id) {
      var y := ReachesFirstEdge(g, b.id, a.id);
    } else if b.dependsOn == [a.id] {
      EdgeReaches(g, b.id, a.id);
    }
  }

  lemma PairSteps(a: StepDef, b: StepDef)
    requires Pair(a, b)
    ensures FindStep([a, b], a.id) == a && FindStep([a, b], b.id) == b && Survivors([a, b], {b.id}) == [a]
    ensures forall results :: DepsDone([a, b], results, a.id)
    ensures forall results :: (b.dependsOn == [] || IsDone(results, a.id)) ==> DepsDone([a, b], results, b.id)
  {
    var steps := [a, b];
    assert steps[..1] == [a] && [a][..0] == [];
    assert Survivors([], {b.id}) == [] && Survivors([a], {b.id}) == [a];
    assert steps[1..] == [b];
  }

  /** Both steps are attempted in one pass; the first succeeds and the second fails. */
  lemma PairRun(agents: set<string>, a: StepDef, b: StepDef) returns (run: seq<Snapshot>)
    requires Pair(a, b) && a.agent in agents && b.agent in agents && (a.gate ==> b.dependsOn == [])
    ensures IsWriteRun(agents, run) && |run| == 6 && run[5].steps == [a, b]
    ensures run[5].results.Keys == {a.id, b.id} && run[5].held == if a.gate then {a.id} else {}
    ensures IsDone(run[5].results, a.id) && HasStatus(run[5].results, b.id, Failed)
    ensures IsDone(run[3].results, a.id) && (a.gate ==> GateFinishes(run, 3, a.id))
    ensures forall k :: 0 <= k < 6 ==> !run[k].event.Returned? && !run[k].event.Replanned?
  {
    hide *;
    var s0 := Snapshot(Created, [a, b], map[], {});
    PairBegins(a, b);
    var s1 := Prepare(agents, s0);
    PairStarts(a, b, s1);
    var s2 := Start(agents, s1, a.id);
    StillRunning(s1, s2, a.id);
    var s3 := Finish(agents, s2, a.id, Success(Payload("", "", NO_USAGE)));
    PairContinues(a, b, s1, s2, s3);
    var s4 := Start(agents, s3, b.id);
    StillRunning(s3, s4, b.id);
    var s5 := Finish(agents, s4, b.id, Permanent(""));
    PairEnds(a, b, s3, s4, s5);
    run := [s0, s1, s2, s3, s4, s5];
    SixWrites(agents, s0, s1, s2, s3, s4, s5);
    IsGateRun(run, a);
    RunOfWrites(agents, run);
  }

  lemma PairBegins(a: StepDef, b: StepDef)
    requires Pair(a, b)
    ensures Begins(Snapshot(Created, [a, b], map[], {}))
    ensures FindStep([a, b], a.id) == a && FindStep([a, b], b.id) == b && Ids([a, b]) == {a.id, b.id}
  {
    PairValid(a, b, {});
    PairSteps(a, b);
    hide FindStep, ValidPlan, Ids;
  }

  lemma PairStarts(a: StepDef, b: StepDef, s: Snapshot)
    requires Pair(a, b) && s.steps == [a, b] && s.held == {} && s.results.Keys == Ids([a, b])
    requires forall id :: id in s.results ==> s.results[id] == FRESH
    ensures s.results.Keys == {a.id, b.id} && MayStart(s, a.id)
  {
    PairValid(a, b, {});
    PairSteps(a, b);
    hide GraphOf, Reaches, FindStep, DepsDone, ValidPlan, Ids;
  }

  lemma StillRunning(s: Snapshot, t: Snapshot, id: Id)
    requires MayStart(s, id) && OnlyResult(s, t, id, Running)
    ensures t.steps == s.steps && id in Ids(t.steps) && HasStatus(t.results, id, Running)
  {
    hide Ids, DepsDone, Reaches, GraphOf;
  }

  lemma PairContinues(a: StepDef, b: StepDef, s1: Snapshot, s2: Snapshot, s3: Snapshot)
    requires Pair(a, b) && s1.steps == [a, b] && (a.gate ==> b.dependsOn == [])
    requires s1.results.Keys == {a.id, b.id} && s1.results[b.id] == FRESH
    requires OnlyResult(s1, s2, a.id, Running) && OnlyResult(s2, s3, a.id, Done)
    requires s3.held == {} + if a.gate then {a.id} else {}
    ensures MayStart(s3, b.id) && IsDone(s3.results, a.id) && s3.results.Keys == {a.id, b.id} && s3.steps == [a, b]
  {
    PairValid(a, b, {});
    PairSteps(a, b);
    PairReaches(a, b);
    hide GraphOf, Reaches, FindStep, DepsDone, ValidPlan, Ids;
  }

  lemma PairEnds(a: StepDef, b: StepDef, s3: Snapshot, s4: Snapshot, s5: Snapshot)
    requires Pair(a, b) && s3.results.Keys == {a.id, b.id} && IsDone(s3.results, a.id)
    requires OnlyResult(s3, s4, b.id, Running) && OnlyResult(s4, s5, b.id, Failed)
    ensures s5.steps == s3.steps && s5.results.Keys == {a.id, b.id}
    ensures IsDone(s5.results, a.id) && HasStatus(s5.results, b.id, Failed)
  {
  }

  lemma SixWrites(agents: set<string>, s0: Snapshot, s1: Snapshot, s2: Snapshot, s3: Snapshot, s4: Snapshot, s5: Snapshot)
    requires Write(agents, s0, s1) && Write(agents, s1, s2) && Write(agents, s2, s3) && Write(agents, s3, s4)
    requires Write(agents, s4, s5)
    ensures Writes(agents, [s0, s1, s2, s3, s4, s5])
  {
    hide Write;
  }

  lemma RunOfWrites(agents: set<string>, run: seq<Snapshot>)
    requires run != [] && Begins(run[0]) && Writes(agents, run)
    ensures IsWriteRun(agents, run)
  {
  }

  lemma IsGateRun(run: seq<Snapshot>, a: StepDef)
    requires 3 < |run| && run[3].event.Finished? && run[3].event.id == a.id && run[3].event.outcome.Success?
    requires FindStep(run[3].steps, a.id) == a
    ensures a.gate ==> GateFinishes(run, 3, a.id)
  {
  }

  // ----- gates under automatic replanning -----

  function PlainStep(id: Id, agent: string, deps: seq<Id>): StepDef {
    StepDef(id, agent, "", deps, false, false, 0)
  }

  /** A gate g and a step f are attempted together and f fails. The plan is replaced automatically by g and a step d that
      depends on it, and d starts although control has never been back with the caller. */
  lemma GateSkipped(agents: set<string>, agent: string) returns (run: seq<Snapshot>)
    requires agent in agents && agent != ""
    ensures IsRun(agents, run) && |run| == 9
    ensures GateFinishes(run, 3, "g") && HasStatus(run[5].results, "f", Failed)
    ensures run[6].event == Replanned(true, "f", {"f"}, [PlainStep("d", agent, ["g"])])
    ensures DependentStarts(run, 8, "g")
    ensures forall k :: 0 <= k < 9 ==> run[k].event != Returned
  {
    hide *;
    var g, f := StepDef("g", agent, "", [], false, true, 0), PlainStep("f", agent, []);
    var d := PlainStep("d", agent, ["g"]);
    GatePairs(g, f, d, agent);
    var first := PairRun(agents, g, f);
    var s5 := first[5];
    FailedIsQuiet(g, f, s5);
    PairReaches(g, f);
    var s6 := Replace(agents, s5, true, f.id, {f.id}, [d]);
    OneReplaced(g, f, d, s5, s6);
    var s7 := Prepare(agents, s6);
    SecondStarts(g, d, s6, s7);
    var s8 := Start(agents, s7, d.id);
    PairReaches(g, d);
    ThreeWrites(agents, s6, s7, s8);
    run := first + [s6, s7, s8];
    JoinRuns(agents, first, [s6, s7, s8]);
    assert run[8].steps == [g, d] && run[8].event.Started?;
    PairValid(g, d, {});
    SoundAfterAll(run, 6);
    RunIff(agents, run);
    GateStays(first, [s6, s7, s8], 3, g.id);

    DependentIs(run, 8, g, d);
  }

  /** Exactly when gates keep their promise in every run: without automatic replanning, or when no agent can finish a
      step. Plans name no agent by the empty string. */
  lemma GatesHoldIff(agents: set<string>, auto: bool)
    ensures (forall run :: IsRun(agents, run) && (auto || Manual(run)) ==> GatesHold(run)) <==> !auto || agents <= {""}
  {
    hide *;
    if !auto || agents <= {""} {
      forall run | IsRun(agents, run) && (auto || Manual(run)) ensures GatesHold(run) {
        if auto { NobodyFinishes(agents, run); } else { ManualGatesHold(agents, run); }
      }
    } else {
      var agent :| agent in agents && agent != "";
      var run := GateSkipped(agents, agent);
      Skipped(run, 3, 8, "g");
    }
  }

  lemma Skipped(run: seq<Snapshot>, i: nat, j: nat, g: Id)
    requires i < j && GateFinishes(run, i, g) && DependentStarts(run, j, g)
    requires forall k :: 0 <= k < |run| ==> run[k].event != Returned
    ensures !GatesHold(run)
  {
    hide GateFinishes, DependentStarts;
    assert !ReturnsBetween(run, i, j);
  }

  lemma NobodyFinishes(agents: set<string>, run: seq<Snapshot>)
    requires IsRun(agents, run) && agents <= {""}
    ensures GatesHold(run)
  {
    hide DependentStarts, Inv, Write, IsRun;
    forall i: nat, g ensures !GateFinishes(run, i, g) {
      if GateFinishes(run, i, g) {
        NobodyFinishesAt(agents, run, i);
      }
    }
  }

  lemma NobodyFinishesAt(agents: set<string>, run: seq<Snapshot>, i: nat)
    requires IsRun(agents, run) && agents <= {""} && i < |run|
    ensures !run[i].event.Finished?
  {
    hide Inv, Sound, StepContextOf, GraphOf, FindStep, Survivors;
    if run[i].event.Finished? {
      var s := run[i - 1];
      assert Next(agents, s, run[i]);
      RunIsDependencySafe(agents, run, i - 1);
      AgentNamed(agents, s, run[i].event.id);
    }
  }

  lemma AgentNamed(agents: set<string>, s: Snapshot, id: Id)
    requires Inv(agents, s) && id in Ids(s.steps)
    ensures FindStep(s.steps, id).agent != ""
  {
    hide FindStep;
    var x :| x in s.steps && x.id == id;
    SoundStep(s.steps, x);
  }

  lemma GatePairs(g: StepDef, f: StepDef, d: StepDef, agent: string)
    requires g == StepDef("g", agent, "", [], false, true, 0) && agent != ""
    requires f == PlainStep("f", agent, []) && d == PlainStep("d", agent, ["g"])
    ensures Pair(g, f) && Pair(g, d) && f.agent == agent && f.id == "f" && d.id == "d"
    ensures f.dependsOn == [] && d.dependsOn == [g.id]
  {
  }

  lemma FailedIsQuiet(a: StepDef, b: StepDef, s: Snapshot)
    requires s.results.Keys == {a.id, b.id} && IsDone(s.results, a.id) && HasStatus(s.results, b.id, Failed)
    ensures Quiet(s.results)
  {
  }

  lemma OneReplaced(a: StepDef, b: StepDef, c: StepDef, s: Snapshot, t: Snapshot)
    requires Pair(a, b) && s.steps == [a, b] && s.results.Keys == {a.id, b.id} && IsDone(s.results, a.id)
    requires t.steps == Survivors(s.steps, {b.id}) + [c] && t.results == s.results - {b.id}
    ensures t.steps == [a, c] && t.results.Keys == {a.id} && IsDone(t.results, a.id)
  {
    PairSteps(a, b);
    hide Survivors;
  }

  lemma SecondStarts(a: StepDef, b: StepDef, s: Snapshot, t: Snapshot)
    requires Pair(a, b) && s.steps == [a, b] && s.held == {} && s.results.Keys == {a.id} && IsDone(s.results, a.id)
    requires t.steps == s.steps && t.held == s.held && t.results.Keys == s.results.Keys + Ids(s.steps)
    requires forall id :: id in t.results ==> t.results[id] == if id in s.results then s.results[id] else FRESH
    ensures MayStart(t, b.id)
  {
    PairValid(a, b, {});
    PairSteps(a, b);
    hide GraphOf, Reaches, FindStep, DepsDone, ValidPlan, Ids;
  }

  lemma ThreeWrites(agents: set<string>, s: Snapshot, t: Snapshot, u: Snapshot)
    requires Write(agents, s, t) && Write(agents, t, u)
    ensures Writes(agents, [s, t, u])
  {
    hide Write;
  }

  lemma JoinRuns(agents: set<string>, a: seq<Snapshot>, b: seq<Snapshot>)
    requires IsWriteRun(agents, a) && b != [] && Writes(agents, b) && Write(agents, a[|a| - 1], b[0])
    ensures IsWriteRun(agents, a + b)
  {
    WritesConcat(agents, a, b);
    hide Write, Writes;
    assert (a + b)[0] == a[0];
  }

  lemma SoundAfterAll(run: seq<Snapshot>, at: nat)
    requires forall k :: 0 <= k < |run| && k != at ==> !run[k].event.Replanned?
    requires at < |run| && ValidPlan(run[at].steps, {})
    ensures forall k: nat :: SoundAfter(run, k)
  {
  }

  lemma GateStays(a: seq<Snapshot>, b: seq<Snapshot>, i: nat, g: Id)
    requires GateFinishes(a, i, g)
    ensures GateFinishes(a + b, i, g)
  {
  }

  lemma DependentIs(run: seq<Snapshot>, j: nat, a: StepDef, b: StepDef)
    requires j < |run| && run[j].steps == [a, b] && run[j].event.Started? && run[j].event.id == b.id
    requires Reaches(GraphOf([a, b]), b.id, a.id)
    ensures DependentStarts(run, j, a.id)
  {
  }

  // ----- replacing a plan without validating the result -----

  /** What a session makes sure of when it replaces the plan: it was asked for, it is for the first failed step, and the
      replacement is valid on its own. */
  ghost predicate AcceptedAt(agents: set<string>, run: seq<Snapshot>, k: nat) {
    0 < k < |run| && run[k].event.Replanned? ==>
      && !run[k].event.auto && ValidPlan(run[k].event.newSteps, agents)
      && IsFirstFailed(run[k - 1].steps, run[k - 1].results, run[k].event.failedID)
  }

  ghost predicate Accepted(agents: set<string>, run: seq<Snapshot>) {
    forall k: nat :: AcceptedAt(agents, run, k)
  }

  /** The k-th write, if it replaces the plan, reuses no id of a surviving step. */
  predicate FreshIdsAt(run: seq<Snapshot>, k: nat) {
    0 < k < |run| && run[k].event.Replanned? ==>
      Ids(Survivors(run[k - 1].steps, run[k].event.affected)) !! Ids(run[k].event.newSteps)
  }

  /** The exact condition for the theorems about runs to hold of a session that goes on after every replacement. */
  lemma LawfulIffFreshIds(agents: set<string>, run: seq<Snapshot>)
    requires IsWriteRun(agents, run) && Accepted(agents, run)
    ensures IsRun(agents, run) <==> forall k: nat :: FreshIdsAt(run, k)
  {
    hide Write, ValidPlan, Sound, IsFirstFailed, Survivors;
    RunIff(agents, run);
    if IsRun(agents, run) {
      forall k: nat ensures FreshIdsAt(run, k) {
        if 0 < k < |run| && run[k].event.Replanned? {
          FreshAfterSound(agents, run, k);
        }
      }
    } else if forall k: nat :: FreshIdsAt(run, k) {
      forall k: nat ensures SoundAfter(run, k) {
        if k < |run| { StaysSound(agents, run, k); }
      }
    }
  }

  lemma FreshAfterSound(agents: set<string>, run: seq<Snapshot>, k: nat)
    requires IsRun(agents, run) && 0 < k < |run| && run[k].event.Replanned?
    ensures FreshIdsAt(run, k)
  {
    hide IsAffected, Survivors, Sound, GraphOf;
    assert Next(agents, run[k - 1], run[k]);
    ReplanDisjoint(run[k - 1], run[k]);
  }

  lemma {:induction false} StaysSound(agents: set<string>, run: seq<Snapshot>, k: nat)
    requires IsWriteRun(agents, run) && Accepted(agents, run) && k < |run|
    requires forall n: nat :: FreshIdsAt(run, n)
    ensures Sound(run[k].steps)
  {
    hide ValidPlan, IsFirstFailed, Survivors, IsAffected, StepContextOf, FindStep, GraphOf, DepsDone;
    if k > 0 {
      StaysSound(agents, run, k - 1);
      var s, t := run[k - 1], run[k];
      assert Write(agents, s, t);
      if t.event.Replanned? {
        assert AcceptedAt(agents, run, k) && FreshIdsAt(run, k);
        ValidForAnyAgents(t.event.newSteps, agents);
        MergeValidIff(s.steps, t.event.newSteps, {}, t.event.failedID, t.event.affected);
      }
    }
  }

  /** A replacement that is valid on its own but reuses a surviving id loses finished work. Step a is done and b, which
      depends on it, has failed; b is replaced by x and another a that depends on x. When x fails and is replaced in turn,
      a counts as affected, its result is deleted, and a is started a second time. */
  lemma CollisionLosesDoneStep(agents: set<string>, agent: string) returns (run: seq<Snapshot>)
    requires agent in agents && agent != ""
    ensures IsWriteRun(agents, run) && Accepted(agents, run) && |run| == 15
    ensures forall k: nat :: FreshIdsAt(run, k) <==> k != 7
    ensures IsDone(run[3].results, "a") && IsDone(run[11].results, "a")
    ensures run[12].event.Replanned? && run[12].event.failedID == "x" && run[12].event.affected == {"x", "a"}
    ensures HasStatus(run[13].results, "a", Pending) && run[14].event.Started? && run[14].event.id == "a"
  {
    hide *;
    var a, b := PlainStep("a", agent, []), PlainStep("b", agent, ["a"]);
    var x, a' := PlainStep("x", agent, []), PlainStep("a", agent, ["x"]);
    CollidingPairs(a, b, x, a', agent);
    var first := PairRun(agents, a, b);
    var s6, s7, s8 := CollidingReplan(agents, a, b, x, a', first[5]);
    var s9, s10, s11 := SecondFailure(agents, a, x, a', s8);
    TripleAffected(a, x, a');
    var s12 := Replace(agents, s11, false, x.id, {x.id, a.id}, [a]);
    var s13 := Prepare(agents, s12);
    LastStarts(a, x, a', s11, s12, s13);
    var s14 := Start(agents, s13, a.id);
    ThreeWrites(agents, s12, s13, s14);
    var second, third := first + [s6, s7, s8], first + [s6, s7, s8] + [s9, s10, s11];
    JoinRuns(agents, first, [s6, s7, s8]);
    JoinRuns(agents, second, [s9, s10, s11]);
    JoinRuns(agents, third, [s12, s13, s14]);
    run := third + [s12, s13, s14];
    assert run[3] == first[3] && run[6] == s6 && run[7] == s7 && run[11] == s11 && run[12] == s12;
    CollisionAccepted(agents, agent, run, a, b, x, a');
  }

  lemma CollidingReplan(agents: set<string>, a: StepDef, b: StepDef, x: StepDef, a': StepDef, s: Snapshot)
    returns (t: Snapshot, u: Snapshot, v: Snapshot)
    requires Pair(a, b) && Pair(x, a') && a'.dependsOn == [x.id] && a.id == a'.id
    requires s.steps == [a, b] && s.results.Keys == {a.id, b.id} && IsDone(s.results, a.id) && HasStatus(s.results, b.id, Failed)
    ensures Write(agents, s, t) && Writes(agents, [t, u, v])
    ensures t.event == Returned && t.steps == [a, b] && t.results == s.results
    ensures u.event == Replanned(false, b.id, {b.id}, [x, a']) && v.event == Prepared
    ensures v.steps == [a, x, a'] && v.results.Keys == {a.id, x.id} && IsDone(v.results, a.id) && v.held == {}
    ensures MayStart(v, x.id) && FindStep(v.steps, x.id) == x
  {
    hide *;
    t := Return(agents, s);
    FailedIsQuiet(a, b, t);
    PairReaches(a, b);
    u := Replace(agents, t, false, b.id, {b.id}, [x, a']);
    Collides(a, b, x, a', t, u);
    v := Prepare(agents, u);
    NoDeps(a, b);
    TripleStarts(a, x, a', u, v);
    ThreeWrites(agents, t, u, v);
  }

  lemma NoDeps(a: StepDef, b: StepDef)
    requires Pair(a, b)
    ensures a.dependsOn == []
  {
  }

  lemma SecondFailure(agents: set<string>, a: StepDef, x: StepDef, a': StepDef, s: Snapshot)
    returns (t: Snapshot, u: Snapshot, v: Snapshot)
    requires Pair(x, a') && a.id == a'.id && x.agent in agents && MayStart(s, x.id) && FindStep(s.steps, x.id) == x
    requires s.steps == [a, x, a'] && s.results.Keys == {a.id, x.id} && IsDone(s.results, a.id) && s.held == {}
    ensures Write(agents, s, t) && Writes(agents, [t, u, v])
    ensures t.event.Started? && u.event.Finished? && v.event == Returned
    ensures v.steps == [a, x, a'] && v.results.Keys == {a.id, x.id} && IsDone(v.results, a.id)
    ensures HasStatus(v.results, x.id, Failed) && Quiet(v.results) && v.held == {}
  {
    hide *;
    t := Start(agents, s, x.id);
    StillRunning(s, t, x.id);
    u := Finish(agents, t, x.id, Permanent(""));
    TripleFails(a, x, a', s, t, u);
    v := Return(agents, u);
    ThreeWrites(agents, t, u, v);
  }

  lemma CollidingPairs(a: StepDef, b: StepDef, x: StepDef, a': StepDef, agent: string)
    requires agent != "" && a == PlainStep("a", agent, []) && b == PlainStep("b", agent, ["a"])
    requires x == PlainStep("x", agent, []) && a' == PlainStep("a", agent, ["x"])
    ensures Pair(a, b) && Pair(x, a') && !a.gate && !x.gate && a.id == a'.id == "a" && b.id == "b" && x.id == "x"
    ensures b.dependsOn == [a.id] && a'.dependsOn == [x.id]
    ensures a.agent == b.agent == x.agent == a'.agent == agent
  {
  }

  lemma Collides(a: StepDef, b: StepDef, x: StepDef, a': StepDef, s: Snapshot, t: Snapshot)
    requires Pair(a, b) && s.steps == [a, b] && s.results.Keys == {a.id, b.id} && IsDone(s.results, a.id)
    requires t.steps == Survivors(s.steps, {b.id}) + [x, a'] && t.results == s.results - {b.id}
    ensures t.steps == [a, x, a'] && t.results.Keys == {a.id} && IsDone(t.results, a.id)
  {
    PairSteps(a, b);
    hide Survivors;
  }

  lemma TripleFacts(a: StepDef, x: StepDef, a': StepDef)
    requires Pair(x, a') && a'.dependsOn == [x.id] && a.id == a'.id && a.dependsOn == []
    ensures Ids([a, x, a']) == {a.id, x.id} && FindStep([a, x, a'], x.id) == x
    ensures forall results :: DepsDone([a, x, a'], results, x.id)
    ensures forall u, v :: Edge(GraphOf([a, x, a']), u, v) <==> u == a.id && v == x.id
  {
    var steps := [a, x, a'];
    assert steps[0] == a && steps[1] == x && steps[2] == a' && a in steps && x in steps && a' in steps;
    assert steps[1..][0] == x;
    forall u, v ensures Edge(GraphOf(steps), u, v) <==> u == a.id && v == x.id {
      EdgeIsDependency(steps, u, v);
    }
  }

  lemma TripleStarts(a: StepDef, x: StepDef, a': StepDef, s: Snapshot, t: Snapshot)
    requires Pair(x, a') && a'.dependsOn == [x.id] && a.id == a'.id && a.dependsOn == []
    requires s.steps == [a, x, a'] && s.held == {} && s.results.Keys == {a.id} && IsDone(s.results, a.id)
    requires t.steps == s.steps && t.held == s.held && t.results.Keys == s.results.Keys + Ids(s.steps)
    requires forall id :: id in t.results ==> t.results[id] == if id in s.results then s.results[id] else FRESH
    ensures MayStart(t, x.id) && t.results.Keys == {a.id, x.id} && IsDone(t.results, a.id) && FindStep(t.steps, x.id) == x
  {
    TripleFacts(a, x, a');
    hide GraphOf, Reaches, FindStep, DepsDone, Ids;
  }

  lemma TripleFails(a: StepDef, x: StepDef, a': StepDef, s8: Snapshot, s9: Snapshot, s10: Snapshot)
    requires Pair(x, a') && a.id == a'.id && s8.steps == [a, x, a'] && s8.results.Keys == {a.id, x.id} && IsDone(s8.results, a.id)
    requires OnlyResult(s8, s9, x.id, Running) && OnlyResult(s9, s10, x.id, Failed)
    ensures s10.steps == [a, x, a'] && s10.results.Keys == {a.id, x.id}
    ensures IsDone(s10.results, a.id) && HasStatus(s10.results, x.id, Failed) && Quiet(s10.results)
  {
  }

  lemma TripleAffected(a: StepDef, x: StepDef, a': StepDef)
    requires Pair(x, a') && a'.dependsOn == [x.id] && a.id == a'.id && a.dependsOn == []
    ensures IsAffected([a, x, a'], x.id, {x.id, a.id})
  {
    hide GraphOf, Reaches, Edge;
    var g := GraphOf([a, x, a']);
    TripleFacts(a, x, a');
    ReachesSelf(g, x.id);
    EdgeReaches(g, a.id, x.id);
    forall u | Reaches(g, u, x.id) ensures u in {x.id, a.id} {
      if u != x.id { var y := ReachesFirstEdge(g, u, x.id); }
    }
  }

  lemma TripleGone(a: StepDef, x: StepDef, a': StepDef)
    requires a.id == a'.id
    ensures Survivors([a, x, a'], {x.id, a.id}) == []
  {
    var affected := {x.id, a.id};
    assert [a, x, a'][..2] == [a, x] && [a, x][..1] == [a] && [a][..0] == [];
    assert Survivors([], affected) == [] && Survivors([a], affected) == [] && Survivors([a, x], affected) == [];
  }

  lemma LastStarts(a: StepDef, x: StepDef, a': StepDef, s: Snapshot, t: Snapshot, u: Snapshot)
    requires a.id == a'.id && a.dependsOn == [] && s.steps == [a, x, a'] && s.results.Keys == {a.id, x.id}
    requires t.steps == Survivors(s.steps, {x.id, a.id}) + [a] && t.results == s.results - {x.id, a.id} && t.held == {}
    requires u.steps == t.steps && u.held == t.held && u.results.Keys == t.results.Keys + Ids(t.steps)
    requires forall id :: id in u.results ==> u.results[id] == if id in t.results then t.results[id] else FRESH
    ensures MayStart(u, a.id) && HasStatus(u.results, a.id, Pending)
  {
    TripleGone(a, x, a');
    hide Survivors, GraphOf, Reaches;
    assert t.steps == [a] && a in t.steps;
  }

  lemma CollisionAccepted(agents: set<string>, agent: string, run: seq<Snapshot>, a: StepDef, b: StepDef, x: StepDef, a': StepDef)
    requires Pair(a, b) && Pair(x, a') && a.id == a'.id && agent in agents && a.agent == x.agent == a'.agent == agent
    requires |run| == 15 && forall k :: 0 <= k < 15 && k != 7 && k != 12 ==> !run[k].event.Replanned?
    requires run[7].event == Replanned(false, b.id, {b.id}, [x, a'])
    requires run[12].event == Replanned(false, x.id, {x.id, a.id}, [a])
    requires run[6].steps == [a, b] && IsDone(run[6].results, a.id) && HasStatus(run[6].results, b.id, Failed)
    requires run[11].steps == [a, x, a'] && IsDone(run[11].results, a.id) && HasStatus(run[11].results, x.id, Failed)
    ensures Accepted(agents, run) && forall k: nat :: FreshIdsAt(run, k) <==> k != 7
  {
    PairValid(x, a', agents);
    SingleValid(a, agents);
    PairSteps(a, b);
    TripleGone(a, x, a');
    hide ValidPlan, Survivors;
    assert FirstFailed(run[6].steps, run[6].results, 1);
    assert FirstFailed(run[11].steps, run[11].results, 1);
    assert AcceptedAt(agents, run, 7) && AcceptedAt(agents, run, 12);
    assert a in [a] && a' in [x, a'] by { assert [x, a'][1] == a'; }
    assert a.id in Ids([a]) && a.id in Ids([x, a']);
    assert !FreshIdsAt(run, 7) && FreshIdsAt(run, 12);
  }

  lemma SingleValid(a: StepDef, agents: set<string>)
    requires a.id != "" && a.agent != "" && a.dependsOn == [] && a.agent in agents
    ensures ValidPlan([a], agents)
  {
    forall u, v | Edge(GraphOf([a]), u, v) ensures false {
      EdgeIsDependency([a], u, v);
    }
    var rank: map<Id, int> := map[a.id := 0];
    RankedIsAcyclic(GraphOf([a]), rank);
  }
}
