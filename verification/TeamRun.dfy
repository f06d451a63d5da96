/** One run of a team: agents hand off to each other until one answers, a limit is hit, or a loop is found. */
module TeamRuns {
  import opened Basics
  import opened Messages
  import opened Teams

  const MESSAGE_CAP := 128

  /** The newest messages of ms up to the cap: nothing is dropped but what lies beyond the cap, and then tool results
      and calls up to the first other message. */
  predicate Capped(ms: seq<Message>, kept: seq<Message>) {
    && |kept| <= |ms| && |kept| <= MESSAGE_CAP && kept == ms[|ms| - |kept|..]
    && (|ms| <= MESSAGE_CAP ==> kept == ms)
    && (|ms| > MESSAGE_CAP ==> kept == [] || !(kept[0].role == Tool || HasCalls(kept[0])))
    && forall i :: |ms| - MESSAGE_CAP <= i < |ms| - |kept| && 0 <= i ==> ms[i].role == Tool || HasCalls(ms[i])
  }

  /** Keeps the newest messages, dropping tool results and whole tool exchanges at the cut. */
  method CapMessages(ms: seq<Message>) returns (kept: seq<Message>)
    ensures Capped(ms, kept)
    ensures |kept| <= 128 && (|ms| <= 128 ==> kept == ms)
    ensures Paired(ms) ==> Paired(kept)
  {
    hide Paired;
    var start := 0;
    if |ms| > MESSAGE_CAP {
      start := |ms| - MESSAGE_CAP;
      ghost var cut := start;
      while start < |ms| && ms[start].role == Tool
        invariant cut <= start <= |ms|
        invariant forall i :: cut <= i < start ==> ms[i].role == Tool || HasCalls(ms[i])
      {
        start := start + 1;
      }
      while start < |ms| && HasCalls(ms[start])
        invariant cut <= start <= |ms| && Boundary(ms, start)
        invariant forall i :: cut <= i < start ==> ms[i].role == Tool || HasCalls(ms[i])
      {
        start := start + 1;
        while start < |ms| && ms[start].role == Tool
          invariant cut < start <= |ms|
          invariant forall i :: cut <= i < start ==> ms[i].role == Tool || HasCalls(ms[i])
        {
          start := start + 1;
        }
      }
      if Paired(ms) { PairedSplit(ms, start); }
    }
    kept := ms[start..];
  }

  datatype HandoffRequest = HandoffRequest(target: string, message: string)

  /** What an agent's turn yields; `failed` stands for its error. */
  datatype AgentResult = AgentResult(failed: bool, finalOutput: string, messages: seq<Message>, handoffs: seq<HandoffRequest>)

  datatype TeamResult =
    | FinalAnswer(output: string)
    | HandoffLimit
    | AgentFailed
    | UnknownAgent(target: string)
    | RouteFailed

  /** How the next agent is addressed. */
  datatype InputKind = UserInput | BlockedInput | LoopInput | HandoffInput | ReturnInput

  function Min(a: int, b: int): int {
    if a < b then a else b
  }

  /** The bound on agent runs: one more than the handoff limit, two more than the team has agents. */
  function RunBound(maxHandoffs: int, agents: nat): int {
    Max(0, Min(maxHandoffs + 1, agents + 2))
  }

  class TeamRunner {
    const roster: set<string>
    const maxHandoffs: int
    const agents: nat -> AgentResult    // what the k-th agent run yields
    const vetoes: nat -> bool           // whether the router vetoes the handoff after it
    var chain: seq<HandoffEntry>
    var runMessages: seq<Message>
    var forceFinal: bool
    var currentName: string
    var pendingHandoffs: seq<HandoffRequest>
    ghost var first: string
    ghost var runs: nat        // agent runs so far
    ghost var vetoed: bool     // a handoff has been vetoed

    constructor (roster: set<string>, maxHandoffs: int, agents: nat -> AgentResult, vetoes: nat -> bool)
      ensures this.roster == roster && this.maxHandoffs == maxHandoffs && this.agents == agents && this.vetoes == vetoes
      ensures chain == [] && runMessages == [] && !forceFinal && pendingHandoffs == [] && runs == 0 && !vetoed
    {
      this.roster, this.maxHandoffs, this.agents, this.vetoes := roster, maxHandoffs, agents, vetoes;
      chain, runMessages, forceFinal, currentName, pendingHandoffs := [], [], false, "", [];
      first, runs, vetoed := "", 0, false;
    }

    /** The chain is a connected path of team members from the first agent to the current one. */
    ghost predicate ChainOk()
      reads this`chain, this`first, this`currentName
    {
      && first in roster && currentName in roster && Connected(first, chain)
      && (forall i :: 0 <= i < |chain| ==> chain[i].target in roster)
      && currentName == (if chain == [] then first else chain[|chain| - 1].target)
    }

    ghost predicate NoLoop(chain: seq<HandoffEntry>)
      reads this`first
    {
      |chain| <= 1 || SimplePathOrCycle(Visited(first, chain))
    }

    /** Before each agent run: as long as nothing is forced, every run has made one handoff and there is no loop;
        a forced run follows a veto, or the handoff that closed a loop. */
    ghost predicate Valid()
      reads this
    {
      && ChainOk() && |chain| <= Max(0, maxHandoffs) && pendingHandoffs == [] && Paired(runMessages)
      && (vetoed ==> forceFinal && |chain| < maxHandoffs)
      && runs == |chain| + (if vetoed then 1 else 0)
      && (if forceFinal && !vetoed then chain != [] && NoLoop(chain[..|chain| - 1]) else NoLoop(chain))
    }

    /** The transfer tools write here; several may be called in one agent run. */
    method RecordHandoff(target: string, message: string)
      modifies this`pendingHandoffs
      ensures pendingHandoffs == old(pendingHandoffs) + [HandoffRequest(target, message)]
    {
      pendingHandoffs := pendingHandoffs + [HandoffRequest(target, message)];
    }

    /** The handoffs that agent run k asks for: none without transfer tools. */
    function Asked(k: nat, forced: bool): seq<HandoffRequest> {
      if forced then [] else agents(k).handoffs
    }

    /** What agent run k yields: messages that pair calls with results, as every agent run's do. */
    function Yield(k: nat): AgentResult {
      if Paired(agents(k).messages) then agents(k) else agents(k).(messages := [])
    }

    /** One agent run. The agent is arbitrary, but its messages pair calls with results, and without transfer tools
        it records no handoff. */
    method RunAgent(run: nat) returns (result: AgentResult)
      requires pendingHandoffs == [] && run == runs
      modifies this`pendingHandoffs, this`runs
      ensures runs == run + 1 && result == Yield(run) && Paired(result.messages)
      ensures pendingHandoffs == Asked(run, forceFinal)
    {
      hide Paired;
      result := Yield(run);
      assert Paired(result.messages) by { NothingPaired(); }
      runs := runs + 1;
      if !forceFinal {
        for i := 0 to |result.handoffs|
          invariant runs == run + 1 && pendingHandoffs == result.handoffs[..i]
        {
          assert result.handoffs[..i + 1] == result.handoffs[..i] + [result.handoffs[i]];
          RecordHandoff(result.handoffs[i].target, result.handoffs[i].message);
        }
        assert result.handoffs[..|result.handoffs|] == result.handoffs;
      }
    }

    /** After an agent run, before its handoffs are looked at. */
    ghost predicate MidTurn()
      reads this`chain, this`first, this`currentName, this`forceFinal, this`vetoed, this`runs, this`runMessages
    {
      && ChainOk() && |chain| < maxHandoffs && Paired(runMessages)
      && (!forceFinal ==> !vetoed && NoLoop(chain) && runs == |chain| + 1)
    }

    /** What holds whenever the run may end. */
    ghost predicate Sane()
      reads this`chain, this`first, this`currentName, this`runs, this`runMessages
    {
      ChainOk() && Paired(runMessages) && runs <= RunBound(maxHandoffs, |roster|) && |chain| <= Max(0, maxHandoffs)
    }

    /** Runs the team from the routed agent to an answer or an error. */
    method Run(routed: string) returns (r: TeamResult)
      requires chain == [] && runMessages == [] && !forceFinal && pendingHandoffs == [] && runs == 0 && !vetoed
      modifies this
      ensures runs <= Max(0, maxHandoffs + 1) && runs <= |roster| + 2
      ensures |chain| <= Max(0, maxHandoffs)
      ensures r == RouteFailed <==> routed !in roster
      ensures r != RouteFailed ==> first == routed && ChainOk() && Paired(runMessages) && |runMessages| <= MESSAGE_CAP
      ensures r.UnknownAgent? ==> r.target !in roster
      // the limit stops no run that has handoffs left, and every other end is that of the last agent run
      ensures r == HandoffLimit ==> |chain| >= maxHandoffs
      ensures r != HandoffLimit && r != RouteFailed ==> runs > 0 && LastAgentEnds(r)
      ensures r.FinalAnswer? ==> runs > 0 && r.output == agents(runs - 1).finalOutput
    {
      hide LastAgentEnds;
      hide Paired, SimplePathOrCycle, Visited, Connected;
      if routed !in roster {
        return RouteFailed;
      }
      currentName := routed;
      first := routed;
      assert Valid() by { Start(); }
      ValidIsSane();
      var done := false;
      r := AgentFailed;
      var run := 0;
      while !done
        invariant first == routed && |runMessages| <= MESSAGE_CAP && Sane() && run == runs
        invariant if done then r != RouteFailed && r != HandoffLimit && (r.UnknownAgent? ==> r.target !in roster) &&
                               runs > 0 && LastAgentEnds(r)
                  else Valid()
        decreases !done, maxHandoffs - |chain|, !forceFinal
      {
        if |chain| >= maxHandoffs {
          return HandoffLimit;
        }
        done, r := Turn(run);
        run := run + 1;
      }
      assert LastAgentEnds(r);
      LastAnswer(r);
    }

    /** The last agent run ends the team's run with r: it failed, answered without a handoff, or asked for an agent that
        does not exist. */
    ghost predicate LastAgentEnds(r: TeamResult)
      requires runs > 0
      reads this`runs
    {
      var a := agents(runs - 1);
      match r
      case AgentFailed => a.failed
      case FinalAnswer(output) => !a.failed && output == a.finalOutput
      case UnknownAgent(target) => !a.failed && a.handoffs != [] && target == a.handoffs[0].target
      case _ => false
    }

    lemma LastAnswer(r: TeamResult)
      requires runs > 0 && LastAgentEnds(r)
      ensures r.FinalAnswer? ==> r.output == agents(runs - 1).finalOutput
    {
    }

    /** What follows an agent run: it failed, it answered, it asked for an unknown agent, its handoff is vetoed and its
        next answer forced, or its handoff joins the chain with its output before its message. Only a loop then forces
        the next answer. */
    ghost predicate Followed(k: nat, asked: seq<HandoffRequest>, chain0: seq<HandoffEntry>, current0: string, done: bool, r: TeamResult)
      reads this`chain, this`forceFinal, this`first, this`currentName
    {
      var a := agents(k);
      if a.failed then done && r == AgentFailed && chain == chain0
      else if asked == [] then done && r == FinalAnswer(a.finalOutput) && chain == chain0
      else if asked[0].target !in roster then done && r == UnknownAgent(asked[0].target) && chain == chain0
      else if vetoes(k) then !done && chain == chain0 && forceFinal && currentName == current0
      else
        && !done && |chain| == |chain0| + 1 && chain[..|chain0|] == chain0
        && currentName == asked[0].target
        && (forceFinal <==> |chain| >= 2 && !SimplePathOrCycle(Visited(first, chain)))
        && var e := chain[|chain0|];
           && e.source == current0 && e.target == asked[0].target
           && (a.finalOutput == "" ==> e.message == asked[0].message)
           && (asked[0].message == "" ==> e.message == a.finalOutput)
           && (a.finalOutput != "" && asked[0].message != "" ==> e.message == a.finalOutput + "\n" + asked[0].message)
    }

    /** One turn: the current agent runs, and answers, fails, or hands off. */
    method Turn(run: nat) returns (done: bool, r: TeamResult)
      requires Valid() && |chain| < maxHandoffs && |runMessages| <= MESSAGE_CAP && run == runs
      modifies this
      ensures first == old(first) && |runMessages| <= MESSAGE_CAP && Sane() && runs == run + 1
      ensures if done then r != RouteFailed && r != HandoffLimit && (r.UnknownAgent? ==> r.target !in roster) && LastAgentEnds(r)
              else Valid()
      ensures !done ==> |chain| > old(|chain|) || (|chain| == old(|chain|) && forceFinal && !old(forceFinal))
      ensures Followed(run, Asked(run, old(forceFinal)), old(chain), old(currentName), done, r)
    {
      hide *;
      r := AgentFailed;
      ghost var messages0, asked, chain0, current0 := runMessages, Asked(run, forceFinal), chain, currentName;
      var result := TakeTurn(run);
      WithinCap(messages0, result.messages, runMessages);
      YieldIs(run);
      if result.failed {
        done := true;
        FailedEnds(run, asked, chain0, current0);
        return;
      }
      AskedUnforced(run);
      done, r := Act(run, result);
      if done {
        FollowedEnds(run, asked, chain0, current0, r);
      }
    }

    lemma YieldIs(k: nat)
      ensures Yield(k).failed == agents(k).failed && Yield(k).finalOutput == agents(k).finalOutput
      ensures Yield(k).handoffs == agents(k).handoffs
    {
      hide Paired;
    }

    lemma AskedUnforced(k: nat)
      ensures forceFinal ==> Asked(k, forceFinal) == []
    {
    }

    lemma FailedEnds(k: nat, asked: seq<HandoffRequest>, chain0: seq<HandoffEntry>, current0: string)
      requires agents(k).failed && chain == chain0 && runs == k + 1
      ensures Followed(k, asked, chain0, current0, true, AgentFailed) && LastAgentEnds(AgentFailed)
    {
      hide SimplePathOrCycle, Visited;
    }

    lemma FollowedEnds(k: nat, asked: seq<HandoffRequest>, chain0: seq<HandoffEntry>, current0: string, r: TeamResult)
      requires Followed(k, asked, chain0, current0, true, r) && runs == k + 1
      requires exists forced :: asked == Asked(k, forced)
      ensures LastAgentEnds(r)
    {
      hide SimplePathOrCycle, Visited;
    }

    /** Acts on what an agent run asked for: without a handoff its output is the answer, an unknown target ends the run,
        and otherwise the first handoff is vetoed or joins the chain. */
    method Act(run: nat, result: AgentResult) returns (done: bool, r: TeamResult)
      requires MidTurn() && Sane() && (forceFinal ==> pendingHandoffs == []) && !result.failed && result == Yield(run)
      modifies this`pendingHandoffs, this`chain, this`forceFinal, this`vetoed, this`currentName
      ensures Sane() && pendingHandoffs == [] && (!done ==> Valid())
      ensures Followed(run, old(pendingHandoffs), old(chain), old(currentName), done, r)
      ensures !done ==> |chain| > old(|chain|) || (|chain| == old(|chain|) && forceFinal && !old(forceFinal))
      ensures done ==> r != RouteFailed && r != HandoffLimit && (r.UnknownAgent? ==> r.target !in roster)
    {
      hide *;
      r := AgentFailed;
      var handoffs := pendingHandoffs;
      pendingHandoffs := [];
      YieldIs(run);
      if |handoffs| == 0 {
        r := FinalAnswer(result.finalOutput);
        NotTaken(run, handoffs, chain, currentName, r);
        return true, r;
      }
      var req := handoffs[0];
      if req.target !in roster {
        r := UnknownAgent(req.target);
        NotTaken(run, handoffs, chain, currentName, r);
        return true, r;
      }
      ghost var chain0, current0 := chain, currentName;
      var message := req.message;
      if result.finalOutput != "" {
        message := if message != "" then result.finalOutput + "\n" + message else result.finalOutput;
      }
      var entry := HandoffEntry(currentName, req.target, message);
      var input := Handoff(run, entry);
      TakenOrVetoed(run, handoffs, chain0, current0, entry, r);
      ValidIsSane();
      done := false;
    }

    lemma NotTaken(k: nat, asked: seq<HandoffRequest>, chain0: seq<HandoffEntry>, current0: string, r: TeamResult)
      requires !agents(k).failed && chain == chain0
      requires if asked == [] then r == FinalAnswer(agents(k).finalOutput)
               else asked[0].target !in roster && r == UnknownAgent(asked[0].target)
      ensures Followed(k, asked, chain0, current0, true, r)
    {
      hide SimplePathOrCycle, Visited;
    }

    lemma TakenOrVetoed(k: nat, asked: seq<HandoffRequest>, chain0: seq<HandoffEntry>, current0: string, entry: HandoffEntry,
                        r: TeamResult)
      requires !agents(k).failed && asked != [] && asked[0].target in roster
      requires entry.source == current0 && entry.target == asked[0].target
      requires var output, message := agents(k).finalOutput, asked[0].message;
               entry.message == if output == "" then message else if message != "" then output + "\n" + message else output
      requires if vetoes(k) then chain == chain0 && forceFinal && currentName == current0
               else chain == chain0 + [entry] && currentName == entry.target &&
                    (forceFinal <==> |chain| >= 2 && !SimplePathOrCycle(Visited(first, chain)))
      ensures Followed(k, asked, chain0, current0, false, r)
    {
      hide SimplePathOrCycle, Visited;
    }

    /** Runs the current agent and, unless it fails, keeps its messages. */
    method TakeTurn(run: nat) returns (result: AgentResult)
      requires Valid() && |chain| < maxHandoffs && run == runs
      modifies this`pendingHandoffs, this`runs, this`runMessages
      ensures runs == run + 1 && Sane() && MidTurn()
      ensures result == Yield(run) && pendingHandoffs == Asked(run, forceFinal)
      ensures if result.failed then runMessages == old(runMessages) else Capped(old(runMessages) + result.messages, runMessages)
    {
      hide *;
      FromValid();
      result := RunAgent(run);
      if !result.failed {
        Remember(result.messages);
      }
      ToMidTurn();
    }

    /** Keeps an agent run's messages, up to the cap. */
    method Remember(messages: seq<Message>)
      requires Paired(runMessages) && Paired(messages)
      modifies this`runMessages
      ensures Capped(old(runMessages) + messages, runMessages) && Paired(runMessages)
    {
      hide Paired;
      PairedConcat(runMessages, messages);
      runMessages := CapMessages(runMessages + messages);
    }

    lemma WithinCap(before: seq<Message>, added: seq<Message>, after: seq<Message>)
      requires |before| <= MESSAGE_CAP && (after == before || Capped(before + added, after))
      ensures |after| <= MESSAGE_CAP
    {
    }

    lemma FromValid()
      requires Valid() && |chain| < maxHandoffs
      ensures ChainOk() && Paired(runMessages) && pendingHandoffs == []
      ensures !forceFinal ==> !vetoed && NoLoop(chain) && runs == |chain|
      ensures runs + 1 <= RunBound(maxHandoffs, |roster|)
    {
      hide Paired, SimplePathOrCycle, Visited, Connected;
      Fits();
    }

    lemma ToMidTurn()
      requires ChainOk() && |chain| < maxHandoffs && Paired(runMessages) && runs <= RunBound(maxHandoffs, |roster|)
      requires !forceFinal ==> !vetoed && NoLoop(chain) && runs == |chain| + 1
      ensures Sane() && MidTurn()
    {
      hide Paired, NoLoop, ChainOk;
    }

    /** Acts on a handoff: vetoed by the router, refused as a loop, or taken. The result tells how the next agent
        is addressed; only the second handoff of a chain can be a return (or an agent addressing itself first). */
    method Handoff(run: nat, entry: HandoffEntry) returns (input: InputKind)
      requires MidTurn() && !forceFinal && pendingHandoffs == []
      requires entry.source == currentName && entry.target in roster
      modifies this`chain, this`forceFinal, this`vetoed, this`currentName
      ensures Valid()
      ensures input == BlockedInput <==> vetoes(run)
      ensures if input == BlockedInput then chain == old(chain) && forceFinal && currentName == old(currentName)
              else chain == old(chain) + [entry] && currentName == entry.target
      ensures |chain| >= 2 && chain != old(chain) ==>
                (input == LoopInput <==> !SimplePathOrCycle(Visited(first, chain)))
      ensures forceFinal <==> input == BlockedInput || input == LoopInput
      ensures input == LoopInput ==> |chain| >= 2
      ensures input == ReturnInput ==> (|chain| == 2 && entry.target == first) || (|chain| == 1 && entry.source == entry.target)
      ensures |chain| == 2 && entry.target == first && chain != old(chain) && input != LoopInput ==> input == ReturnInput
    {
      hide *;
      FromMidTurn(entry);
      if vetoes(run) {
        forceFinal, vetoed := true, true;
        ToValid();
        return BlockedInput;
      }
      ghost var chain0 := chain;
      chain := chain + [entry];
      currentName := entry.target;
      var hint := DetectLoop(chain);
      HandoffFacts(first, chain0, entry, hint);
      if hint != NoHint {
        // the hard stop for a second loop in a row is never reached: a forced run records no handoff
        if forceFinal { assert false; }
        forceFinal := true;
        AfterHandoff(chain0, entry);
        return LoopInput;
      }
      forceFinal := false;
      AfterHandoff(chain0, entry);
      var returning := IsReturnHandoff(chain, entry.source, entry.target);
      if |chain| >= 2 {
        ReturnOnlySecond(first, chain);
      } else {
        OnlyHandoff(chain0, entry, returning);
      }
      input := if returning then ReturnInput else HandoffInput;
    }

    lemma OnlyHandoff(chain0: seq<HandoffEntry>, entry: HandoffEntry, returning: bool)
      requires |chain0 + [entry]| < 2
      requires var chain := chain0 + [entry];
               returning <==> exists i :: 0 <= i < |chain| && chain[i].source == entry.target && chain[i].target == entry.source
      ensures returning <==> entry.source == entry.target
      ensures |chain0 + [entry]| == 1
    {
      var chain := chain0 + [entry];
      assert chain == [entry];
      assert chain[0] == entry;
      if entry.source == entry.target {
        assert chain[0].source == entry.target && chain[0].target == entry.source;
      }
    }

    lemma FromMidTurn(entry: HandoffEntry)
      requires MidTurn() && !forceFinal && entry.source == currentName && entry.target in roster
      ensures !vetoed && NoLoop(chain) && runs == |chain| + 1 && ChainOk() && Paired(runMessages)
      ensures |chain| < maxHandoffs
      ensures Connected(first, chain) && entry.source == (if chain == [] then first else chain[|chain| - 1].target)
      ensures forall i :: 0 <= i < |chain| ==> chain[i].target in roster
      ensures first in roster
    {
      hide Paired, SimplePathOrCycle, Visited, Connected;
    }

    lemma ToValid()
      requires ChainOk() && |chain| < maxHandoffs && pendingHandoffs == [] && Paired(runMessages)
      requires forceFinal && vetoed && runs == |chain| + 1 && NoLoop(chain)
      ensures Valid()
    {
      hide Paired, SimplePathOrCycle, Visited, Connected, ChainOk;
    }

    /** A chain extended by a handoff of its last agent stays connected, and the hint says whether it is simple. */
    static lemma HandoffFacts(first: string, chain0: seq<HandoffEntry>, entry: HandoffEntry, hint: Hint)
      requires Connected(first, chain0) && entry.source == if chain0 == [] then first else chain0[|chain0| - 1].target
      requires |chain0 + [entry]| < 2 ==> hint == NoHint
      requires hint.FrequencyHint? ==> hint.count == Mentions(chain0 + [entry], hint.name) && hint.count >= 3
      requires hint.PingPongHint? <==> PingPong(chain0 + [entry])
      requires |chain0 + [entry]| >= 2 && hint == NoHint ==> forall name :: Mentions(chain0 + [entry], name) < 3
      ensures Connected(first, chain0 + [entry])
      ensures |chain0 + [entry]| >= 2 ==> (hint == NoHint <==> SimplePathOrCycle(Visited(first, chain0 + [entry])))
    {
      hide SimplePathOrCycle, Visited, PingPong, Mentions;
      if |chain0 + [entry]| >= 2 { NoHintIffSimple(first, chain0 + [entry], hint); }
    }

    lemma AfterHandoff(chain0: seq<HandoffEntry>, entry: HandoffEntry)
      requires chain == chain0 + [entry] && currentName == entry.target && entry.target in roster && first in roster
      requires forall i :: 0 <= i < |chain0| ==> chain0[i].target in roster
      requires |chain0| < maxHandoffs && pendingHandoffs == [] && Paired(runMessages) && !vetoed && runs == |chain0| + 1
      requires Connected(first, chain) && NoLoop(chain0)
      requires !forceFinal && |chain| >= 2 ==> SimplePathOrCycle(Visited(first, chain))
      ensures Valid()
    {
      hide Paired, SimplePathOrCycle, Visited, Connected;
      assert chain[..|chain| - 1] == chain0;
    }

    lemma Start()
      requires chain == [] && runMessages == [] && !forceFinal && pendingHandoffs == [] && runs == 0 && !vetoed
      requires first in roster && currentName == first
      ensures Valid()
    {
    }

    lemma ValidIsSane()
      requires Valid()
      ensures Sane()
    {
      hide Paired, SimplePathOrCycle, Visited, Connected;
      Fits();
    }

    lemma Fits()
      requires Valid()
      ensures |chain| <= |roster| + (if forceFinal && !vetoed then 1 else 0)
    {
      hide Paired, SimplePathOrCycle, Visited, Connected;
      if forceFinal && !vetoed {
        UndetectedFits(first, chain[..|chain| - 1], roster);
      } else {
        UndetectedFits(first, chain, roster);
      }
    }
  }

  lemma NothingPaired()
    ensures Paired([])
  {
  }
}
