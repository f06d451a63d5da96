/** One agent run: model calls and tool calls alternate until the model answers, the run is cut off, or it fails. */
module AgentRuns {
  import opened Basics
  import opened Messages
  import opened Tools
  import opened ContextWindow
  import opened Requests

  const DEFAULT_TURNS := 20

  datatype RunResult =
    | Finished                       // the model answered without tool calls
    | Handoff                        // an end-of-turn tool was called
    | OutOfTurns
    | Cancelled
    | InputBlocked
    | ModelFailed
    | OutputBlocked(withCalls: bool)
    | ToolTripwire

  /** The history fetched from memory ends with the input just stored, which is put back after the prefix. */
  function StripInput(history: seq<Message>): seq<Message> {
    if history != [] && history[|history| - 1].role == User then history[..|history| - 1] else history
  }

  /** The history without the input put back is the history as it was before the input was stored, and so the input
      stands in the working messages once. */
  lemma InputOnce(earlier: seq<Message>, prefix: seq<Message>, input: Message)
    requires input.role == User
    ensures StripInput(earlier + [input]) + prefix + [input] == earlier + prefix + [input]
    ensures (earlier == [] || earlier[|earlier| - 1].role != User) ==> StripInput(earlier) == earlier
  {
  }

  // ----- what a run meets -----

  /** The output guard's judgement of a tool result. */
  datatype Judgement = Passed | Replaced(notice: string) | Tripwire

  /** Everything around a run, as arbitrary functions of the turn: prompts, model, tools, approver and guards. */
  datatype World = World(
    tools: Registry,
    prompts: nat -> seq<Message>,
    cancelled: nat -> bool,
    inputBlocked: bool,
    answer: nat -> Option<Message>,          // None: the model fails
    finishReason: nat -> string,
    approver: nat -> Approver,
    behave: nat -> Behaviour,
    hasGuard: bool,                          // there is an output guard,
    answerBlocked: nat -> bool,              //   and this is what it makes of the answers
    judge: nat -> (nat -> Judgement))        //   and of the tool results

  /** The model's answer as a message. */
  function AnswerOf(world: World, k: nat): Message
    requires world.answer(k).Some?
  {
    world.answer(k).value.(role := Assistant, toolCallID := "", transient := false)
  }

  /** What the guard lets through of a tool result that does not abort the run. */
  function Judged(world: World, k: nat, i: nat, m: Message): Message {
    if world.hasGuard && world.judge(k)(i).Replaced? then m.(content := world.judge(k)(i).notice) else m
  }

  predicate Trips(world: World, k: nat, i: nat) {
    world.hasGuard && world.judge(k)(i).Tripwire?
  }

  /** The results of the calls of turn k, each as its tool came to it and the guard let it through, up to the first
      that trips the guard. */
  predicate Came(world: World, k: nat, calls: seq<ToolCall>, accepted: seq<Message>) {
    && |accepted| <= |calls| && (|accepted| < |calls| ==> Trips(world, k, |accepted|))
    && forall i :: 0 <= i < |accepted| ==>
         && !Trips(world, k, i)
         && accepted[i] == Judged(world, k, i,
                                  ResultMessage(calls[i], FateOf(world.tools, world.approver(k), world.behave(k), calls[i], i)))
  }

  /** The note that an abnormal finish reason leaves at the end of the result. */
  predicate Noted(reason: string, note: seq<Message>) {
    if reason == "" || reason == "stop" then note == []
    else note == [PlainMessage(System, "[run ended: finish_reason=" + reason + "]")]
  }

  predicate Blocks(world: World, k: nat) {
    world.hasGuard && world.answerBlocked(k)
  }

  /** Exactly what turn k adds to the result. */
  predicate TurnAdds(world: World, k: nat, turn: seq<Message>) {
    if world.answer(k).None? then turn == []
    else
      && turn != [] && turn[0] == AnswerOf(world, k)
      && if Blocks(world, k) then turn[1..] == []
         else if turn[0].toolCalls == [] then Noted(world.finishReason(k), turn[1..])
         else Came(world, k, turn[0].toolCalls, turn[1..])
  }

  /** How a run ends with a turn, if it does. */
  function TurnEnd(world: World, k: nat, turn: seq<Message>): Option<RunResult> {
    if turn == [] then Some(ModelFailed)
    else if Blocks(world, k) then Some(OutputBlocked(turn[0].toolCalls != []))
    else if turn[0].toolCalls == [] then Some(Finished)
    else if |turn| - 1 < |turn[0].toolCalls| then Some(ToolTripwire)
    else if EndsSome(world.tools, turn[0].toolCalls) then Some(Handoff)
    else None
  }

  /** Where the messages of turn k end. */
  function TurnTo(requests: seq<Request>, messages: seq<Message>, k: nat): nat {
    if k + 1 < |requests| then requests[k + 1].produced else |messages|
  }

  /** Turn k, which began with request k. */
  predicate TurnTold(world: World, requests: seq<Request>, messages: seq<Message>, k: nat)
    requires k < |requests|
  {
    && requests[k].produced <= TurnTo(requests, messages, k) <= |messages|
    && var turn := messages[requests[k].produced..TurnTo(requests, messages, k)];
       TurnAdds(world, k, turn) && (k + 1 < |requests| ==> TurnEnd(world, k, turn) == None)
  }

  /** The messages of the first n turns are exactly what these turns add, the run went on after all but the last, and
      every request carries its turn's prompts. */
  ghost predicate Told(world: World, requests: seq<Request>, messages: seq<Message>, n: nat) {
    && n <= |requests| && (if requests == [] then messages == [] else requests[0].produced == 0)
    && (forall k :: 0 <= k < |requests| ==>
          requests[k].produced <= |messages| && Prompted(world.prompts(k), requests[k].prompts))
    && forall k :: 0 <= k < n ==> TurnTold(world, requests, messages, k)
  }

  /** How the run ends with its last turn, if it does. */
  function LastEnd(world: World, requests: seq<Request>, messages: seq<Message>): Option<RunResult> {
    if requests == [] || requests[|requests| - 1].produced > |messages| then None
    else TurnEnd(world, |requests| - 1, messages[requests[|requests| - 1].produced..])
  }

  /** A run ends as its last turn does, or between two turns, for want of further turns or by the caller or a guard. */
  predicate EndsAs(world: World, requests: seq<Request>, messages: seq<Message>, r: RunResult, limit: nat) {
    match LastEnd(world, requests, messages)
    case Some(end) => r == end
    case None =>
      || (r == OutOfTurns && |requests| == limit)
      || (r == Cancelled && world.cancelled(|requests|))
      || (r == InputBlocked && world.inputBlocked && requests == [])
  }

  lemma ToldSent(world: World, requests: seq<Request>, messages: seq<Message>, q: Request)
    requires Told(world, requests, messages, |requests|) && LastEnd(world, requests, messages) == None
    requires q.produced == |messages| && Prompted(world.prompts(|requests|), q.prompts)
    ensures Told(world, requests + [q], messages, |requests|)
  {
    hide TurnAdds, TurnEnd, Prompted;
    var all := requests + [q];
    forall k | 0 <= k < |requests| ensures TurnTold(world, all, messages, k) {
      assert TurnTold(world, requests, messages, k);
      assert messages[requests[k].produced..|messages|] == messages[requests[k].produced..];
    }
  }

  lemma ToldTurn(world: World, requests: seq<Request>, messages: seq<Message>, turn: seq<Message>)
    requires requests != [] && Told(world, requests, messages, |requests| - 1)
    requires requests[|requests| - 1].produced == |messages| && TurnAdds(world, |requests| - 1, turn)
    ensures Told(world, requests, messages + turn, |requests|)
    ensures LastEnd(world, requests, messages + turn) == TurnEnd(world, |requests| - 1, turn)
  {
    hide TurnAdds, TurnEnd, Prompted;
    var all := messages + turn;
    forall k | 0 <= k < |requests| ensures TurnTold(world, requests, all, k) {
      if k < |requests| - 1 {
        assert TurnTold(world, requests, messages, k);
        assert all[requests[k].produced..requests[k + 1].produced] == messages[requests[k].produced..requests[k + 1].produced];
      } else {
        assert all[|messages|..|all|] == turn;
      }
    }
    assert all[|messages|..] == turn;
  }

  class AgentRun {
    const world: World
    const window: int
    const tok: Tokenizer
    var working: seq<Message>
    var messages: seq<Message>            // the result's messages
    var finalOutput: string
    var memory: seq<Message>              // what this run has appended to memory
    ghost var requests: seq<Request>      // every request sent to the model

    constructor (world: World, window: int, tok: Tokenizer)
      ensures this.world == world && this.window == window && this.tok == tok
      ensures working == [] && messages == [] && memory == [] && requests == [] && finalOutput == ""
    {
      this.world, this.window, this.tok := world, window, tok;
      working, messages, memory, requests, finalOutput := [], [], [], [], "";
    }

    method AppendMemory(m: Message)
      modifies this`memory
      ensures memory == if m.transient then old(memory) else old(memory) + [m]
    {
      if !m.transient {
        memory := memory + [m];
      }
    }

    /** Builds the request for the next model call: the prompt's system messages and the working messages, trimmed to
        the window if they exceed it; the working messages lose as many messages as the request did. If they were the
        end of a paired conversation, the request is paired unless it is sent untrimmed and begins with a tool result. */
    method BuildRequest(turn: nat, ghost conversation: seq<Message>, ghost cut: nat)
      returns (request: seq<Message>, ghost q: Request)
      requires turn == |requests| && cut <= |conversation| && working == conversation[cut..]
      modifies this`working, this`requests
      ensures requests == old(requests) + [q]
      ensures q.working == old(working) && q.messages == request && q.produced == |messages|
      ensures Prompted(world.prompts(turn), q.prompts) && Built(tok, window, q)
      ensures Lost(q) <= |q.working| && working == q.working[Lost(q)..]
      ensures Paired(conversation) ==>
                && (Paired(request) <==> Exceeds(tok, window, q) || !StartsWithResult(old(working)))
                && (Paired(working) <==> Boundary(conversation, cut + Lost(q)))
    {
      hide *;
      var prompts := MarkSystem(world.prompts(turn));
      request, q := TrimAndSync(prompts);
      requests := requests + [q];
      RequestFacts(q, conversation, cut);
    }

    /** Puts prompts and working messages together, trims them if they do not fit, and synchronises the working messages. */
    method TrimAndSync(prompts: seq<Message>) returns (request: seq<Message>, ghost q: Request)
      requires AllSystem(prompts)
      modifies this`working
      ensures q.prompts == prompts && q.working == old(working) && q.messages == request && q.produced == |messages|
      ensures Built(tok, window, q)
      ensures Lost(q) <= |q.working| && working == q.working[Lost(q)..]
    {
      hide *;
      request := prompts + working;
      var before := request;
      ghost var working0 := working;
      var est := CountMessages(tok, request);
      if window > 0 && est > window {
        request := TrimToContextWindow(tok, request, window);
        var trimmed := |before| - |request|;
        if trimmed > 0 && trimmed <= |working| {
          working := working[trimmed..];
        }
      }
      q := Request(prompts, working0, |messages|, request);
      BuiltSo(q, before, working);
    }

    lemma BuiltSo(q: Request, before: seq<Message>, kept: seq<Message>)
      requires AllSystem(q.prompts) && before == q.prompts + q.working
      requires if window > 0 && TotalCost(tok, before) > window then
                 (before != [] ==>
                   var rest := WithoutSystem(before);
                   && |q.messages| <= |before| && |before| - |q.messages| <= |rest|
                   && q.messages == SystemOnly(before) + rest[|before| - |q.messages|..]
                   && TrimmedAt(tok, rest, TrimBudget(tok, before, window), |before| - |q.messages|))
                 && (before == [] ==> q.messages == before)
               else q.messages == before
      requires var lost := |before| - |q.messages|;
               kept == if window > 0 && TotalCost(tok, before) > window && 0 < lost <= |q.working| then q.working[lost..]
                       else q.working
      ensures Built(tok, window, q) && Lost(q) <= |q.working| && kept == q.working[Lost(q)..]
    {
      hide WithoutSystem, SystemOnly, TotalCost, TrimmedAt, TrimBudget;
      SplitConcat(q.prompts, q.working);
      SplitPure(q.prompts);
      assert WithoutSystem(before) == WithoutSystem(q.working);
      if Exceeds(tok, window, q) {
        CostsSomething(tok, before);
      }
      LostFits(tok, window, q);
    }

    lemma RequestFacts(q: Request, conversation: seq<Message>, cut: nat)
      requires cut <= |conversation| && q.working == conversation[cut..] && Built(tok, window, q) && Lost(q) <= |q.working|
      ensures Paired(conversation) ==>
                && (Paired(q.messages) <==> Exceeds(tok, window, q) || !StartsWithResult(q.working))
                && (Paired(q.working[Lost(q)..]) <==> Boundary(conversation, cut + Lost(q)))
    {
      hide *;
      if Paired(conversation) {
        RequestPairedIff(tok, window, q, conversation, cut);
        SuffixPairedIff(conversation, cut + Lost(q));
        SuffixOfSuffix(conversation, cut, Lost(q));
      }
    }

    /** The model's answer joins the working messages and memory, and the output guard looks at it. */
    method AcceptAnswer(turn: nat, answer: Message) returns (blocked: bool)
      requires answer.role == Assistant && !answer.transient
      modifies this`working, this`messages, this`memory, this`finalOutput
      ensures working == old(working) + [answer] && messages == old(messages) + [answer]
      ensures memory == old(memory) + [answer] && finalOutput == answer.content
      ensures blocked <==> Blocks(world, turn)
    {
      finalOutput := answer.content;
      messages := messages + [answer];
      working := working + [answer];
      AppendMemory(answer);
      blocked := world.hasGuard && world.answerBlocked(turn);
    }

    /** The tool results join the conversation one by one, each looked at by the output guard, which may replace its
        content or abort the run. Without a guard all of them join as they are. */
    method AcceptResults(turn: nat, calls: seq<ToolCall>, results: seq<Message>) returns (n: nat, ghost accepted: seq<Message>)
      requires Answers(results, calls) && forall i :: 0 <= i < |results| ==> !results[i].transient
      modifies this`working, this`messages, this`memory
      ensures n == |accepted| <= |results| && Accepted(calls, |accepted|, accepted)
      ensures forall i :: 0 <= i < |accepted| ==>
                !(world.hasGuard && world.judge(turn)(i).Tripwire?) &&
                accepted[i] == if world.hasGuard && world.judge(turn)(i).Replaced?
                               then results[i].(content := world.judge(turn)(i).notice) else results[i]
      ensures |accepted| < |results| ==> world.hasGuard && world.judge(turn)(|accepted|).Tripwire?
      ensures !world.hasGuard ==> accepted == results
      ensures working == old(working) + accepted && messages == old(messages) + accepted && memory == old(memory) + accepted
    {
      hide Answers;
      n, accepted := 0, [];
      while n < |results|
        invariant n == |accepted| <= |results|
        invariant forall i :: 0 <= i < n ==>
                    !(world.hasGuard && world.judge(turn)(i).Tripwire?) &&
                    accepted[i] == if world.hasGuard && world.judge(turn)(i).Replaced?
                                   then results[i].(content := world.judge(turn)(i).notice) else results[i]
        invariant working == old(working) + accepted && messages == old(messages) + accepted
        invariant memory == old(memory) + accepted
      {
        var m := results[n];
        if world.hasGuard {
          match world.judge(turn)(n) {
            case Tripwire =>
              StillAnswers(calls, results, accepted);
              return;
            case Replaced(notice) =>
              m := m.(content := notice);
            case Passed =>
          }
        }
        messages := messages + [m];
        AppendMemory(m);
        working := working + [m];
        accepted := accepted + [m];
        n := n + 1;
      }
      StillAnswers(calls, results, accepted);
    }

    /** What holds between two turns: memory, result and conversation in step and paired, and the working messages the
        conversation without what the requests have cut off its beginning. */
    ghost predicate Underway(input: Message, start: seq<Message>)
      reads this`working, this`messages, this`memory, this`requests
    {
      && Paired(memory) && Paired(messages) && Paired(start + messages)
      && Persisted(input, memory, messages, []) && NoSystem(messages)
      && Synced(working, requests, start, messages)
      && Sent(tok, window, requests, start, messages)
    }

    /** What a run leaves behind when it ends with r: what it produced is persisted in order after its input, a final
        note apart, and paired unless a guard aborted it inside an exchange; and every request is as described. */
    ghost predicate Ended(r: RunResult, input: Message, start: seq<Message>)
      reads this`messages, this`memory, this`requests
    {
      && (Paired(memory) <==> !(r == OutputBlocked(true) || r == ToolTripwire))
      && (Paired(messages) <==> !(r == OutputBlocked(true) || r == ToolTripwire))
      && exists note: seq<Message> {:trigger AllSystem(note)} ::
           && Persisted(input, memory, messages, note) && (r != Finished ==> note == [])
           && var body := messages[..|messages| - |note|];
              NoSystem(body) && (r == Finished ==> EndsWithAnswer(body)) && Sent(tok, window, requests, start, body)
    }

    /** Runs the agent from a paired history, prefix and input, to the end described by Ended. Every request pairs each
        tool call with exactly its results unless it is sent untrimmed while the working messages begin with a tool
        result; that does not happen before a request has been trimmed, nor without system messages among history and
        prefix. */
    method Run(history: seq<Message>, prefix: seq<Message>, input: Message, maxTurns0: int) returns (r: RunResult)
      requires working == [] && messages == [] && memory == [] && requests == []
      requires Paired(history) && Paired(prefix) && input.role == User
      modifies this
      ensures Ended(r, input, StripInput(history) + prefix + [input])
      // the result is exactly what the turns add, and ends as the last of them does
      ensures Told(world, requests, messages, |requests|)
      ensures EndsAs(world, requests, messages, r, if maxTurns0 <= 0 then 20 else maxTurns0)
      ensures |requests| <= if maxTurns0 <= 0 then 20 else maxTurns0
      ensures requests != [] && world.answer(|requests| - 1).Some? ==>
                finalOutput == world.answer(|requests| - 1).value.content
      ensures forall k :: 0 <= k < |requests| ==>
                (Paired(requests[k].messages) <==> Exceeds(tok, window, requests[k]) || !StartsWithResult(requests[k].working))
      ensures forall k :: 0 <= k < |requests| && (forall j :: 0 <= j < k ==> !Exceeds(tok, window, requests[j])) ==>
                Paired(requests[k].messages)
      ensures NoSystem(history) && NoSystem(prefix) ==> forall k :: 0 <= k < |requests| ==> Paired(requests[k].messages)
      ensures r == InputBlocked ==> messages == [] && requests == []
    {
      hide *;
      LimitIs(maxTurns0);
      ghost var start := StripInput(history) + prefix + [input];
      r := Turns(start, history, prefix, input, maxTurns0);
      forall k | 0 <= k < |requests|
        ensures Paired(requests[k].messages) <==> Exceeds(tok, window, requests[k]) || !StartsWithResult(requests[k].working)
      {
        EndedPairedIff(r, input, start, k);
      }
      forall k | 0 <= k < |requests| && (forall j :: 0 <= j < k ==> !Exceeds(tok, window, requests[j]))
        ensures Paired(requests[k].messages)
      {
        EndedUntilTrimmed(r, input, start, k);
      }
      if NoSystem(history) && NoSystem(prefix) {
        StartWithoutSystem(history, prefix, input);
        forall k | 0 <= k < |requests| ensures Paired(requests[k].messages) {
          EndedWithoutSystem(r, input, start, k);
        }
      }
    }

    /** The turn loop. */
    method Turns(ghost start: seq<Message>, history: seq<Message>, prefix: seq<Message>, input: Message, maxTurns0: int)
      returns (r: RunResult)
      requires working == [] && messages == [] && memory == [] && requests == []
      requires Paired(history) && Paired(prefix) && input.role == User && start == StripInput(history) + prefix + [input]
      modifies this
      ensures Ended(r, input, start) && Told(world, requests, messages, |requests|)
      ensures EndsAs(world, requests, messages, r, TurnLimit(maxTurns0))
      ensures |requests| <= TurnLimit(maxTurns0)
      ensures r == InputBlocked ==> messages == [] && requests == []
      ensures requests != [] && world.answer(|requests| - 1).Some? ==>
                finalOutput == world.answer(|requests| - 1).value.content
    {
      hide *;
      var maxTurns := TurnLimit(maxTurns0);
      var turn := 0;
      Begin(start, history, prefix, input);
      while turn < maxTurns
        invariant |requests| == turn && turn <= maxTurns && (turn == 0 ==> messages == [])
        invariant Underway(input, start)
        invariant Told(world, requests, messages, |requests|) && LastEnd(world, requests, messages) == None
        invariant turn > 0 && world.answer(turn - 1).Some? ==> finalOutput == world.answer(turn - 1).value.content
      {
        if world.cancelled(turn) {
          Stopped(Cancelled, input, start);
          EndsBetween(world, requests, messages, Cancelled, maxTurns);
          return Cancelled;
        }
        if turn == 0 && world.inputBlocked {
          Stopped(InputBlocked, input, start);
          EndsBetween(world, requests, messages, InputBlocked, maxTurns);
          return InputBlocked;
        }
        var done: bool;
        done, r := Turn(turn, input, start);
        turn := turn + 1;
        if done {
          EndsWithTurn(world, requests, messages, r, maxTurns);
          return;
        }
      }
      r := OutOfTurns;
      Stopped(r, input, start);
      EndsBetween(world, requests, messages, r, maxTurns);
    }

    /** Stores the input and puts the working messages together. */
    method Begin(ghost start: seq<Message>, history: seq<Message>, prefix: seq<Message>, input: Message)
      requires working == [] && messages == [] && memory == [] && requests == []
      requires Paired(history) && Paired(prefix) && input.role == User && start == StripInput(history) + prefix + [input]
      modifies this`working, this`memory
      ensures Underway(input, start)
      ensures Told(world, requests, messages, 0) && LastEnd(world, requests, messages) == None
    {
      hide *;
      AppendMemory(input);
      InputPaired(input, memory);
      working := StripInput(history) + prefix + [input];
      StartPaired(history, prefix, input);
      NothingProduced(input, memory);
      NothingSent(tok, window, start);
      Begun(input, start);
      NothingTold(world);
    }

    /** One turn: a request, the model's answer, and the results of its tool calls. It adds exactly what turn k adds, and
        the run goes on or ends accordingly. */
    method Turn(turn: nat, ghost input: Message, ghost start: seq<Message>) returns (done: bool, r: RunResult)
      requires Underway(input, start) && turn == |requests|
      requires Told(world, requests, messages, |requests|) && LastEnd(world, requests, messages) == None
      modifies this`working, this`messages, this`memory, this`requests, this`finalOutput
      ensures |requests| == old(|requests|) + 1
      ensures Told(world, requests, messages, |requests|)
      ensures LastEnd(world, requests, messages) == if done then Some(r) else None
      ensures if done then r != OutOfTurns && r != InputBlocked && Ended(r, input, start) else Underway(input, start)
      ensures old(messages) <= messages && TurnAdds(world, turn, messages[|old(messages)|..])
      ensures world.answer(turn).Some? ==> finalOutput == world.answer(turn).value.content
    {
      hide *;
      SendRequest(turn, input, start);
      if world.answer(turn).None? {
        NoTurn(world, turn, requests, messages);
        Stopped(ModelFailed, input, start);
        return true, ModelFailed;
      }
      var answer := world.answer(turn).value.(role := Assistant, toolCallID := "", transient := false);
      AnswerIs(world, turn, answer);
      ghost var added;
      ghost var messages0 := messages;
      done, r, added := TakeAnswer(turn, answer, input, start);
      ToldTurn(world, requests, messages0, added);
    }

    /** Builds the next request from the conversation so far. */
    method SendRequest(turn: nat, ghost input: Message, ghost start: seq<Message>)
      requires Underway(input, start) && turn == |requests|
      requires Told(world, requests, messages, |requests|) && LastEnd(world, requests, messages) == None
      modifies this`working, this`requests
      ensures Underway(input, start) && |requests| == turn + 1
      ensures Told(world, requests, messages, turn) && requests[turn].produced == |messages|
      ensures Prompted(world.prompts(turn), requests[turn].prompts)
    {
      hide *;
      UnderwayParts(input, start);
      SyncedIs(start);
      ghost var requests0 := requests;
      var request;
      ghost var q;
      request, q := BuildRequest(turn, start + messages, Cut(requests));
      SentSnoc(tok, window, requests0, start, messages, q);
      ToldSent(world, requests0, messages, q);
      Regain(input, start);
    }

    lemma SyncedIs(start: seq<Message>)
      requires Synced(working, requests, start, messages)
      ensures Cut(requests) <= |start + messages| && working == (start + messages)[Cut(requests)..]
    {
    }

    /** What follows the model's answer: the output guard, the end of the run, or the tool calls. */
    method TakeAnswer(turn: nat, answer: Message, ghost input: Message, ghost start: seq<Message>)
      returns (done: bool, r: RunResult, ghost added: seq<Message>)
      requires Underway(input, start) && answer.role == Assistant && !answer.transient
      requires world.answer(turn).Some? && answer == AnswerOf(world, turn)
      modifies this`working, this`messages, this`memory, this`finalOutput
      ensures messages == old(messages) + added && TurnAdds(world, turn, added)
      ensures TurnEnd(world, turn, added) == if done then Some(r) else None
      ensures if done then r != OutOfTurns && r != InputBlocked && Ended(r, input, start) else Underway(input, start)
      ensures finalOutput == answer.content
    {
      hide *;
      UnderwayParts(input, start);
      ghost var memory0, messages0, working0 := memory, messages, working;
      var blocked := AcceptAnswer(turn, answer);
      AnswerNoSystem(answer);
      Produced(input, memory0, messages0, working0, start, requests, [answer], tok, window);
      AnswerAlone(memory0, answer);
      AnswerAlone(messages0, answer);
      if blocked {
        r, added := OutputBlocked(answer.toolCalls != []), [answer];
        BlockedTurn(world, turn, answer);
        Aborted(r, input, start);
        return true, r, added;
      }
      if answer.toolCalls == [] {
        ghost var note;
        messages, note := FinishNote(world.finishReason(turn), messages);
        added := [answer] + note;
        FinalTurn(world, turn, answer, note);
        FinalAnswer(input, memory, messages0 + [answer], messages);
        EndsInAnswer(messages0, answer);
        Concluded(input, messages0 + [answer], start);
        return true, Finished, added;
      }
      done, r, added := TakeCalls(turn, answer, input, start, memory0, messages0, working0);
    }

    /** The answer's calls are run and their results join the conversation. */
    method TakeCalls(turn: nat, answer: Message, ghost input: Message, ghost start: seq<Message>, ghost memory0: seq<Message>,
                     ghost messages0: seq<Message>, ghost working0: seq<Message>)
      returns (done: bool, r: RunResult, ghost added: seq<Message>)
      requires answer.role == Assistant && answer.toolCalls != []
      requires world.answer(turn).Some? && answer == AnswerOf(world, turn) && !Blocks(world, turn)
      requires memory == memory0 + [answer] && messages == messages0 + [answer] && working == working0 + [answer]
      requires Paired(memory0) && Paired(messages0) && Paired(start + messages0)
      requires Persisted(input, memory, messages, []) && NoSystem(messages)
      requires Synced(working, requests, start, messages) && Sent(tok, window, requests, start, messages)
      modifies this`working, this`messages, this`memory
      ensures messages == messages0 + added && TurnAdds(world, turn, added)
      ensures TurnEnd(world, turn, added) == if done then Some(r) else None
      ensures if done then (r == ToolTripwire || r == Handoff) && Ended(r, input, start) else Underway(input, start)
    {
      hide *;
      var results, _ := ExecuteTools(world.tools, world.approver(turn), world.behave(turn), answer.toolCalls);
      ResultsPersist(world, turn, answer.toolCalls, results);
      var n: nat;
      ghost var accepted;
      n, accepted := AcceptResults(turn, answer.toolCalls, results);
      added := [answer] + accepted;
      ToolTurn(world, turn, answer, results, accepted);
      ExchangeAdded(memory0, answer, |accepted|, accepted);
      ExchangeAdded(messages0, answer, |accepted|, accepted);
      AcceptedNoSystem(answer.toolCalls, |accepted|, accepted);
      Produced(input, memory0 + [answer], messages0 + [answer], working0 + [answer], start, requests, accepted, tok, window);
      if n < |answer.toolCalls| {
        Aborted(ToolTripwire, input, start);
        return true, ToolTripwire, added;
      }
      ConversationPaired(start, messages0, answer, |accepted|, accepted);
      Regain(input, start);
      var handoff := CallsEndTurn(world.tools, answer.toolCalls);
      if handoff {
        Stopped(Handoff, input, start);
        return true, Handoff, added;
      }
      return false, Handoff, added;
    }

    lemma UnderwayParts(input: Message, start: seq<Message>)
      requires Underway(input, start)
      ensures Paired(memory) && Paired(messages) && Paired(start + messages)
      ensures Persisted(input, memory, messages, []) && NoSystem(messages)
      ensures Synced(working, requests, start, messages)
      ensures Sent(tok, window, requests, start, messages)
    {
    }

    lemma Regain(input: Message, start: seq<Message>)
      requires Paired(memory) && Paired(messages) && Paired(start + messages)
      requires Persisted(input, memory, messages, []) && NoSystem(messages)
      requires Synced(working, requests, start, messages)
      requires Sent(tok, window, requests, start, messages)
      ensures Underway(input, start)
    {
    }

    lemma Begun(input: Message, start: seq<Message>)
      requires Paired(memory) && Paired([]) && Persisted(input, memory, [], []) && messages == [] && requests == []
      requires Paired(start) && working == start && start + [] == start
      requires Sent(tok, window, [], start, []) && Synced(start, [], start, [])
      ensures Underway(input, start)
    {
      hide Paired, Persisted, Sent, Synced;
    }

    lemma Stopped(r: RunResult, input: Message, start: seq<Message>)
      requires Underway(input, start) && r != Finished && r != OutputBlocked(true) && r != ToolTripwire
      ensures Ended(r, input, start)
    {
      hide Paired, Persisted, Sent, Synced;
      assert AllSystem([]) && messages[..|messages|] == messages;
    }

    lemma Aborted(r: RunResult, input: Message, start: seq<Message>)
      requires Persisted(input, memory, messages, []) && r != Finished && NoSystem(messages)
      requires Paired(memory) <==> !(r == OutputBlocked(true) || r == ToolTripwire)
      requires Paired(messages) <==> !(r == OutputBlocked(true) || r == ToolTripwire)
      requires Sent(tok, window, requests, start, messages)
      ensures Ended(r, input, start)
    {
      hide Paired, Persisted, Sent;
      assert AllSystem([]) && messages[..|messages|] == messages;
    }

    lemma Concluded(input: Message, body: seq<Message>, start: seq<Message>)
      requires body <= messages && EndsWithAnswer(body) && AllSystem(messages[|body|..]) && NoSystem(body)
      requires Persisted(input, memory, messages, messages[|body|..]) && Paired(memory) && Paired(messages)
      requires Sent(tok, window, requests, start, body)
      ensures Ended(Finished, input, start)
    {
      hide Paired, Persisted, Sent, EndsWithAnswer;
      var note := messages[|body|..];
      assert messages[..|messages| - |note|] == body;
    }

    lemma EndedPairedIff(r: RunResult, input: Message, start: seq<Message>, k: nat)
      requires Ended(r, input, start) && k < |requests|
      ensures Paired(requests[k].messages) <==> Exceeds(tok, window, requests[k]) || !StartsWithResult(requests[k].working)
    {
      hide Paired, Sent, EndsWithAnswer, Exceeds;
      var body := EndedBody(r, input, start);
      RequestsPairedIff(tok, window, requests, start, body, k);
    }

    lemma EndedUntilTrimmed(r: RunResult, input: Message, start: seq<Message>, k: nat)
      requires Ended(r, input, start) && k < |requests| && forall j :: 0 <= j < k ==> !Exceeds(tok, window, requests[j])
      ensures Paired(requests[k].messages)
    {
      hide Paired, Sent, EndsWithAnswer, Exceeds;
      var body := EndedBody(r, input, start);
      PairedUntilTrimmed(tok, window, requests, start, body, k);
    }

    lemma EndedWithoutSystem(r: RunResult, input: Message, start: seq<Message>, k: nat)
      requires Ended(r, input, start) && k < |requests| && NoSystem(start)
      ensures Paired(requests[k].messages)
    {
      hide Paired, Sent, EndsWithAnswer, Exceeds;
      var body := EndedBody(r, input, start);
      PairedWithoutSystem(tok, window, requests, start, body, k);
    }

    lemma EndedBody(r: RunResult, input: Message, start: seq<Message>) returns (body: seq<Message>)
      requires Ended(r, input, start)
      ensures NoSystem(body) && Sent(tok, window, requests, start, body)
    {
      hide Paired, Sent, EndsWithAnswer;
      var note: seq<Message> :| AllSystem(note) && Persisted(input, memory, messages, note) && (r != Finished ==> note == [])
        && var b := messages[..|messages| - |note|];
           NoSystem(b) && (r == Finished ==> EndsWithAnswer(b)) && Sent(tok, window, requests, start, b);
      body := messages[..|messages| - |note|];
    }
  }

  /** Memory holds the input, unless it is transient, and then what was produced; a final note is not stored. */
  predicate Persisted(input: Message, memory: seq<Message>, messages: seq<Message>, note: seq<Message>) {
    && |note| <= 1 && AllSystem(note) && |note| <= |messages|
    && messages[|messages| - |note|..] == note
    && memory == (if input.transient then [] else [input]) + messages[..|messages| - |note|]
  }

  lemma NothingProduced(input: Message, memory: seq<Message>)
    requires memory == if input.transient then [] else [input]
    ensures Persisted(input, memory, [], [])
  {
  }

  /** Messages that join memory, the result and the working messages together keep the three in step. */
  lemma Produced(input: Message, memory: seq<Message>, messages: seq<Message>, working: seq<Message>, start: seq<Message>,
                 requests: seq<Request>, more: seq<Message>, tok: Tokenizer, window: int)
    requires Persisted(input, memory, messages, []) && NoSystem(messages) && NoSystem(more)
    requires Synced(working, requests, start, messages) && Sent(tok, window, requests, start, messages)
    ensures Persisted(input, memory + more, messages + more, []) && NoSystem(messages + more)
    ensures Synced(working + more, requests, start, messages + more) && Sent(tok, window, requests, start, messages + more)
  {
    hide Sent, Synced;
    SyncedGrows(working, requests, start, messages, more);
    SentGrows(tok, window, requests, start, messages, more);
  }

  lemma FinalAnswer(input: Message, memory: seq<Message>, before: seq<Message>, messages: seq<Message>)
    requires Persisted(input, memory, before, []) && before <= messages
    requires |messages| <= |before| + 1 && AllSystem(messages[|before|..])
    ensures Persisted(input, memory, messages, messages[|before|..])
  {
    var note := messages[|before|..];
    assert messages == before + note;
    assert messages[..|messages| - |note|] == before;
  }

  lemma AnswerNoSystem(answer: Message)
    requires answer.role == Assistant
    ensures NoSystem([answer])
  {
  }

  lemma AcceptedNoSystem(calls: seq<ToolCall>, n: nat, accepted: seq<Message>)
    requires Accepted(calls, n, accepted)
    ensures NoSystem(accepted)
  {
  }

  lemma StartWithoutSystem(history: seq<Message>, prefix: seq<Message>, input: Message)
    requires NoSystem(history) && NoSystem(prefix) && input.role == User
    ensures NoSystem(StripInput(history) + prefix + [input])
  {
  }

  /** A completed exchange keeps the conversation paired. */
  lemma ConversationPaired(start: seq<Message>, messages: seq<Message>, answer: Message, n: nat, accepted: seq<Message>)
    requires Paired(start + messages) && answer.role == Assistant && answer.toolCalls != []
    requires Accepted(answer.toolCalls, n, accepted) && n == |answer.toolCalls|
    ensures Paired(start + (messages + [answer] + accepted))
  {
    hide Paired;
    ExchangeAdded(start + messages, answer, n, accepted);
    assert start + (messages + [answer] + accepted) == (start + messages) + [answer] + accepted;
  }

  /** Some call is of a tool that ends the turn. */
  predicate EndsSome(tools: Registry, calls: seq<ToolCall>) {
    exists i :: 0 <= i < |calls| && EndsTurn(tools, calls[i].name)
  }

  /** Looks for a call of a tool that ends the turn. */
  method CallsEndTurn(tools: Registry, calls: seq<ToolCall>) returns (ends: bool)
    ensures ends <==> EndsSome(tools, calls)
  {
    for i := 0 to |calls|
      invariant forall j :: 0 <= j < i ==> !EndsTurn(tools, calls[j].name)
    {
      if EndsTurn(tools, calls[i].name) {
        return true;
      }
    }
    ends := false;
  }

  lemma AnswerIs(world: World, k: nat, answer: Message)
    requires world.answer(k).Some? && answer == world.answer(k).value.(role := Assistant, toolCallID := "", transient := false)
    ensures answer == AnswerOf(world, k) && answer.role == Assistant && !answer.transient
  {
  }

  lemma NoTurn(world: World, k: nat, requests: seq<Request>, messages: seq<Message>)
    requires world.answer(k).None? && |requests| == k + 1 && requests[k].produced == |messages|
    requires Told(world, requests, messages, k)
    ensures Told(world, requests, messages, k + 1) && LastEnd(world, requests, messages) == Some(ModelFailed)
    ensures TurnAdds(world, k, messages[|messages|..])
  {
    ToldTurn(world, requests, messages, []);
    assert messages + [] == messages;
  }

  lemma BlockedTurn(world: World, k: nat, answer: Message)
    requires world.answer(k).Some? && answer == AnswerOf(world, k) && Blocks(world, k)
    ensures TurnAdds(world, k, [answer]) && TurnEnd(world, k, [answer]) == Some(OutputBlocked(answer.toolCalls != []))
  {
  }

  lemma FinalTurn(world: World, k: nat, answer: Message, note: seq<Message>)
    requires world.answer(k).Some? && answer == AnswerOf(world, k) && !Blocks(world, k) && answer.toolCalls == []
    requires Noted(world.finishReason(k), note)
    ensures TurnAdds(world, k, [answer] + note) && TurnEnd(world, k, [answer] + note) == Some(Finished)
  {
    assert ([answer] + note)[1..] == note;
  }

  lemma ToolTurn(world: World, k: nat, answer: Message, results: seq<Message>, accepted: seq<Message>)
    requires world.answer(k).Some? && answer == AnswerOf(world, k) && !Blocks(world, k) && answer.toolCalls != []
    requires |results| == |answer.toolCalls| && forall i :: 0 <= i < |results| ==>
               results[i] == ResultMessage(answer.toolCalls[i],
                                           FateOf(world.tools, world.approver(k), world.behave(k), answer.toolCalls[i], i))
    requires |accepted| <= |results| && (|accepted| < |results| ==> world.hasGuard && world.judge(k)(|accepted|).Tripwire?)
    requires forall i :: 0 <= i < |accepted| ==>
               !(world.hasGuard && world.judge(k)(i).Tripwire?) &&
               accepted[i] == if world.hasGuard && world.judge(k)(i).Replaced?
                              then results[i].(content := world.judge(k)(i).notice) else results[i]
    ensures TurnAdds(world, k, [answer] + accepted)
    ensures TurnEnd(world, k, [answer] + accepted) ==
            if |accepted| < |answer.toolCalls| then Some(ToolTripwire)
            else if EndsSome(world.tools, answer.toolCalls) then Some(Handoff) else None
  {
    hide FateOf, ResultMessage, EndsSome;
    assert ([answer] + accepted)[1..] == accepted;
  }

  lemma EndsBetween(world: World, requests: seq<Request>, messages: seq<Message>, r: RunResult, limit: nat)
    requires LastEnd(world, requests, messages) == None
    requires (r == OutOfTurns && |requests| == limit) || (r == Cancelled && world.cancelled(|requests|)) ||
             (r == InputBlocked && world.inputBlocked && requests == [])
    ensures EndsAs(world, requests, messages, r, limit)
  {
  }

  lemma EndsWithTurn(world: World, requests: seq<Request>, messages: seq<Message>, r: RunResult, limit: nat)
    requires LastEnd(world, requests, messages) == Some(r)
    ensures EndsAs(world, requests, messages, r, limit)
  {
  }

  lemma NothingTold(world: World)
    ensures Told(world, [], [], 0) && LastEnd(world, [], []) == None
  {
  }

  lemma LimitIs(maxTurns: int)
    ensures TurnLimit(maxTurns) == if maxTurns <= 0 then 20 else maxTurns
  {
  }

  function TurnLimit(maxTurns: int): (n: nat)
    ensures n > 0
  {
    if maxTurns <= 0 then DEFAULT_TURNS else maxTurns
  }

  /** The last message is an answer without tool calls. */
  predicate EndsWithAnswer(ms: seq<Message>) {
    ms != [] && ms[|ms| - 1].role == Assistant && !HasCalls(ms[|ms| - 1])
  }

  lemma EndsInAnswer(before: seq<Message>, answer: Message)
    requires answer.role == Assistant && answer.toolCalls == []
    ensures EndsWithAnswer(before + [answer])
  {
  }

  /** Results that are the given ones but for their content answer the same calls. */
  lemma StillAnswers(calls: seq<ToolCall>, results: seq<Message>, accepted: seq<Message>)
    requires Answers(results, calls) && |accepted| <= |results|
    requires forall i :: 0 <= i < |accepted| ==>
               accepted[i] == results[i] || accepted[i] == results[i].(content := accepted[i].content)
    ensures Accepted(calls, |accepted|, accepted)
  {
  }

  /** The first n calls' results, content aside. */
  ghost predicate Accepted(calls: seq<ToolCall>, n: nat, accepted: seq<Message>) {
    |accepted| == n <= |calls| && forall i :: 0 <= i < n ==> accepted[i].role == Tool && accepted[i].toolCallID == calls[i].id
  }

  /** An abnormal finish reason leaves a system note at the end of the result. */
  method FinishNote(reason: string, messages: seq<Message>) returns (r: seq<Message>, ghost note: seq<Message>)
    requires Paired(messages)
    ensures Paired(r) && r == messages + note && Noted(reason, note)
    ensures |note| <= 1 && AllSystem(note) && r[|messages|..] == note
  {
    hide Paired;
    note := [];
    if reason == "" || reason == "stop" {
      return messages, note;
    }
    var m := PlainMessage(System, "[run ended: finish_reason=" + reason + "]");
    note := [m];
    r := messages + [m];
    ExchangePaired(m, []);
    assert [m] + [] == [m];
    PairedConcat(messages, [m]);
  }

  /** The prompt's messages, sent as system messages. */
  predicate Prompted(prompts: seq<Message>, sent: seq<Message>) {
    AllSystem(sent) && |sent| == |prompts| && forall i :: 0 <= i < |sent| ==> sent[i].content == prompts[i].content
  }

  method MarkSystem(prompts: seq<Message>) returns (r: seq<Message>)
    ensures Prompted(prompts, r) && AllSystem(r)
  {
    r := seq(|prompts|, i requires 0 <= i < |prompts| => prompts[i].(role := System));
  }

  lemma CostsSomething(tok: Tokenizer, ms: seq<Message>)
    requires TotalCost(tok, ms) > 0
    ensures ms != []
  {
  }

  lemma InputPaired(input: Message, memory: seq<Message>)
    requires input.role == User && (memory == [] || memory == [input])
    ensures Paired(memory) && Paired([])
  {
    ExchangePaired(input, []);
    assert [input] + [] == [input];
  }

  lemma StartPaired(history: seq<Message>, prefix: seq<Message>, input: Message)
    requires Paired(history) && Paired(prefix) && input.role == User
    ensures Paired(StripInput(history) + prefix + [input])
  {
    hide Paired;
    if history != [] && history[|history| - 1].role == User {
      PairedSplit(history, |history| - 1);
    }
    ExchangePaired(input, []);
    assert [input] + [] == [input];
    PairedConcat(StripInput(history), prefix);
    PairedConcat(StripInput(history) + prefix, [input]);
  }

  /** An answer on its own is paired exactly if it calls no tools. */
  lemma AnswerAlone(before: seq<Message>, answer: Message)
    requires Paired(before) && answer.role == Assistant
    ensures Paired(before + [answer]) <==> !HasCalls(answer)
    ensures HasCalls(answer) <==> answer.toolCalls != []
  {
    hide Paired;
    assert [answer] + [] == [answer];
    if HasCalls(answer) {
      IncompleteUnpaired(before, answer, []);
    } else {
      ExchangePaired(answer, []);
      PairedConcat(before, [answer]);
    }
  }

  /** An answer with calls and the first n results is paired exactly if all results are there. */
  lemma ExchangeAdded(before: seq<Message>, answer: Message, n: nat, accepted: seq<Message>)
    requires Paired(before) && answer.role == Assistant && answer.toolCalls != [] && Accepted(answer.toolCalls, n, accepted)
    ensures Paired(before + [answer] + accepted) <==> n == |answer.toolCalls|
  {
    hide Paired;
    assert before + [answer] + accepted == before + ([answer] + accepted);
    if n == |answer.toolCalls| {
      ExchangePaired(answer, accepted);
      PairedConcat(before, [answer] + accepted);
    } else {
      IncompleteUnpaired(before, answer, accepted);
    }
  }

  lemma ResultsPersist(world: World, k: nat, calls: seq<ToolCall>, results: seq<Message>)
    requires Answers(results, calls)
    requires forall i :: 0 <= i < |calls| ==>
               results[i] == ResultMessage(calls[i], FateOf(world.tools, world.approver(k), world.behave(k), calls[i], i))
    ensures |results| == |calls| && forall i :: 0 <= i < |results| ==> !results[i].transient
  {
  }
}
