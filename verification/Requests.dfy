/** The requests of an agent run: how each is built from the working messages, what trimming does to the working
    messages, and when a request is paired. */
module Requests {
  import opened Messages
  import opened ContextWindow

  /** A request: the prompt's system messages, the working messages and how many messages the run had produced when it
      was built, and the messages sent. */
  datatype Request = Request(prompts: seq<Message>, working: seq<Message>, produced: nat, messages: seq<Message>)

  /** The prompt and the working messages do not fit the window, so the request is trimmed. */
  predicate Exceeds(tok: Tokenizer, window: int, q: Request) {
    window > 0 && TotalCost(tok, q.prompts + q.working) > window
  }

  /** How many messages trimming took away; the working messages lose as many. */
  function Lost(q: Request): nat {
    if |q.prompts| + |q.working| <= |q.messages| then 0 else |q.prompts| + |q.working| - |q.messages|
  }

  /** The request is the prompt and the working messages, trimmed if they do not fit. */
  ghost predicate Built(tok: Tokenizer, window: int, q: Request) {
    && AllSystem(q.prompts)
    && if Exceeds(tok, window, q) then
         var rest := WithoutSystem(q.working);
         && Lost(q) <= |rest|
         && q.messages == SystemOnly(q.prompts + q.working) + rest[Lost(q)..]
         && TrimmedAt(tok, rest, TrimBudget(tok, q.prompts + q.working, window), Lost(q))
       else q.messages == q.prompts + q.working
  }

  predicate StartsWithResult(ms: seq<Message>) {
    ms != [] && ms[0].role == Tool
  }

  /** How much of the conversation a run's requests have cut off its beginning. */
  function Cut(requests: seq<Request>): nat {
    if requests == [] then 0 else Cut(requests[..|requests| - 1]) + Lost(requests[|requests| - 1])
  }

  lemma CutSnoc(requests: seq<Request>, q: Request)
    ensures Cut(requests + [q]) == Cut(requests) + Lost(q)
  {
    assert (requests + [q])[..|requests|] == requests;
  }

  /** Request k worked on the paired conversation of its time, without what the requests before it have cut off. */
  ghost predicate WorkedOn(requests: seq<Request>, k: nat, start: seq<Message>, body: seq<Message>)
    requires k < |requests|
  {
    var q := requests[k];
    && q.produced <= |body| && Paired(start + body[..q.produced])
    && Cut(requests[..k]) <= |start| + q.produced
    && q.working == (start + body[..q.produced])[Cut(requests[..k])..]
  }

  /** The working messages are the conversation without what the requests have cut off. */
  ghost predicate Synced(working: seq<Message>, requests: seq<Request>, start: seq<Message>, body: seq<Message>) {
    Cut(requests) <= |start + body| && working == (start + body)[Cut(requests)..]
  }

  /** The requests of a run with these starting messages that has produced body. */
  ghost predicate Sent(tok: Tokenizer, window: int, requests: seq<Request>, start: seq<Message>, body: seq<Message>) {
    && (forall k :: 0 <= k < |requests| ==> Built(tok, window, requests[k]) && WorkedOn(requests, k, start, body))
    && (forall j, k :: 0 <= j < k < |requests| ==> requests[j].produced <= requests[k].produced)
  }

  // ----- one request -----

  lemma Unexceeded(tok: Tokenizer, window: int, q: Request)
    requires Built(tok, window, q) && !Exceeds(tok, window, q)
    ensures Lost(q) == 0
  {
  }

  lemma LostFits(tok: Tokenizer, window: int, q: Request)
    requires Built(tok, window, q)
    ensures Lost(q) <= |q.working|
  {
    SplitSizes(q.working);
  }

  /** When a request is paired, for working messages that are the end of a paired conversation: always when it is
      trimmed, and otherwise iff the working messages do not begin with a tool result. */
  lemma RequestPairedIff(tok: Tokenizer, window: int, q: Request, conversation: seq<Message>, cut: nat)
    requires Built(tok, window, q) && Paired(conversation) && cut <= |conversation| && q.working == conversation[cut..]
    ensures Paired(q.messages) <==> Exceeds(tok, window, q) || !StartsWithResult(q.working)
  {
    hide Paired, SystemOnly, WithoutSystem, TotalCost, Exceeds;
    AllSystemPaired(q.prompts);
    if Exceeds(tok, window, q) {
      var rest := WithoutSystem(q.working);
      assert conversation == conversation[..cut] + q.working;
      SplitConcat(conversation[..cut], q.working);
      WithoutSystemPaired(conversation);
      var before := |WithoutSystem(conversation[..cut])|;
      SuffixPairedIff(WithoutSystem(conversation), before + Lost(q));
      assert WithoutSystem(conversation)[before + Lost(q)..] == rest[Lost(q)..];
      SystemOnlyAll(q.prompts + q.working);
      AllSystemPaired(SystemOnly(q.prompts + q.working));
      PairedConcat(SystemOnly(q.prompts + q.working), rest[Lost(q)..]);
    } else {
      SuffixPairedIff(conversation, cut);
      PairedConcat(q.prompts, q.working);
    }
  }

  // ----- all requests of a run -----

  /** The exact condition for every request of every run: it is unpaired iff it is sent untrimmed while the working
      messages begin with a tool result. */
  lemma RequestsPairedIff(tok: Tokenizer, window: int, requests: seq<Request>, start: seq<Message>, body: seq<Message>, k: nat)
    requires Sent(tok, window, requests, start, body) && k < |requests|
    ensures Paired(requests[k].messages) <==> Exceeds(tok, window, requests[k]) || !StartsWithResult(requests[k].working)
  {
    hide Built, Paired, Exceeds;
    assert WorkedOn(requests, k, start, body);
    RequestPairedIff(tok, window, requests[k], start + body[..requests[k].produced], Cut(requests[..k]));
  }

  lemma {:induction false} NothingCut(tok: Tokenizer, window: int, requests: seq<Request>)
    requires forall k :: 0 <= k < |requests| ==> Built(tok, window, requests[k]) && !Exceeds(tok, window, requests[k])
    ensures Cut(requests) == 0
  {
    if requests != [] {
      NothingCut(tok, window, requests[..|requests| - 1]);
      Unexceeded(tok, window, requests[|requests| - 1]);
    }
  }

  /** Up to and including the first request that is trimmed, every request is paired and built from the whole
      conversation. */
  lemma PairedUntilTrimmed(tok: Tokenizer, window: int, requests: seq<Request>, start: seq<Message>, body: seq<Message>, k: nat)
    requires Sent(tok, window, requests, start, body) && k < |requests|
    requires forall j :: 0 <= j < k ==> !Exceeds(tok, window, requests[j])
    ensures Paired(requests[k].messages)
    ensures requests[k].produced <= |body| && requests[k].working == start + body[..requests[k].produced]
  {
    hide Built, Exceeds, Paired;
    assert WorkedOn(requests, k, start, body);
    NothingCut(tok, window, requests[..k]);
    var conversation := start + body[..requests[k].produced];
    assert conversation[0..] == conversation;
    RequestPairedIff(tok, window, requests[k], conversation, 0);
    SuffixPairedIff(conversation, 0);
  }

  /** Without system messages among the working messages trimming never cuts an exchange, so every request is paired. */
  lemma PairedWithoutSystem(tok: Tokenizer, window: int, requests: seq<Request>, start: seq<Message>, body: seq<Message>, k: nat)
    requires Sent(tok, window, requests, start, body) && k < |requests| && NoSystem(start) && NoSystem(body)
    ensures Paired(requests[k].messages)
  {
    hide Built, Exceeds, Paired, Cut;
    assert WorkedOn(requests, k, start, body);
    CutBetweenExchanges(tok, window, requests, start, body, k);
    RequestPairedIff(tok, window, requests[k], start + body[..requests[k].produced], Cut(requests[..k]));
  }

  lemma {:induction false} CutBetweenExchanges(tok: Tokenizer, window: int, requests: seq<Request>, start: seq<Message>,
                                               body: seq<Message>, k: nat)
    requires Sent(tok, window, requests, start, body) && k < |requests| && NoSystem(start) && NoSystem(body)
    ensures WorkedOn(requests, k, start, body) && !StartsWithResult(requests[k].working)
  {
    hide Paired, Built, Exceeds, Cut;
    assert WorkedOn(requests, k, start, body);
    var now := start + body[..requests[k].produced];
    if k == 0 {
      assert requests[..0] == [];
      NothingCut(tok, window, requests[..0]);
      assert now[0..] == now;
      SuffixPairedIff(now, 0);
    } else {
      var q := requests[k - 1];
      CutBetweenExchanges(tok, window, requests, start, body, k - 1);
      CutSnoc(requests[..k - 1], q);
      assert requests[..k] == requests[..k - 1] + [q];
      var before := start + body[..q.produced];
      assert q.produced <= requests[k].produced;
      var more := body[q.produced..requests[k].produced];
      assert now == before + more;
      PairedConcat(before, more);
      SuffixPairedIff(more, 0);
      assert more[0..] == more;
      KeptStart(tok, window, q);
      NextStart(before, more, Cut(requests[..k - 1]), Lost(q));
    }
  }

  /** What a request without system messages keeps begins with the user, unless it keeps nothing. */
  lemma KeptStart(tok: Tokenizer, window: int, q: Request)
    requires Built(tok, window, q) && NoSystem(q.working) && !StartsWithResult(q.working)
    ensures Lost(q) <= |q.working| && !StartsWithResult(q.working[Lost(q)..])
  {
    hide TotalCost, SystemOnly, WithoutSystem, Exceeds;
    SplitPure(q.working);
  }

  lemma NextStart(before: seq<Message>, more: seq<Message>, cut: nat, lost: nat)
    requires cut + lost <= |before| && !StartsWithResult(before[cut..][lost..]) && !StartsWithResult(more)
    ensures !StartsWithResult((before + more)[cut + lost..])
  {
    assert before[cut..][lost..] == before[cut + lost..];
    assert (before + more)[cut + lost..] == before[cut + lost..] + more;
  }

  // ----- how a run's requests grow -----

  lemma SentGrows(tok: Tokenizer, window: int, requests: seq<Request>, start: seq<Message>, body: seq<Message>, more: seq<Message>)
    requires Sent(tok, window, requests, start, body)
    ensures Sent(tok, window, requests, start, body + more)
  {
    hide Built, Paired, Cut;
    forall k | 0 <= k < |requests| ensures Built(tok, window, requests[k]) && WorkedOn(requests, k, start, body + more) {
      assert WorkedOn(requests, k, start, body);
      assert (body + more)[..requests[k].produced] == body[..requests[k].produced];
    }
  }

  lemma SyncedGrows(working: seq<Message>, requests: seq<Request>, start: seq<Message>, body: seq<Message>, more: seq<Message>)
    requires Synced(working, requests, start, body)
    ensures Synced(working + more, requests, start, body + more)
  {
    hide Cut;
    assert start + (body + more) == (start + body) + more;
  }

  lemma SentSnoc(tok: Tokenizer, window: int, requests: seq<Request>, start: seq<Message>, body: seq<Message>, q: Request)
    requires Sent(tok, window, requests, start, body) && Built(tok, window, q) && Paired(start + body)
    requires Synced(q.working, requests, start, body) && q.produced == |body|
    ensures Sent(tok, window, requests + [q], start, body)
    ensures Lost(q) <= |q.working| && Synced(q.working[Lost(q)..], requests + [q], start, body)
  {
    hide Built, Paired, Cut, Lost;
    var all := requests + [q];
    CutSnoc(requests, q);
    LostFits(tok, window, q);
    assert body[..|body|] == body;
    assert all[..|requests|] == requests;
    SuffixOfSuffix(start + body, Cut(requests), Lost(q));
    forall k | 0 <= k < |all| ensures Built(tok, window, all[k]) && WorkedOn(all, k, start, body) {
      if k < |requests| {
        assert WorkedOn(requests, k, start, body);
        assert all[..k] == requests[..k];
      }
    }
    forall j, k | 0 <= j < k < |all| ensures all[j].produced <= all[k].produced {
      if k == |requests| {
        assert WorkedOn(requests, j, start, body);
      }
    }
  }

  lemma NothingSent(tok: Tokenizer, window: int, start: seq<Message>)
    ensures Sent(tok, window, [], start, []) && Synced(start, [], start, []) && start + [] == start
  {
    assert (start + [])[0..] == start;
  }

  // ----- a plan step's run can send an unpaired request -----

  const STEP := PlainMessage(System, "")
  const INPUT := PlainMessage(User, "")
  const CALL := PlainMessage(Assistant, "").(toolCalls := [ToolCall("1", "", "")])
  const RESULT := PlainMessage(Tool, "").(toolCallID := "1")

  /** A plan step starts with a system message and its input. With a window of 19 tokens and messages of four tokens the
      second request exceeds the window, trimming leaves no conversation at all, and the working messages, which lose
      three messages too, are left with the result of the first call. The third request fits and is sent unpaired. */
  lemma SyncCanBreakPairing() returns (requests: seq<Request>, body: seq<Message>)
    ensures |requests| == 3 && body == [CALL, RESULT] + [CALL, RESULT]
    ensures Sent(NoTokens, 19, requests, [STEP, INPUT], body)
    ensures requests[1].working == [STEP] + [INPUT, CALL, RESULT] && Exceeds(NoTokens, 19, requests[1])
    ensures requests[2].working == [RESULT] + [CALL, RESULT] && !Exceeds(NoTokens, 19, requests[2])
    ensures !Paired(requests[2].messages)
  {
    var step, input, call, result := STEP, INPUT, CALL, RESULT;
    StepPaired(step, input, call, result);
    requests, body := StepRequests(step, input, call, result);
    RequestsPairedIff(NoTokens, 19, requests, [step, input], body, 2);
  }

  lemma StepRequests(step: Message, input: Message, call: Message, result: Message)
    returns (requests: seq<Request>, body: seq<Message>)
    requires step.role == System && input.role == User && call.role == Assistant && result.role == Tool
    requires Paired([step, input]) && Paired([step, input] + [call, result]) && Paired([step, input] + ([call, result] + [call, result]))
    ensures |requests| == 3 && body == [call, result] + [call, result] && Sent(NoTokens, 19, requests, [step, input], body)
    ensures requests[1].working == [step] + [input, call, result] && Exceeds(NoTokens, 19, requests[1])
    ensures requests[2].working == [result] + [call, result] && !Exceeds(NoTokens, 19, requests[2])
  {
    hide *;
    var start, turn := [step, input], [call, result];
    var q0 := FitsWindow(step, start, 0);
    NothingSent(NoTokens, 19, start);
    SentSnoc(NoTokens, 19, [], start, [], q0);
    NextTurn(q0, [], start, [], turn);
    var q1 := SecondTrimmed(step, input, call, result);
    Joined(step, input, call, result);
    SentSnoc(NoTokens, 19, [] + [q0], start, [] + turn, q1);
    NextTurn(q1, [] + [q0], start, [] + turn, turn);
    var q2 := FitsWindow(step, [result] + turn, 4);
    SentSnoc(NoTokens, 19, [] + [q0] + [q1], start, [] + turn + turn, q2);
    requests, body := [] + [q0] + [q1] + [q2], [] + turn + turn;
  }

  lemma NextTurn(q: Request, requests: seq<Request>, start: seq<Message>, body: seq<Message>, turn: seq<Message>)
    requires Sent(NoTokens, 19, requests + [q], start, body)
    requires Lost(q) <= |q.working| && Synced(q.working[Lost(q)..], requests + [q], start, body)
    ensures Sent(NoTokens, 19, requests + [q], start, body + turn)
    ensures Synced(q.working[Lost(q)..] + turn, requests + [q], start, body + turn)
  {
    hide *;
    SentGrows(NoTokens, 19, requests + [q], start, body, turn);
    SyncedGrows(q.working[Lost(q)..], requests + [q], start, body, turn);
  }

  lemma Joined(step: Message, input: Message, call: Message, result: Message)
    ensures [step, input][0..] + [call, result] == [step] + [input, call, result]
    ensures [step, input] + ([] + [call, result]) == [step, input] + [call, result]
    ensures ([step] + [input, call, result])[3..] + [call, result] == [result] + [call, result]
    ensures [] + [call, result] + [call, result] == [call, result] + [call, result]
  {
  }

  /** Up to three working messages and one prompt fit. */
  lemma FitsWindow(prompt: Message, working: seq<Message>, produced: nat) returns (q: Request)
    requires prompt.role == System && |working| <= 3
    ensures q.working == working && q.produced == produced
    ensures Built(NoTokens, 19, q) && !Exceeds(NoTokens, 19, q) && Lost(q) == 0
  {
    hide TotalCost, TrimmedAt, TrimBudget, SystemOnly, WithoutSystem;
    q := Request([prompt], working, produced, [prompt] + working);
    FlatCost(q.prompts + q.working);
  }

  lemma StepPaired(step: Message, input: Message, call: Message, result: Message)
    requires step.role == System && input.role == User && HasCalls(call) && Answers([result], call.toolCalls)
    ensures Paired([step, input]) && Paired([step, input] + [call, result]) && Paired([step, input] + ([call, result] + [call, result]))
  {
    hide Paired;
    ExchangePaired(step, []);
    ExchangePaired(input, []);
    ExchangePaired(call, [result]);
    var two := [call] + [result];
    PairedConcat([step] + [], [input] + []);
    assert [step] + [] + ([input] + []) == [step, input];
    PairedConcat([step, input], two);
    PairedConcat(two, two);
    PairedConcat([step, input], two + two);
    assert two == [call, result];
  }

  lemma SecondTrimmed(step: Message, input: Message, call: Message, result: Message) returns (q: Request)
    requires step.role == System && input.role == User && call.role == Assistant && result.role == Tool
    ensures q.working == [step] + [input, call, result] && q.produced == 2
    ensures Built(NoTokens, 19, q) && Exceeds(NoTokens, 19, q) && Lost(q) == 3
  {
    hide WithoutSystem, SystemOnly, TotalCost, TrimmedAt, TrimBudget;
    var sys, rest := [step, step], [input, call, result];
    q := Request([step], [step] + rest, 2, sys);
    SplitParts([step], rest);
    SplitParts(sys, rest);
    assert q.prompts + q.working == sys + rest;
    FlatCost(sys + rest);
    AllTrimmed(sys + rest, sys, rest);
    assert sys + rest[3..] == sys;
  }

  lemma AllTrimmed(all: seq<Message>, sys: seq<Message>, rest: seq<Message>)
    requires |sys| == 2 && |rest| == 3 && SystemOnly(all) == sys && rest[1].role != User && rest[2].role != User
    ensures TrimmedAt(NoTokens, rest, TrimBudget(NoTokens, all, 19), 3)
  {
    hide TotalCost, SystemOnly;
    FlatCost(sys);
    FlatCost(rest);
    FlatCost(rest[3..]);
    assert rest[0..] == rest;
  }
}
