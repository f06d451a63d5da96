/** Last-resort trimming of a model request to the context window, and its effect on the working messages. */
module ContextWindow {
  import opened Messages

  /** Abstract token count of a text. */
  type Tokenizer = string -> nat

  /** The cheapest tokenizer: every message costs four tokens. */
  function NoTokens(text: string): nat {
    0
  }

  function CallsCost(tok: Tokenizer, calls: seq<ToolCall>): nat {
    if calls == [] then 0
    else CallsCost(tok, calls[..|calls| - 1]) + tok(calls[|calls| - 1].name) + tok(calls[|calls| - 1].arguments)
  }

  /** A message's tokens, with four for its framing. */
  function Cost(tok: Tokenizer, m: Message): (c: nat)
    ensures c >= 4
  {
    tok(m.content) + CallsCost(tok, m.toolCalls) + 4
  }

  /** Every text of a message is counted: its content, and name and arguments of each of its calls. */
  lemma CostCounts(tok: Tokenizer, m: Message, call: ToolCall)
    ensures m.toolCalls == [] ==> Cost(tok, m) == tok(m.content) + 4
    ensures Cost(tok, m.(toolCalls := m.toolCalls + [call])) == Cost(tok, m) + tok(call.name) + tok(call.arguments)
  {
    assert (m.toolCalls + [call])[..|m.toolCalls|] == m.toolCalls;
  }

  function TotalCost(tok: Tokenizer, ms: seq<Message>): nat {
    if ms == [] then 0 else Cost(tok, ms[0]) + TotalCost(tok, ms[1..])
  }

  /** Longer suffixes cost more. */
  lemma {:induction false} SuffixCost(tok: Tokenizer, ms: seq<Message>, i: nat, j: nat)
    requires i <= j <= |ms|
    ensures TotalCost(tok, ms[j..]) + 4 * (j - i) <= TotalCost(tok, ms[i..])
    decreases j - i
  {
    if i < j {
      SuffixCost(tok, ms, i + 1, j);
      assert ms[i..][1..] == ms[i + 1..];
    }
  }

  /** Without tokens of their own, messages cost four tokens each. */
  lemma {:induction false} FlatCost(ms: seq<Message>)
    ensures TotalCost(NoTokens, ms) == 4 * |ms|
  {
    if ms != [] {
      FlatCallsCost(ms[0].toolCalls);
      FlatCost(ms[1..]);
    }
  }

  lemma {:induction false} FlatCallsCost(calls: seq<ToolCall>)
    ensures CallsCost(NoTokens, calls) == 0
  {
    if calls != [] {
      FlatCallsCost(calls[..|calls| - 1]);
    }
  }

  method CountMessages(tok: Tokenizer, ms: seq<Message>) returns (n: nat)
    ensures n == TotalCost(tok, ms)
  {
    n := 0;
    for i := 0 to |ms|
      invariant n + TotalCost(tok, ms[i..]) == TotalCost(tok, ms)
    {
      assert ms[i..][1..] == ms[i + 1..];
      n := n + Cost(tok, ms[i]);
    }
  }

  /** What the non-system messages may cost: the window less a margin of 5% and the system messages, but at
      least a quarter of the window. */
  function TrimBudget(tok: Tokenizer, messages: seq<Message>, window: nat): int {
    var b := window * 95 / 100 - TotalCost(tok, SystemOnly(messages));
    if b <= 0 then window / 4 else b
  }

  /** The first k of the non-system messages rest are given up: the remainder starts with the first user message from
      which on everything fits or only two messages are left, or is empty if there is none. */
  ghost predicate TrimmedAt(tok: Tokenizer, rest: seq<Message>, budget: int, k: nat) {
    && k <= |rest| && (k < |rest| ==> rest[k].role == User)
    && (forall j :: 0 <= j < k && rest[j].role == User ==> TotalCost(tok, rest[j..]) > budget && |rest| - j > 2)
    && (TotalCost(tok, rest[k..]) <= budget || |rest| - k <= 2)
  }

  /** That is one place only. */
  lemma TrimmedAtUnique(tok: Tokenizer, rest: seq<Message>, budget: int, j: nat, k: nat)
    requires TrimmedAt(tok, rest, budget, j) && TrimmedAt(tok, rest, budget, k)
    ensures j == k
  {
  }

  /** Splits off the system messages. */
  method SplitSystem(messages: seq<Message>) returns (sys: seq<Message>, rest: seq<Message>)
    ensures sys == SystemOnly(messages) && rest == WithoutSystem(messages)
  {
    sys, rest := [], [];
    for n := 0 to |messages|
      invariant sys == SystemOnly(messages[..n]) && rest == WithoutSystem(messages[..n])
    {
      assert messages[..n + 1] == messages[..n] + [messages[n]];
      SplitSnoc(messages[..n], messages[n]);
      if messages[n].role == System {
        sys := sys + [messages[n]];
      } else {
        rest := rest + [messages[n]];
      }
    }
    assert messages[..|messages|] == messages;
  }

  /** Trims a request to the window: all system messages, then the longest affordable conversation that starts with
      the user. */
  method TrimToContextWindow(tok: Tokenizer, messages: seq<Message>, window: int) returns (result: seq<Message>)
    ensures window <= 0 || messages == [] ==> result == messages
    ensures window > 0 && messages != [] ==>
              var rest := WithoutSystem(messages);
              && |result| <= |messages|
              && |messages| - |result| <= |rest|
              && result == SystemOnly(messages) + rest[|messages| - |result|..]
              && TrimmedAt(tok, rest, TrimBudget(tok, messages, window), |messages| - |result|)
    ensures Paired(messages) ==> Paired(result)
  {
    hide Paired, SystemOnly, WithoutSystem, TotalCost;
    if window <= 0 || |messages| == 0 {
      return messages;
    }
    var sys, rest := SplitSystem(messages);
    var sysTokens := CountMessages(tok, sys);
    var budget := window * 95 / 100 - sysTokens;
    if budget <= 0 {
      budget := window / 4;
    }
    var k := DropOldest(tok, rest, budget);
    k := DropToUser(tok, rest, budget, k);
    result := sys + rest[k..];
    SplitSizes(messages);
    if Paired(messages) {
      WithoutSystemPaired(messages);
      PairedSplit(rest, k);
      SystemOnlyAll(messages);
      AllSystemPaired(sys);
      PairedConcat(sys, rest[k..]);
    }
  }

  lemma {:induction false} SplitSizes(ms: seq<Message>)
    ensures |SystemOnly(ms)| + |WithoutSystem(ms)| == |ms|
  {
    if ms != [] { SplitSizes(ms[..|ms| - 1]); }
  }

  /** Drops the oldest messages, tool results along with them, until the rest fits or only two are left. */
  method DropOldest(tok: Tokenizer, rest: seq<Message>, budget: int) returns (k: nat)
    ensures k <= |rest|
    ensures forall j :: 0 <= j < k && rest[j].role != Tool ==> TotalCost(tok, rest[j..]) > budget && |rest| - j > 2
    ensures TotalCost(tok, rest[k..]) <= budget || |rest| - k <= 2
  {
    k := 0;
    while |rest| - k > 2
      invariant k <= |rest|
      invariant forall j :: 0 <= j < k && rest[j].role != Tool ==> TotalCost(tok, rest[j..]) > budget && |rest| - j > 2
    {
      var n := CountMessages(tok, rest[k..]);
      if n <= budget {
        break;
      }
      k := k + 1;
      while k < |rest| && rest[k].role == Tool
        invariant k <= |rest|
        invariant forall j :: 0 <= j < k && rest[j].role != Tool ==> TotalCost(tok, rest[j..]) > budget && |rest| - j > 2
      {
        k := k + 1;
      }
    }
  }

  /** Drops what precedes the first user message, an exchange at a time. */
  method DropToUser(tok: Tokenizer, rest: seq<Message>, budget: int, k0: nat) returns (k: nat)
    requires k0 <= |rest|
    requires forall j :: 0 <= j < k0 && rest[j].role != Tool ==> TotalCost(tok, rest[j..]) > budget && |rest| - j > 2
    requires TotalCost(tok, rest[k0..]) <= budget || |rest| - k0 <= 2
    ensures TrimmedAt(tok, rest, budget, k)
  {
    hide TrimmedAt, TotalCost;
    k := k0;
    while k < |rest| && rest[k].role != User
      invariant k0 <= k <= |rest|
      invariant forall j :: k0 <= j < k ==> rest[j].role != User
    {
      if HasCalls(rest[k]) {
        k := k + 1;
        while k < |rest| && rest[k].role == Tool
          invariant k0 < k <= |rest|
          invariant forall j :: k0 <= j < k ==> rest[j].role != User
        {
          k := k + 1;
        }
      } else {
        k := k + 1;
      }
    }
    TrimmedThere(tok, rest, budget, k0, k);
  }

  lemma TrimmedThere(tok: Tokenizer, rest: seq<Message>, budget: int, k0: nat, k: nat)
    requires k0 <= k <= |rest| && (k < |rest| ==> rest[k].role == User)
    requires forall j :: 0 <= j < k0 && rest[j].role != Tool ==> TotalCost(tok, rest[j..]) > budget && |rest| - j > 2
    requires TotalCost(tok, rest[k0..]) <= budget || |rest| - k0 <= 2
    requires forall j :: k0 <= j < k ==> rest[j].role != User
    ensures TrimmedAt(tok, rest, budget, k)
  {
    SuffixCost(tok, rest, k0, k);
    hide TotalCost;
  }

  // ----- synchronising the working messages -----

  /** Dropping as many working messages as the request lost keeps exactly what the request kept, if and only if no
      system message is among the oldest ones dropped. */
  lemma SyncExactIff(working: seq<Message>, trimmed: nat)
    requires trimmed <= |WithoutSystem(working)|
    ensures trimmed <= |working|
    ensures WithoutSystem(working[trimmed..]) == WithoutSystem(working)[trimmed..] <==> NoSystem(working[..trimmed])
  {
    hide SystemOnly, WithoutSystem;
    SplitSizes(working);
    var a, b := working[..trimmed], working[trimmed..];
    assert working == a + b;
    SplitConcat(a, b);
    SplitSizes(a);
    SplitPure(a);
    if WithoutSystem(b) == WithoutSystem(working)[trimmed..] {
      assert |WithoutSystem(a)| == |a|;
      SystemOnlyEmpty(a);
    }
  }

  lemma {:induction false} SystemOnlyEmpty(ms: seq<Message>)
    ensures SystemOnly(ms) == [] ==> NoSystem(ms)
  {
    if ms != [] && SystemOnly(ms) == [] {
      SystemOnlyEmpty(ms[..|ms| - 1]);
    }
  }
}
