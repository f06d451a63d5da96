/** Conversation messages and the pairing of tool calls with their results. */
module Messages {

  datatype Role = System | User | Assistant | Tool

  datatype ToolCall = ToolCall(id: string, name: string, arguments: string)

  datatype Message = Message(
    role: Role,
    content: string,
    toolCalls: seq<ToolCall>,
    toolCallID: string,
    transient: bool,
    index: int)

  predicate HasCalls(m: Message) {
    m.role == Assistant && m.toolCalls != []
  }

  function PlainMessage(role: Role, content: string): Message {
    Message(role, content, [], "", false, 0)
  }

  /** The messages answer the calls: one tool message a call, in call order, with matching ids. */
  predicate Answers(results: seq<Message>, calls: seq<ToolCall>) {
    |results| == |calls| && forall i :: 0 <= i < |calls| ==> results[i].role == Tool && results[i].toolCallID == calls[i].id
  }

  predicate NoSystem(ms: seq<Message>) {
    forall i :: 0 <= i < |ms| ==> ms[i].role != System
  }

  predicate AllSystem(ms: seq<Message>) {
    forall i :: 0 <= i < |ms| ==> ms[i].role == System
  }

  /** Every assistant message with tool calls is followed immediately by exactly its results, and there are no
      other tool messages. */
  predicate Paired(ms: seq<Message>)
    decreases |ms|
  {
    ms == [] ||
    if ms[0].role == Tool then false
    else if HasCalls(ms[0]) then
      var n := |ms[0].toolCalls|;
      n < |ms| && Answers(ms[1..n + 1], ms[0].toolCalls) && Paired(ms[n + 1..])
    else Paired(ms[1..])
  }

  /** A position at which a tool exchange is not cut in two. */
  predicate Boundary(ms: seq<Message>, k: nat) {
    k == |ms| || (k < |ms| && ms[k].role != Tool)
  }

  /** The assistant message at i calls tools and is followed by exactly one matching result a call. */
  predicate AnsweredAt(ms: seq<Message>, i: nat) {
    && i < |ms| && ms[i].role == Assistant && ms[i].toolCalls != []
    && i + |ms[i].toolCalls| < |ms| && Answers(ms[i + 1..i + 1 + |ms[i].toolCalls|], ms[i].toolCalls)
  }

  /** The message at j is one of the results of an answered message before it. */
  predicate ResultWithin(ms: seq<Message>, j: nat) {
    exists i: nat :: i < j && AnsweredAt(ms, i) && j <= i + |ms[i].toolCalls|
  }

  /** What pairing means at each position: calls are answered completely, and there are no other tool messages. */
  ghost predicate PairedEverywhere(ms: seq<Message>) {
    && (forall i :: 0 <= i < |ms| && ms[i].role == Assistant && ms[i].toolCalls != [] ==> AnsweredAt(ms, i))
    && (forall j :: 0 <= j < |ms| && ms[j].role == Tool ==> ResultWithin(ms, j))
  }

  lemma {:induction false} PairedIff(ms: seq<Message>)
    ensures Paired(ms) <==> PairedEverywhere(ms)
    decreases |ms|
  {
    hide PairedEverywhere;
    if ms == [] {
      NothingEverywhere();
    } else if ms[0].role == Tool {
      ToolFirst(ms);
    } else {
      var n := if HasCalls(ms[0]) then |ms[0].toolCalls| else 0;
      if HasCalls(ms[0]) && !AnsweredAt(ms, 0) {
        Unanswered(ms);
      } else {
        PairedIff(ms[n + 1..]);
        EverywhereAfter(ms, n);
      }
    }
  }

  lemma NothingEverywhere()
    ensures PairedEverywhere([])
  {
  }

  lemma ToolFirst(ms: seq<Message>)
    requires ms != [] && ms[0].role == Tool
    ensures !PairedEverywhere(ms)
  {
    assert !ResultWithin(ms, 0);
  }

  lemma Unanswered(ms: seq<Message>)
    requires ms != [] && HasCalls(ms[0]) && !AnsweredAt(ms, 0)
    ensures !PairedEverywhere(ms)
  {
  }

  /** After a first message with its results, pairing everywhere depends on the rest. */
  lemma EverywhereAfter(ms: seq<Message>, n: nat)
    requires n < |ms| && ms[0].role != Tool && n == (if HasCalls(ms[0]) then |ms[0].toolCalls| else 0)
    requires HasCalls(ms[0]) ==> AnsweredAt(ms, 0)
    ensures PairedEverywhere(ms) <==> PairedEverywhere(ms[n + 1..])
  {
    var rest := ms[n + 1..];
    forall i | 1 <= i <= n ensures ms[i].role == Tool {
      assert ms[1..n + 1][i - 1].role == Tool;
    }
    hide AnsweredAt, PairedEverywhere;
    if PairedEverywhere(rest) { EverywhereBefore(ms, n); }
    if PairedEverywhere(ms) { EverywhereRest(ms, n); }
  }

  lemma EverywhereBefore(ms: seq<Message>, n: nat)
    requires n < |ms| && ms[0].role != Tool && n == (if HasCalls(ms[0]) then |ms[0].toolCalls| else 0)
    requires (HasCalls(ms[0]) ==> AnsweredAt(ms, 0)) && forall i :: 1 <= i <= n ==> ms[i].role == Tool
    requires PairedEverywhere(ms[n + 1..])
    ensures PairedEverywhere(ms)
  {
    hide AnsweredAt;
    var rest := ms[n + 1..];
    forall i | 0 <= i < |ms| && ms[i].role == Assistant && ms[i].toolCalls != [] ensures AnsweredAt(ms, i) {
      if i > n {
        assert ms[i] == rest[i - (n + 1)];
        AnsweredShift(ms, n + 1, i - (n + 1));
      }
    }
    forall j | 0 <= j < |ms| && ms[j].role == Tool ensures ResultWithin(ms, j) {
      if j > n {
        assert ms[j] == rest[j - (n + 1)] && ResultWithin(rest, j - (n + 1));
        var i: nat :| i < j - (n + 1) && AnsweredAt(rest, i) && j - (n + 1) <= i + |rest[i].toolCalls|;
        InList(rest, i);
        AnsweredShift(ms, n + 1, i);
        assert ms[i + n + 1] == rest[i];
      } else {
        assert AnsweredAt(ms, 0);
      }
    }
  }

  lemma EverywhereRest(ms: seq<Message>, n: nat)
    requires n < |ms| && n == (if HasCalls(ms[0]) then |ms[0].toolCalls| else 0)
    requires forall i :: 1 <= i <= n ==> ms[i].role == Tool
    requires PairedEverywhere(ms)
    ensures PairedEverywhere(ms[n + 1..])
  {
    var rest := ms[n + 1..];
    forall i: nat | i < |rest| && rest[i].role == Assistant && rest[i].toolCalls != [] ensures AnsweredAt(rest, i) {
      hide *;
      RestAnswered(ms, n + 1, i);
    }
    forall j: nat | j < |rest| && rest[j].role == Tool ensures ResultWithin(rest, j) {
      hide *;
      RestWithin(ms, n, j);
    }
    hide AnsweredAt, ResultWithin;
  }

  lemma RestAnswered(ms: seq<Message>, k: nat, i: nat)
    requires PairedEverywhere(ms) && k <= |ms| && i < |ms[k..]| && ms[k..][i].role == Assistant && ms[k..][i].toolCalls != []
    ensures AnsweredAt(ms[k..], i)
  {
    hide AnsweredAt, ResultWithin;
    assert ms[k..][i] == ms[i + k];
    AnsweredShift(ms, k, i);
  }

  lemma RestWithin(ms: seq<Message>, n: nat, j: nat)
    requires PairedEverywhere(ms) && n < |ms| && j < |ms[n + 1..]| && ms[n + 1..][j].role == Tool
    requires n == (if HasCalls(ms[0]) then |ms[0].toolCalls| else 0)
    requires forall i :: 1 <= i <= n ==> ms[i].role == Tool
    ensures ResultWithin(ms[n + 1..], j)
  {
    var i := WithinAt(ms, j + n + 1) by { assert ms[j + n + 1] == ms[n + 1..][j]; }
    AnsweredNotResult(ms, i, n);
    hide *;
    WithinMoves(ms, n + 1, i, j);
  }

  lemma WithinAt(ms: seq<Message>, j: nat) returns (i: nat)
    requires PairedEverywhere(ms) && j < |ms| && ms[j].role == Tool
    ensures i < |ms| && AnsweredAt(ms, i) && i < j <= i + |ms[i].toolCalls|
  {
    hide AnsweredAt;
    assert ResultWithin(ms, j);
    i :| i < j && AnsweredAt(ms, i) && j <= i + |ms[i].toolCalls|;
    InList(ms, i);
  }

  lemma WithinMoves(ms: seq<Message>, k: nat, i: nat, j: nat)
    requires k <= i < |ms| && AnsweredAt(ms, i) && i < j + k <= i + |ms[i].toolCalls|
    ensures ResultWithin(ms[k..], j)
  {
    hide AnsweredAt;
    AnsweredShift(ms, k, i - k);
    assert ms[k..][i - k] == ms[i];
  }

  lemma AnsweredShift(ms: seq<Message>, k: nat, i: nat)
    requires k <= |ms| && i < |ms[k..]|
    ensures AnsweredAt(ms[k..], i) <==> AnsweredAt(ms, i + k)
  {
    var rest := ms[k..];
    assert rest[i] == ms[i + k];
    var c := |rest[i].toolCalls|;
    if i + c < |rest| {
      assert rest[i + 1..i + 1 + c] == ms[i + k + 1..i + k + 1 + c];
    }
  }

  lemma AnsweredNotResult(ms: seq<Message>, i: nat, n: nat)
    requires n < |ms| && AnsweredAt(ms, i) && (forall k :: 1 <= k <= n ==> ms[k].role == Tool)
    requires n == (if HasCalls(ms[0]) then |ms[0].toolCalls| else 0)
    ensures n < i < |ms| || (i == 0 && |ms[0].toolCalls| == n)
  {
  }

  lemma InList(ms: seq<Message>, i: nat)
    requires AnsweredAt(ms, i)
    ensures i < |ms|
  {
  }

  /** After a paired list, pairing depends on what follows alone. */
  lemma {:induction false} PairedConcat(a: seq<Message>, b: seq<Message>)
    requires Paired(a)
    ensures Paired(a + b) <==> Paired(b)
    decreases |a|
  {
    if a == [] {
      assert a + b == b;
    } else {
      var n := if HasCalls(a[0]) then |a[0].toolCalls| else 0;
      PairedConcat(a[n + 1..], b);
      assert (a + b)[1..n + 1] == a[1..n + 1];
      assert (a + b)[n + 1..] == a[n + 1..] + b;
    }
  }

  /** An exchange that lacks a result is not paired. */
  lemma IncompleteUnpaired(a: seq<Message>, m: Message, results: seq<Message>)
    requires Paired(a) && HasCalls(m) && |results| < |m.toolCalls|
    ensures !Paired(a + ([m] + results))
  {
    PairedConcat(a, [m] + results);
  }

  /** One exchange on its own is paired. */
  lemma ExchangePaired(m: Message, results: seq<Message>)
    requires m.role != Tool && Answers(results, if HasCalls(m) then m.toolCalls else [])
    ensures Paired([m] + results)
  {
    var ms := [m] + results;
    assert ms[1..] == results;
    if HasCalls(m) {
      var n := |m.toolCalls|;
      assert ms[1..n + 1] == results;
      assert ms[n + 1..] == [];
    } else {
      assert results == [];
    }
  }

  /** A paired list begins with a system message or with an exchange free of them. */
  lemma FirstExchange(ms: seq<Message>) returns (n: nat)
    requires Paired(ms) && ms != []
    ensures n < |ms| && Paired(ms[..n + 1]) && Paired(ms[n + 1..])
    ensures AllSystem(ms[..n + 1]) || NoSystem(ms[..n + 1])
    ensures ms[0].role != Tool && forall i :: 1 <= i < n + 1 ==> ms[i].role == Tool
  {
    n := if HasCalls(ms[0]) then |ms[0].toolCalls| else 0;
    var results := ms[1..n + 1];
    assert Answers(results, if HasCalls(ms[0]) then ms[0].toolCalls else []);
    ExchangePaired(ms[0], results);
    assert ms[..n + 1] == [ms[0]] + results;
    assert forall i :: 1 <= i < n + 1 ==> ms[i] == results[i - 1];
  }

  /** A paired list may be cut wherever the next message is not a tool result. */
  lemma {:induction false} PairedSplit(ms: seq<Message>, k: nat)
    requires Paired(ms) && k <= |ms| && Boundary(ms, k)
    ensures Paired(ms[..k]) && Paired(ms[k..])
    decreases |ms|
  {
    if k == 0 {
      assert ms[0..] == ms;
    } else {
      hide Paired;
      var n := FirstExchange(ms);
      assert k > n;
      PairedSplit(ms[n + 1..], k - (n + 1));
      PairedConcat(ms[..n + 1], ms[n + 1..][..k - (n + 1)]);
      CutBehind(ms, n + 1, k);
    }
  }

  lemma CutBehind(ms: seq<Message>, n: nat, k: nat)
    requires n <= k <= |ms|
    ensures ms[n..][k - n..] == ms[k..] && ms[..n] + ms[n..][..k - n] == ms[..k]
  {
  }

  /** Cutting a paired list: what remains is paired iff it does not begin with a tool result. */
  lemma SuffixPairedIff(ms: seq<Message>, k: nat)
    requires Paired(ms) && k <= |ms|
    ensures Paired(ms[k..]) <==> Boundary(ms, k)
  {
    if Boundary(ms, k) {
      PairedSplit(ms, k);
    } else {
      assert ms[k..][0] == ms[k];
    }
  }

  lemma SuffixOfSuffix(ms: seq<Message>, i: nat, j: nat)
    requires i + j <= |ms|
    ensures ms[i..][j..] == ms[i + j..]
  {
  }

  // ----- system messages -----

  function SystemOnly(ms: seq<Message>): seq<Message> {
    if ms == [] then []
    else SystemOnly(ms[..|ms| - 1]) + if ms[|ms| - 1].role == System then [ms[|ms| - 1]] else []
  }

  function WithoutSystem(ms: seq<Message>): seq<Message> {
    if ms == [] then []
    else WithoutSystem(ms[..|ms| - 1]) + if ms[|ms| - 1].role == System then [] else [ms[|ms| - 1]]
  }

  lemma SplitSnoc(ms: seq<Message>, m: Message)
    ensures SystemOnly(ms + [m]) == SystemOnly(ms) + if m.role == System then [m] else []
    ensures WithoutSystem(ms + [m]) == WithoutSystem(ms) + if m.role == System then [] else [m]
  {
    assert (ms + [m])[..|ms|] == ms;
  }

  lemma {:induction false} SplitConcat(a: seq<Message>, b: seq<Message>)
    ensures SystemOnly(a + b) == SystemOnly(a) + SystemOnly(b)
    ensures WithoutSystem(a + b) == WithoutSystem(a) + WithoutSystem(b)
    decreases |b|
  {
    if b == [] {
      assert a + b == a;
    } else {
      hide SystemOnly, WithoutSystem;
      var c, m := b[..|b| - 1], b[|b| - 1];
      SplitConcat(a, c);
      assert c + [m] == b && (a + c) + [m] == a + b;
      SplitSnoc(c, m);
      SplitSnoc(a + c, m);
      Reassociate(SystemOnly(a), SystemOnly(c), if m.role == System then [m] else []);
      Reassociate(WithoutSystem(a), WithoutSystem(c), if m.role == System then [] else [m]);
    }
  }

  lemma Reassociate(a: seq<Message>, b: seq<Message>, c: seq<Message>)
    ensures (a + b) + c == a + (b + c)
  {
  }

  lemma {:induction false} SplitPure(ms: seq<Message>)
    ensures AllSystem(ms) ==> SystemOnly(ms) == ms && WithoutSystem(ms) == []
    ensures NoSystem(ms) ==> SystemOnly(ms) == [] && WithoutSystem(ms) == ms
  {
    if ms != [] {
      SplitPure(ms[..|ms| - 1]);
      assert ms == ms[..|ms| - 1] + [ms[|ms| - 1]];
    }
  }

  lemma SplitParts(sys: seq<Message>, rest: seq<Message>)
    requires AllSystem(sys) && NoSystem(rest)
    ensures SystemOnly(sys + rest) == sys && WithoutSystem(sys + rest) == rest
  {
    hide SystemOnly, WithoutSystem;
    SplitConcat(sys, rest);
    SplitPure(sys);
    SplitPure(rest);
  }

  lemma {:induction false} SystemOnlyAll(ms: seq<Message>)
    ensures AllSystem(SystemOnly(ms)) && NoSystem(WithoutSystem(ms))
  {
    if ms != [] { SystemOnlyAll(ms[..|ms| - 1]); }
  }

  lemma {:induction false} AllSystemPaired(ms: seq<Message>)
    requires AllSystem(ms)
    ensures Paired(ms)
    decreases |ms|
  {
    if ms != [] { AllSystemPaired(ms[1..]); }
  }

  /** Leaving out the system messages keeps a list paired: they never stand inside an exchange. */
  lemma {:induction false} WithoutSystemPaired(ms: seq<Message>)
    requires Paired(ms)
    ensures Paired(WithoutSystem(ms))
    decreases |ms|
  {
    if ms != [] {
      hide Paired, WithoutSystem, SystemOnly;
      var n := FirstExchange(ms);
      var head, rest := ms[..n + 1], ms[n + 1..];
      assert ms == head + rest;
      SplitConcat(head, rest);
      SplitPure(head);
      WithoutSystemPaired(rest);
      if NoSystem(head) {
        PairedConcat(head, WithoutSystem(rest));
      } else {
        assert WithoutSystem(ms) == WithoutSystem(rest);
      }
    }
  }
}
