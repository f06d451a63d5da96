/** Rolling compaction: where a log may be cut, what a compaction does to a stored session, and what stays true over
    any sequence of appends, compactions, deletions and restarts. */
module Compaction {
  import opened Basics
  import opened Messages

  // ----- the cut -----

  predicate ToolRun(ms: seq<Message>, i: nat, j: nat) {
    j <= |ms| && forall x :: i <= x < j ==> ms[x].role == Tool
  }

  /** Moves a cut directly behind an assistant message with tool calls past the results that follow. */
  method SafeCompressionBoundary(all: seq<Message>, overflow: int) returns (r: int)
    ensures r == SafeBoundary(all, overflow)
  {
    if overflow <= 0 || overflow >= |all| {
      return overflow;
    }
    r := overflow;
    if HasCalls(all[overflow - 1]) {
      var i := overflow;
      while i < |all|
        invariant overflow <= r == i <= |all|
        invariant ToolRunEnd(all, i) == ToolRunEnd(all, overflow)
      {
        if all[i].role == Tool {
          r := i + 1;
        } else {
          break;
        }
        i := i + 1;
      }
    }
  }

  function SafeBoundary(all: seq<Message>, overflow: int): int {
    if overflow <= 0 || overflow >= |all| || !HasCalls(all[overflow - 1]) then overflow
    else ToolRunEnd(all, overflow)
  }

  /** The end of the run of tool results that starts at k. */
  function ToolRunEnd(ms: seq<Message>, k: nat): (e: nat)
    requires k <= |ms|
    ensures k <= e && ToolRun(ms, k, e) && Boundary(ms, e)
    decreases |ms| - k
  {
    if k < |ms| && ms[k].role == Tool then ToolRunEnd(ms, k + 1) else k
  }

  /** A tool result in a paired list follows another or the message with its call. */
  lemma {:induction false} ToolPreceded(ms: seq<Message>, i: nat)
    requires Paired(ms) && 0 < i < |ms| && ms[i].role == Tool
    ensures ms[i - 1].role == Tool || HasCalls(ms[i - 1])
    decreases |ms|
  {
    var n := FirstExchange(ms);
    if i <= n {
      assert i - 1 == 0 ==> HasCalls(ms[0]);
    } else {
      assert ms[n + 1..][i - (n + 1)] == ms[i];
      assert i > n + 1;
      ToolPreceded(ms[n + 1..], i - (n + 1));
    }
  }

  /** When the cut is safe: both parts of a paired log are paired unless the cut was asked for between two results
      of one exchange. */
  lemma SafeCutIff(ms: seq<Message>, overflow: nat)
    requires Paired(ms) && 0 < overflow < |ms|
    ensures var k := SafeBoundary(ms, overflow);
            && overflow <= k <= |ms|
            && (Paired(ms[..k]) && Paired(ms[k..]) <==> !(ms[overflow - 1].role == Tool && ms[overflow].role == Tool))
  {
    var k := SafeBoundary(ms, overflow);
    SuffixPairedIff(ms, k);
    if Boundary(ms, k) {
      PairedSplit(ms, k);
    }
    if ms[overflow].role == Tool {
      ToolPreceded(ms, overflow);
    }
  }

  /** The exception happens: a cut between the two results of one exchange stays there. */
  lemma CutBetweenResults() returns (ms: seq<Message>, overflow: nat)
    ensures Paired(ms) && 0 < overflow < |ms|
    ensures SafeBoundary(ms, overflow) == overflow && !Paired(ms[overflow..])
  {
    var calls := [ToolCall("1", "search", ""), ToolCall("2", "search", "")];
    var asks := PlainMessage(Assistant, "").(toolCalls := calls);
    var results := [PlainMessage(Tool, "").(toolCallID := "1"), PlainMessage(Tool, "").(toolCallID := "2")];
    ms, overflow := [asks] + results, 2;
    ExchangePaired(asks, results);
    SafeCutIff(ms, overflow);
    assert ms[1].role == Tool && ms[2].role == Tool;
    PairedSplitOrNot(ms, overflow);
  }

  lemma PairedSplitOrNot(ms: seq<Message>, k: nat)
    requires Paired(ms) && k < |ms| && ms[k].role == Tool
    ensures !Paired(ms[k..])
  {
    SuffixPairedIff(ms, k);
  }

  /** Adjusting twice is adjusting once. */
  lemma SafeBoundaryIdempotent(ms: seq<Message>, overflow: int)
    ensures SafeBoundary(ms, SafeBoundary(ms, overflow)) == SafeBoundary(ms, overflow)
  {
    var k := SafeBoundary(ms, overflow);
    if k != overflow {
      assert ms[k - 1].role == Tool;
    }
  }

  /** The adjustment looks at what surrounds the cut, not at what lies before it. */
  lemma SafeBoundaryOfSuffix(ms: seq<Message>, start: nat, overflow: nat)
    requires start <= |ms| && 0 < overflow <= |ms| - start
    ensures SafeBoundary(ms[start..], overflow) + start == SafeBoundary(ms, overflow + start)
  {
    RunEndOfSuffix(ms, start, overflow);
  }

  lemma {:induction false} RunEndOfSuffix(ms: seq<Message>, start: nat, k: nat)
    requires start <= |ms| && k <= |ms| - start
    ensures ToolRunEnd(ms[start..], k) + start == ToolRunEnd(ms, k + start)
    decreases |ms| - start - k
  {
    if k < |ms| - start && ms[start + k].role == Tool {
      RunEndOfSuffix(ms, start, k + 1);
    }
  }

  /** A prefix fetched with a look-ahead gives the same cut as the whole log iff the results that follow an
      assistant message with calls end within the look-ahead. */
  lemma LookAheadIff(ms: seq<Message>, overflow: nat, fetched: nat)
    requires 0 < overflow <= fetched <= |ms|
    ensures SafeBoundary(ms[..fetched], overflow) == SafeBoundary(ms, overflow)
            <==> !HasCalls(ms[overflow - 1]) || ToolRunEnd(ms, overflow) <= fetched
  {
    RunEndOfPrefix(ms, fetched, overflow);
  }

  lemma {:induction false} RunEndOfPrefix(ms: seq<Message>, fetched: nat, k: nat)
    requires k <= fetched <= |ms|
    ensures var e := ToolRunEnd(ms, k); ToolRunEnd(ms[..fetched], k) == if e <= fetched then e else fetched
    decreases |ms| - k
  {
    if k < |ms| && ms[k].role == Tool && k < fetched {
      RunEndOfPrefix(ms, fetched, k + 1);
    }
  }

  // ----- a stored session -----

  /** A summary and the number of messages it covers. */
  datatype Summary = Summary(text: string, through: nat)

  /** One successful call of the summariser: what it was given and what was stored. */
  datatype SummaryCall = SummaryCall(previous: Option<Summary>, messages: seq<Message>, result: Summary)

  /** A session as the store shows it, with the next message index (0: not yet known to this process) and the
      summariser calls made since the session was last deleted. */
  datatype Session = Session(log: seq<Message>, nextIndex: nat, summary: Option<Summary>, calls: seq<SummaryCall>)

  function Through(s: Session): nat {
    if s.summary.None? then 0 else s.summary.value.through
  }

  /** A compaction through the given index; `reply` is the summariser's answer, None if there is no summariser or
      it failed. */
  function Compacted(s: Session, through: int, prefetched: Option<seq<Message>>, reply: Option<string>): Session {
    var all := Source(s, through, prefetched);
    if all == [] || through <= 0 || through > |all| then s
    else
      var safe := SafeBoundary(all, through);
      if Through(s) >= safe || reply.None? then s
      else
        var summary := Summary(reply.value, safe);
        s.(summary := Some(summary), calls := s.calls + [SummaryCall(s.summary, all[Through(s)..safe], summary)])
  }

  /** There is something new to summarise below the cut. */
  predicate HasNew(s: Session, through: int, prefetched: Option<seq<Message>>) {
    var all := Source(s, through, prefetched);
    0 < through <= |all| && Through(s) < SafeBoundary(all, through)
  }

  /** A summariser's reply to what is new is stored with the cut it reaches to, made from the summary before it and the
      messages between the two cuts; in all other cases nothing changes, and the log never does. */
  lemma CompactionStores(s: Session, through: int, prefetched: Option<seq<Message>>, reply: Option<string>)
    ensures var s' := Compacted(s, through, prefetched, reply);
            && s'.log == s.log && s'.nextIndex == s.nextIndex
            && if HasNew(s, through, prefetched) && reply.Some? then
                 var all := Source(s, through, prefetched);
                 var safe: nat := SafeBoundary(all, through);
                 && s'.summary.Some? && s'.summary.value.text == reply.value && s'.summary.value.through == safe <= |all|
                 && |s'.calls| == |s.calls| + 1 && s'.calls[..|s.calls|] == s.calls
                 && s'.calls[|s.calls|].previous == s.summary && s'.calls[|s.calls|].result == s'.summary.value
                 && s'.calls[|s.calls|].messages == all[Through(s)..safe]
               else s' == s
  {
  }

  /** The messages a compaction works on: the caller's, unless there are none or too few. */
  function Source(s: Session, through: int, prefetched: Option<seq<Message>>): seq<Message> {
    if prefetched.None? || through > |prefetched.value| then s.log else prefetched.value
  }

  function Appended(s: Session, m: Message): Session {
    var index := if s.nextIndex == 0 then |s.log| + 1 else s.nextIndex;
    s.(log := s.log + [m.(index := index)], nextIndex := index + 1)
  }

  /** Deleting a session removes its log and summary; the process keeps its index counter. */
  function Deleted(s: Session): Session {
    Session([], s.nextIndex, None, [])
  }

  /** A restarted process has forgotten the index counters. */
  function Restarted(s: Session): Session {
    s.(nextIndex := 0)
  }

  datatype Op =
    | Append(message: Message)
    | Compact(through: int, prefetched: Option<seq<Message>>, reply: Option<string>)
    | Delete
    | Restart

  function Step(s: Session, op: Op): Session {
    match op
    case Append(m) => Appended(s, m)
    case Compact(through, prefetched, reply) => Compacted(s, through, prefetched, reply)
    case Delete => Deleted(s)
    case Restart => Restarted(s)
  }

  function Run(s: Session, ops: seq<Op>): Session
    decreases |ops|
  {
    if ops == [] then s else Run(Step(s, ops[0]), ops[1..])
  }

  // ----- summaries partition the log -----

  function Covered(calls: seq<SummaryCall>): seq<Message> {
    if calls == [] then [] else Covered(calls[..|calls| - 1]) + calls[|calls| - 1].messages
  }

  /** Each summary was made from the one before it, and the last is the stored one. */
  predicate Chained(s: Session) {
    && s.summary == SummaryAfter(s.calls, |s.calls|)
    && forall i :: 0 <= i < |s.calls| ==> s.calls[i].previous == SummaryAfter(s.calls, i)
  }

  function SummaryAfter(calls: seq<SummaryCall>, i: nat): Option<Summary>
    requires i <= |calls|
  {
    if i == 0 then None else Some(calls[i - 1].result)
  }

  /** The slices given to successful summaries are, in order, exactly the part of the log below the through-index. */
  predicate Rolled(s: Session) {
    Chained(s) && Through(s) <= |s.log| && Covered(s.calls) == s.log[..Through(s)]
  }

  /** A compaction is given nothing, too little (so that it reads the log), or a prefix of the log. */
  predicate Aligned(s: Session, op: Op) {
    op.Compact? && op.prefetched.Some? ==> op.through > |op.prefetched.value| || op.prefetched.value <= s.log
  }

  ghost predicate AllAligned(s: Session, ops: seq<Op>)
    decreases |ops|
  {
    ops == [] || (Aligned(s, ops[0]) && AllAligned(Step(s, ops[0]), ops[1..]))
  }

  lemma CoveredSnoc(calls: seq<SummaryCall>, c: SummaryCall)
    ensures Covered(calls + [c]) == Covered(calls) + c.messages
  {
    assert (calls + [c])[..|calls|] == calls;
  }

  lemma ChainedSnoc(s: Session, slice: seq<Message>, summary: Summary)
    requires Chained(s)
    ensures Chained(s.(summary := Some(summary), calls := s.calls + [SummaryCall(s.summary, slice, summary)]))
  {
    var calls := s.calls + [SummaryCall(s.summary, slice, summary)];
    forall i | 0 <= i < |calls| ensures calls[i].previous == SummaryAfter(calls, i) {
      if i < |s.calls| {
        assert s.calls[i].previous == SummaryAfter(s.calls, i);
      }
    }
  }

  predicate SameSlice(a: seq<Message>, b: seq<Message>, i: nat, j: nat) {
    i <= j <= |a| && j <= |b| && a[i..j] == b[i..j]
  }

  /** The exact effect of one compaction on the partition, for any slice handed to it: it survives iff nothing new was
      summarised or the messages summarised are those of the log. */
  lemma CompactKeepsRolledIff(s: Session, through: int, prefetched: Option<seq<Message>>, reply: Option<string>)
    requires Rolled(s)
    ensures var s' := Compacted(s, through, prefetched, reply);
            Rolled(s') <==> s' == s || SameSlice(Source(s, through, prefetched), s.log, Through(s), Through(s'))
  {
    var s' := Compacted(s, through, prefetched, reply);
    if s' != s {
      var a, b := Through(s), Through(s');
      var slice := Source(s, through, prefetched)[a..b];
      ChainedSnoc(s, slice, s'.summary.value);
      CoveredSnoc(s.calls, SummaryCall(s.summary, slice, s'.summary.value));
      if b <= |s.log| {
        assert s.log[..b] == s.log[..a] + s.log[a..b];
        if Rolled(s') {
          assert (Covered(s.calls) + slice)[a..] == slice;
          assert (s.log[..a] + s.log[a..b])[a..] == s.log[a..b];
        }
      }
    }
  }

  lemma StepKeepsRolled(s: Session, op: Op)
    requires Rolled(s) && Aligned(s, op)
    ensures Rolled(Step(s, op))
    ensures !op.Delete? ==> Through(s) <= Through(Step(s, op)) && s.log <= Step(s, op).log
  {
    match op
    case Append(m) =>
      assert Step(s, op).log[..Through(s)] == s.log[..Through(s)];
    case Compact(through, prefetched, reply) =>
      CompactAligned(s, through, prefetched, reply);
    case Delete =>
    case Restart =>
      assert Rolled(s) ==> Rolled(Restarted(s));
  }

  lemma CompactAligned(s: Session, through: int, prefetched: Option<seq<Message>>, reply: Option<string>)
    requires Rolled(s) && Aligned(s, Compact(through, prefetched, reply))
    ensures var s' := Compacted(s, through, prefetched, reply);
            Rolled(s') && Through(s) <= Through(s') && s'.log == s.log
  {
    hide Covered, Chained;
    CompactKeepsRolledIff(s, through, prefetched, reply);
    var s' := Compacted(s, through, prefetched, reply);
    if s' != s {
      var all, a, b := Source(s, through, prefetched), Through(s), Through(s');
      assert all <= s.log;
      assert SameSlice(all, s.log, a, b);
    }
  }

  /** Over any run of appends, compactions, deletions and restarts the summaries partition the log, and as long as
      nothing is deleted the through-index and the log only grow. */
  lemma {:induction false} RollingPartition(s: Session, ops: seq<Op>)
    requires Rolled(s) && AllAligned(s, ops)
    ensures Rolled(Run(s, ops))
    ensures (forall i :: 0 <= i < |ops| ==> !ops[i].Delete?)
            ==> Through(s) <= Through(Run(s, ops)) && s.log <= Run(s, ops).log
    decreases |ops|
  {
    if ops != [] {
      hide Rolled, Step, Through;
      StepKeepsRolled(s, ops[0]);
      RollingPartition(Step(s, ops[0]), ops[1..]);
    }
  }

  // ----- message indices -----

  predicate Increasing(ms: seq<Message>) {
    forall i, j :: 0 <= i < j < |ms| ==> ms[i].index < ms[j].index
  }

  /** Messages are numbered 1, 2, 3, … */
  predicate Exact(ms: seq<Message>) {
    forall i :: 0 <= i < |ms| ==> ms[i].index == i + 1
  }

  /** What an append needs to give the next number. */
  predicate CounterFits(s: Session) {
    s.nextIndex == 0 || s.nextIndex == |s.log| + 1
  }

  /** Without deletions the numbering is exact over any run. */
  lemma {:induction false} IndicesExact(s: Session, ops: seq<Op>)
    requires Exact(s.log) && CounterFits(s)
    requires forall i :: 0 <= i < |ops| ==> !ops[i].Delete?
    ensures Exact(Run(s, ops).log) && CounterFits(Run(s, ops))
    decreases |ops|
  {
    if ops != [] {
      assert Exact(Step(s, ops[0]).log) && CounterFits(Step(s, ops[0]));
      IndicesExact(Step(s, ops[0]), ops[1..]);
    }
  }

  /** With deletions but no restart the indices still increase, though they need not start at 1 or equal the position. */
  lemma {:induction false} IndicesIncrease(s: Session, ops: seq<Op>)
    requires Increasing(s.log) && s.nextIndex > 0 && forall i :: 0 <= i < |s.log| ==> s.log[i].index < s.nextIndex
    requires forall i :: 0 <= i < |ops| ==> !ops[i].Restart?
    ensures Increasing(Run(s, ops).log)
    decreases |ops|
  {
    if ops != [] {
      var s' := Step(s, ops[0]);
      assert Increasing(s'.log) && s'.nextIndex > 0 && forall i :: 0 <= i < |s'.log| ==> s'.log[i].index < s'.nextIndex;
      IndicesIncrease(s', ops[1..]);
    }
  }

  /** One append keeps the indices increasing iff the newest message's index is below the number it hands out. */
  lemma AppendIncreasesIff(s: Session, m: Message)
    requires Increasing(s.log)
    ensures Increasing(Appended(s, m).log) <==>
            s.log == [] || s.log[|s.log| - 1].index < if s.nextIndex == 0 then |s.log| + 1 else s.nextIndex
  {
    var log := Appended(s, m).log;
    if s.log != [] && Increasing(log) {
      assert log[|s.log| - 1].index < log[|s.log|].index;
    }
  }

  /** A deletion and a restart together repeat indices: after two messages, a deletion, an append, a restart and
      another append the later message has the smaller index. */
  lemma DeleteThenRestartDisorders(m: Message)
    ensures var s := Run(Session([], 0, None, []), [Append(m), Append(m), Delete, Append(m), Restart, Append(m)]);
            |s.log| == 2 && s.log[0].index == 3 && s.log[1].index == 2 && !Increasing(s.log)
  {
    var s0 := Session([], 0, None, []);
    var s1 := Step(s0, Append(m));
    var s2 := Step(s1, Append(m));
    var s3 := Step(s2, Delete);
    var s4 := Step(s3, Append(m));
    var s5 := Step(s4, Restart);
    var s6 := Step(s5, Append(m));
    var ops := [Append(m), Append(m), Delete, Append(m), Restart, Append(m)];
    RunSteps(s0, ops[0], ops[1..]);
    RunSteps(s1, ops[1], ops[2..]);
    RunSteps(s2, ops[2], ops[3..]);
    RunSteps(s3, ops[3], ops[4..]);
    RunSteps(s4, ops[4], ops[5..]);
    RunSteps(s5, ops[5], []);
    assert ops == [ops[0]] + ops[1..] && ops[1..] == [ops[1]] + ops[2..] && ops[2..] == [ops[2]] + ops[3..];
    assert ops[3..] == [ops[3]] + ops[4..] && ops[4..] == [ops[4]] + ops[5..] && ops[5..] == [ops[5]] + [];
  }

  lemma RunSteps(s: Session, op: Op, ops: seq<Op>)
    ensures Run(s, [op] + ops) == Run(Step(s, op), ops)
  {
    assert ([op] + ops)[1..] == ops;
  }
}
