/** The database store: one table of message rows, numbered across all sessions, read newest first. */
module SqliteStore {
  import opened Basics
  import opened Messages
  import opened Compaction
  import opened Paging

  /** A row; the message's index is the row's id. */
  datatype Row = Row(session: string, message: Message)

  function LogOf(rows: seq<Row>, sid: string): seq<Message> {
    if rows == [] then []
    else
      var last := rows[|rows| - 1];
      LogOf(rows[..|rows| - 1], sid) + if last.session == sid then [last.message] else []
  }

  lemma LogOfSnoc(rows: seq<Row>, row: Row, sid: string)
    ensures LogOf(rows + [row], sid) == LogOf(rows, sid) + if row.session == sid then [row.message] else []
  {
    assert (rows + [row])[..|rows|] == rows;
  }

  /** Row ids increase. */
  predicate RowsOrdered(rows: seq<Row>) {
    forall i, j :: 0 <= i < j < |rows| ==> rows[i].message.index < rows[j].message.index
  }

  // ----- the windowed query -----

  function WindowSize(n: nat, offset: nat): nat {
    if n * 2 + offset < 20 then 20 else n * 2 + offset
  }

  function WindowStart(log: seq<Message>, n: nat, offset: nat): (s: nat)
    ensures s <= |log|
  {
    if |log| <= WindowSize(n, offset) then 0 else |log| - WindowSize(n, offset)
  }

  /** The first message of the window that is not an orphaned tool result. */
  function FirstKept(log: seq<Message>, n: nat, offset: nat): (k: nat)
    ensures WindowStart(log, n, offset) <= k <= |log| && Boundary(log, k)
    ensures ToolRun(log, WindowStart(log, n, offset), k)
  {
    ToolRunEnd(log, WindowStart(log, n, offset))
  }

  /** What the database store returns for a page: the page without what lies before the first message kept; with
      n = 0 there is no limit. */
  function Windowed(log: seq<Message>, n: nat, offset: nat): seq<Message> {
    var first := FirstKept(log, n, offset);
    var start := if n == 0 || PageStart(log, n, offset) < first then first else PageStart(log, n, offset);
    if start < PageEnd(log, offset) then log[start..PageEnd(log, offset)] else []
  }

  /** When the windowed query gives the page: iff there is nothing left after the offset or no message of the page
      was dropped as orphaned. */
  lemma WindowedExactIff(log: seq<Message>, n: nat, offset: nat)
    requires n > 0
    ensures Windowed(log, n, offset) == Page(log, n, offset)
            <==> offset >= |log| || FirstKept(log, n, offset) <= PageStart(log, n, offset)
  {
    if Windowed(log, n, offset) == Page(log, n, offset) {
      assert |Windowed(log, n, offset)| == PageEnd(log, offset) - PageStart(log, n, offset);
    }
  }

  /** No more than n tool results stand in a row, and none at the start. */
  ghost predicate ShortToolRuns(log: seq<Message>, n: nat) {
    && (log != [] ==> log[0].role != Tool)
    && forall i, j {:trigger ToolRun(log, i, j)} :: 0 <= i <= j <= |log| && ToolRun(log, i, j) ==> j - i <= n
  }

  /** A condition on the log alone under which every page is exact, and reading all pages gives back the log. */
  lemma WindowedExact(log: seq<Message>, n: nat, offset: nat)
    requires n > 0 && ShortToolRuns(log, n)
    ensures Windowed(log, n, offset) == Page(log, n, offset)
  {
    WindowedExactIff(log, n, offset);
    var start, first := WindowStart(log, n, offset), FirstKept(log, n, offset);
    assert ToolRun(log, start, first);
  }

  function WindowedPages(log: seq<Message>, n: nat, offset: nat): seq<Message>
    requires n > 0
    decreases |log| - offset
  {
    if offset >= |log| then [] else WindowedPages(log, n, offset + n) + Windowed(log, n, offset)
  }

  lemma {:induction false} WindowedPagesCoverLog(log: seq<Message>, n: nat, offset: nat)
    requires n > 0 && ShortToolRuns(log, n)
    ensures WindowedPages(log, n, offset) == Pages(log, n, offset)
    ensures offset == 0 ==> WindowedPages(log, n, offset) == log
    decreases |log| - offset
  {
    hide ShortToolRuns, Windowed, Page;
    PagesCoverLog(log, n, offset);
    if offset < |log| {
      WindowedExact(log, n, offset);
      WindowedPagesCoverLog(log, n, offset + n);
    }
  }

  /** The condition is needed: after a question whose call got 25 results, the page of the two newest is empty. */
  lemma LongToolRunLosesPage(log: seq<Message>)
    requires |log| == 26 && forall i :: 1 <= i < 26 ==> log[i].role == Tool
    ensures Windowed(log, 2, 0) == [] && |Page(log, 2, 0)| == 2
  {
    RunToEnd(log, 6);
  }

  lemma {:induction false} RunToEnd(log: seq<Message>, k: nat)
    requires k <= |log| && forall i :: k <= i < |log| ==> log[i].role == Tool
    ensures ToolRunEnd(log, k) == |log|
    decreases |log| - k
  {
    if k < |log| {
      RunToEnd(log, k + 1);
    }
  }

  function Reversed(ms: seq<Message>): (r: seq<Message>)
    ensures |r| == |ms|
    ensures forall k :: 0 <= k < |ms| ==> r[k] == ms[|ms| - 1 - k]
  {
    seq(|ms|, k requires 0 <= k < |ms| => ms[|ms| - 1 - k])
  }

  lemma ReversedTwice(ms: seq<Message>)
    ensures Reversed(Reversed(ms)) == ms
  {
  }

  method ReverseInPlace(msgs: array<Message>)
    modifies msgs
    ensures msgs[..] == Reversed(old(msgs[..]))
  {
    var i, j := 0, msgs.Length - 1;
    while i < j
      invariant 0 <= i <= msgs.Length && i + j == msgs.Length - 1 && i <= j + 1
      invariant forall k :: 0 <= k < i || j < k < msgs.Length ==> msgs[k] == old(msgs[msgs.Length - 1 - k])
      invariant forall k :: i <= k <= j ==> msgs[k] == old(msgs[k])
    {
      msgs[i], msgs[j] := msgs[j], msgs[i];
      i, j := i + 1, j - 1;
    }
  }

  class SqliteMemory {
    const summarizer: bool
    var rows: seq<Row>
    var nextId: int
    var summaries: map<string, Summary>
    ghost var calls: map<string, seq<SummaryCall>>

    constructor (summarizer: bool)
      ensures this.summarizer == summarizer && rows == [] && Valid() && summaries == map[] && calls == map[]
    {
      this.summarizer := summarizer;
      rows, nextId, summaries, calls := [], 1, map[], map[];
    }

    /** Row ids increase and are never used again. */
    predicate Valid()
      reads this`rows, this`nextId
    {
      RowsOrdered(rows) && RowsBelow(rows, nextId)
    }

    ghost function View(sid: string): Session
      reads this
    {
      Session(LogOf(rows, sid), 0, if sid in summaries then Some(summaries[sid]) else None, if sid in calls then calls[sid] else [])
    }

    method Append(sid: string, msg: Message)
      requires Valid()
      modifies this`rows, this`nextId
      ensures Valid()
      ensures nextId == old(nextId) + 1 && rows == old(rows) + [Row(sid, msg.(index := old(nextId)))]
    {
      rows := rows + [Row(sid, msg.(index := nextId))];
      nextId := nextId + 1;
    }

    method Count(sid: string) returns (n: nat)
      ensures n == |LogOf(rows, sid)|
    {
      n := 0;
      for i := 0 to |rows|
        invariant n == |LogOf(rows[..i], sid)|
      {
        assert rows[..i + 1] == rows[..i] + [rows[i]];
        LogOfSnoc(rows[..i], rows[i], sid);
        if rows[i].session == sid {
          n := n + 1;
        }
      }
      assert rows[..|rows|] == rows;
    }

    /** The newest rows of a session, newest first, as the query returns them. */
    method SelectNewest(sid: string, limit: nat) returns (msgs: array<Message>)
      ensures fresh(msgs)
      ensures var log := LogOf(rows, sid);
              msgs[..] == Reversed(log[if |log| <= limit then 0 else |log| - limit..])
    {
      hide Reversed;
      var found: seq<Message> := [];
      var i := |rows|;
      ghost var log := LogOf(rows, sid);
      assert rows[..i] == rows && log + [] == log;
      NothingReversed();
      while i > 0 && |found| < limit
        invariant 0 <= i <= |rows| && |found| <= limit
        invariant LogOf(rows[..i], sid) + Reversed(found) == log
        decreases i
      {
        i := i - 1;
        assert rows[..i + 1] == rows[..i] + [rows[i]];
        LogOfSnoc(rows[..i], rows[i], sid);
        if rows[i].session == sid {
          ReversedSnoc(found, rows[i].message);
          found := found + [rows[i].message];
        }
      }
      ReversedTwice(found);
      msgs := new Message[|found|](k requires 0 <= k < |found| => found[k]);
      assert msgs[..] == found;
    }

    /** Up to n messages, skipping the newest `offset`, oldest first, without tool results at the start of the window. */
    method Recent(sid: string, n: nat, offset: nat) returns (r: seq<Message>)
      ensures r == Windowed(LogOf(rows, sid), n, offset)
    {
      ghost var log := LogOf(rows, sid);
      hide LogOf, Windowed, Reversed, FirstKept, ToolRunEnd;
      var fetchN := n * 2 + offset;
      if fetchN < 20 {
        fetchN := 20;
      }
      var fetched := SelectNewest(sid, fetchN);
      ReverseInPlace(fetched);
      var msgs := fetched[..];
      ghost var start := WindowStart(log, n, offset);
      ReversedTwice(log[start..]);
      assert msgs == log[start..];
      ghost var k := start;
      while |msgs| > 0 && msgs[0].role == Tool
        invariant start <= k <= |log| && msgs == log[k..]
        invariant ToolRunEnd(log, k) == ToolRunEnd(log, start)
        decreases |msgs|
      {
        OneMoreTool(log, k);
        msgs := msgs[1..];
        k := k + 1;
      }
      RunEnded(log, k);
      FirstKeptIs(log, n, offset);
      r := SkipAndLimit(log, k, msgs, n, offset);
    }

    /** The newest `offset` messages are skipped, then up to n are returned; the messages are the log from k on. */
    method SkipAndLimit(ghost log: seq<Message>, ghost k: nat, messages: seq<Message>, n: nat, offset: nat) returns (msgs: seq<Message>)
      requires k == FirstKept(log, n, offset) && messages == log[k..]
      ensures msgs == Windowed(log, n, offset)
    {
      hide FirstKept;
      msgs := messages;
      if offset > 0 && |msgs| > offset {
        msgs := msgs[..|msgs| - offset];
      } else if offset > 0 {
        msgs := [];
      }
      ghost var end := PageEnd(log, offset);
      assert msgs == if k < end then log[k..end] else [];
      if n > 0 && |msgs| > n {
        msgs := msgs[|msgs| - n..];
        assert msgs == log[end - n..end];
      }
    }

    /** Removes everything of a session; ids are not used again. */
    method DeleteSession(sid: string)
      requires Valid()
      modifies this
      ensures Valid() && nextId == old(nextId)
      ensures rows == Without(old(rows), sid)
      ensures View(sid) == Session([], 0, None, [])
      ensures forall other :: other != sid ==> View(other) == old(View(other))
    {
      hide LogOf, Without, RowsOrdered, RowsBelow;
      var kept := RowsWithout(rows, sid);
      WithoutOrdered(rows, sid, nextId);
      forall other: string {
        LogOfWithout(rows, sid, other);
      }
      rows := kept;
      summaries := summaries - {sid};
      calls := calls - {sid};
    }

    /** Compaction as the database store does it: it reads ahead 20 messages behind the cut when it has to read. */
    method Compact(sid: string, throughIndex: int, messages: Option<seq<Message>>)
      returns (ghost reply: Option<string>, ghost asked: bool)
      modifies this`summaries, this`calls
      ensures var s := old(View(sid));
              View(sid) == Compacted(s, throughIndex, LookAhead(s, throughIndex, messages), reply)
      ensures forall other :: other != sid ==> View(other) == old(View(other))
      // the summariser is asked exactly when there is one and something new; a cut that is asked for below what is covered
      // already is not moved on past later tool results
      ensures var s := old(View(sid));
              asked <==> summarizer && Through(s) < throughIndex && HasNew(s, throughIndex, LookAhead(s, throughIndex, messages))
      ensures !asked ==> reply == None
    {
      hide LogOf, SafeBoundary;
      reply, asked := None, false;
      ghost var s := View(sid);
      if !summarizer {
        return;
      }
      var prev := if sid in summaries then Some(summaries[sid]) else None;
      var lastIdx := 0;
      if prev.Some? {
        lastIdx := prev.value.through;
      }
      assert prev == s.summary && lastIdx == Through(s);
      if lastIdx >= throughIndex {
        NothingNew(s, throughIndex, LookAhead(s, throughIndex, messages));
        return;
      }
      var all: seq<Message>;
      if messages.Some? && throughIndex <= |messages.value| {
        all := messages.value;
      } else {
        var count := Count(sid);
        if count == 0 || throughIndex <= 0 || throughIndex > count {
          return;
        }
        var fetchCount := if throughIndex + 20 > count then count else throughIndex + 20;
        all := SelectOldest(sid, fetchCount);
      }
      assert all == Source(s, throughIndex, LookAhead(s, throughIndex, messages));
      if |all| == 0 || throughIndex > |all| {
        return;
      }
      var safeIdx := SafeCompressionBoundary(all, throughIndex);
      if safeIdx <= 0 || safeIdx > |all| {
        CutBounds(all, throughIndex);
        return;
      }
      if lastIdx < safeIdx {
        var newMsgs := all[lastIdx..safeIdx];
        var answer: Option<string> := *; // the summariser, given prev and newMsgs
        reply, asked := answer, true;
        match answer
        case None =>
        case Some(text) =>
          var cc := Summary(text, safeIdx);
          calls := calls[sid := s.calls + [SummaryCall(prev, newMsgs, cc)]];
          summaries := summaries[sid := cc];
          assert View(sid) == s.(summary := Some(cc), calls := s.calls + [SummaryCall(prev, newMsgs, cc)]);
      }
    }

    method SelectOldest(sid: string, limit: nat) returns (msgs: seq<Message>)
      requires limit <= |LogOf(rows, sid)|
      ensures msgs == LogOf(rows, sid)[..limit]
    {
      msgs := [];
      for i := 0 to |rows|
        invariant msgs == LogOf(rows[..i], sid)
      {
        assert rows[..i + 1] == rows[..i] + [rows[i]];
        LogOfSnoc(rows[..i], rows[i], sid);
        if rows[i].session == sid {
          msgs := msgs + [rows[i].message];
        }
      }
      assert rows[..|rows|] == rows;
      msgs := msgs[..limit];
    }
  }

  /** What the database store works on when the caller's messages do not reach: the log up to 20 messages behind
      the cut. */
  function LookAhead(s: Session, through: int, messages: Option<seq<Message>>): Option<seq<Message>> {
    if messages.Some? && through <= |messages.value| then messages
    else if 0 < through && through + 20 < |s.log| then Some(s.log[..through + 20])
    else None
  }

  lemma NothingNew(s: Session, through: int, prefetched: Option<seq<Message>>)
    ensures Compacted(s, through, prefetched, None) == s
  {
  }

  lemma CutBounds(all: seq<Message>, through: int)
    requires through <= |all|
    ensures SafeBoundary(all, through) <= |all| && (SafeBoundary(all, through) <= 0 ==> through <= 0)
  {
  }

  /** The look-ahead does not disturb the partition: the database store's compactions are aligned too. */
  lemma LookAheadAligned(s: Session, through: int, messages: Option<seq<Message>>, reply: Option<string>)
    requires Aligned(s, Compact(through, messages, reply))
    ensures Aligned(s, Compact(through, LookAhead(s, through, messages), reply))
  {
  }

  // ----- removing a session's rows -----

  function Without(rows: seq<Row>, sid: string): seq<Row> {
    if rows == [] then []
    else
      var last := rows[|rows| - 1];
      Without(rows[..|rows| - 1], sid) + if last.session == sid then [] else [last]
  }

  lemma WithoutSnoc(rows: seq<Row>, row: Row, sid: string)
    ensures Without(rows + [row], sid) == Without(rows, sid) + if row.session == sid then [] else [row]
  {
    assert (rows + [row])[..|rows|] == rows;
  }

  predicate RowsBelow(rows: seq<Row>, bound: int) {
    forall i :: 0 <= i < |rows| ==> rows[i].message.index < bound
  }

  lemma {:induction false} WithoutOrdered(rows: seq<Row>, sid: string, bound: int)
    requires RowsOrdered(rows) && RowsBelow(rows, bound)
    ensures RowsOrdered(Without(rows, sid)) && RowsBelow(Without(rows, sid), bound)
  {
    if rows != [] {
      var init, last := rows[..|rows| - 1], rows[|rows| - 1];
      assert forall i :: 0 <= i < |init| ==> rows[i].message.index < rows[|rows| - 1].message.index;
      WithoutOrdered(init, sid, last.message.index);
      if last.session != sid {
        OrderedSnoc(Without(init, sid), last, bound);
      } else {
        assert Without(rows, sid) == Without(init, sid);
      }
    }
  }

  lemma OrderedSnoc(rows: seq<Row>, row: Row, bound: int)
    requires RowsOrdered(rows) && RowsBelow(rows, row.message.index) && row.message.index < bound
    ensures RowsOrdered(rows + [row]) && RowsBelow(rows + [row], bound)
  {
  }

  lemma {:induction false} LogOfWithout(rows: seq<Row>, sid: string, other: string)
    ensures LogOf(Without(rows, sid), other) == if other == sid then [] else LogOf(rows, other)
  {
    if rows != [] {
      var init, last := rows[..|rows| - 1], rows[|rows| - 1];
      LogOfWithout(init, sid, other);
      if last.session != sid {
        LogOfSnoc(Without(init, sid), last, other);
      } else {
        assert Without(rows, sid) == Without(init, sid);
      }
    }
  }

  lemma OneMoreTool(log: seq<Message>, k: nat)
    requires k < |log| && log[k].role == Tool
    ensures ToolRunEnd(log, k) == ToolRunEnd(log, k + 1)
  {
  }

  lemma RunEnded(log: seq<Message>, k: nat)
    requires k <= |log| && Boundary(log, k)
    ensures ToolRunEnd(log, k) == k
  {
  }

  lemma FirstKeptIs(log: seq<Message>, n: nat, offset: nat)
    ensures FirstKept(log, n, offset) == ToolRunEnd(log, WindowStart(log, n, offset))
  {
  }

  method RowsWithout(rows: seq<Row>, sid: string) returns (kept: seq<Row>)
    ensures kept == Without(rows, sid)
  {
    kept := [];
    for i := 0 to |rows|
      invariant kept == Without(rows[..i], sid)
    {
      assert rows[..i + 1] == rows[..i] + [rows[i]];
      WithoutSnoc(rows[..i], rows[i], sid);
      if rows[i].session != sid {
        kept := kept + [rows[i]];
      }
    }
    assert rows[..|rows|] == rows;
  }

  lemma NothingReversed()
    ensures Reversed([]) == []
  {
  }

  lemma ReversedSnoc(ms: seq<Message>, m: Message)
    ensures Reversed(ms + [m]) == [m] + Reversed(ms)
  {
  }
}
