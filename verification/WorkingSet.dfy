/** The working set of a run: the newest messages that fit the token budget; the rest goes to the summary. */
module WorkingSets {
  import opened Basics
  import opened Messages
  import opened ContextWindow
  import opened Compaction
  import opened Paging
  import opened FileStore
  import opened SqliteStore
  import opened TeamHistory

  const FETCH_LIMIT: nat := 5000

  /** Messages from k on are the longest suffix within the budget; k is the length when all messages fit and also
      when not even the newest does. */
  predicate Overflow(tok: Tokenizer, ms: seq<Message>, budget: int, k: nat) {
    && k <= |ms|
    && (k == |ms| ==> TotalCost(tok, ms) <= budget || ms == [] || TotalCost(tok, ms[|ms| - 1..]) > budget)
    && (k < |ms| ==> 0 < k && TotalCost(tok, ms[k..]) <= budget < TotalCost(tok, ms[k - 1..]))
  }

  method FindOverflow(tok: Tokenizer, msgs: seq<Message>, budget: int) returns (overflow: nat)
    requires msgs != []
    ensures Overflow(tok, msgs, budget, overflow)
  {
    overflow := |msgs|;
    var tokens := 0;
    var i := |msgs|;
    while i > 0
      invariant 0 <= i <= |msgs| && overflow == |msgs|
      invariant tokens == TotalCost(tok, msgs[i..]) && (i < |msgs| ==> tokens <= budget)
    {
      i := i - 1;
      assert msgs[i..][1..] == msgs[i + 1..];
      tokens := tokens + Cost(tok, msgs[i]);
      if tokens > budget {
        overflow := i + 1;
        return;
      }
    }
    assert msgs[0..] == msgs;
  }

  // ----- the memory behind a run -----

  /** A session in the file store, a session in the database store, or a team agent's view of both its partitions. */
  datatype Memory =
    | Files(file: FileMemory, sid: string)
    | Database(db: SqliteMemory, sid: string)
    | TeamAgent(team: TeamSession, agent: string)
  {
    ghost function Parts(): set<object> {
      match this
      case Files(file, _) => {file}
      case Database(db, _) => {db}
      case TeamAgent(team, _) => {team.mem}
    }

    /** The session that compactions go to; for a team agent the shared partition. */
    ghost function Compacts(): Session
      reads Parts()
    {
      match this
      case Files(file, sid) => file.View(sid)
      case Database(db, sid) => db.View(sid)
      case TeamAgent(team, _) => team.mem.View(team.id)
    }

    /** Whether there is a summariser. */
    predicate Summarises() {
      match this
      case Files(file, _) => file.summarizer
      case Database(db, _) => db.summarizer
      case TeamAgent(team, _) => team.mem.summarizer
    }

    /** When a compaction asks the summariser: when there is something new, and for the database store also a cut beyond
        what is covered. */
    predicate Asks(s: Session, through: int, msgs: seq<Message>) {
      Summarises() && (Files? || Through(s) < through) && HasNew(s, through, Handed(s, through, msgs))
    }

    /** What the memory counts as its messages. */
    ghost function Total(): nat
      reads Parts()
    {
      match this
      case Files(file, sid) => |file.View(sid).log|
      case Database(db, sid) => |LogOf(db.rows, sid)|
      case TeamAgent(team, agent) => |LogOf(team.mem.rows, team.id)| + |LogOf(team.mem.rows, PrivateKey(team.id, agent))|
    }

    /** The newest n messages as the memory returns them. */
    ghost function Newest(n: nat): seq<Message>
      reads Parts()
    {
      match this
      case Files(file, sid) => Page(file.View(sid).log, n, 0)
      case Database(db, sid) => Windowed(LogOf(db.rows, sid), n, 0)
      case TeamAgent(team, agent) => AgentView(LogOf(team.mem.rows, team.id), LogOf(team.mem.rows, PrivateKey(team.id, agent)), n, 0)
    }

    /** What a run fetches: everything, but at most the newest FETCH_LIMIT messages. */
    ghost function Fetched(): seq<Message>
      reads Parts()
    {
      Newest(if Total() > FETCH_LIMIT then FETCH_LIMIT else Total())
    }

    method Count() returns (n: nat)
      ensures n == Total()
    {
      match this {
        case Files(file, sid) =>
          n := file.Count(sid);
        case Database(db, sid) =>
          n := db.Count(sid);
        case TeamAgent(team, agent) =>
          n := team.Count(agent);
      }
    }

    method Recent(n: nat) returns (r: seq<Message>)
      ensures r == Newest(n)
    {
      match this {
        case Files(file, sid) =>
          r := file.Recent(sid, n, 0);
        case Database(db, sid) =>
          r := db.Recent(sid, n, 0);
        case TeamAgent(team, agent) =>
          r := team.Recent(agent, n, 0);
      }
    }

    /** Compacts with the messages the caller has fetched; a team agent hands them on to the shared partition. */
    method Compact(through: int, msgs: seq<Message>) returns (ghost reply: Option<string>, ghost asked: bool)
      modifies Parts()
      ensures asked <==> Asks(old(Compacts()), through, msgs)
      ensures Compacts() == Compacted(old(Compacts()), through, Handed(old(Compacts()), through, msgs), reply)
      ensures Files? ==> forall other :: other != sid ==> file.View(other) == old(file.View(other))
      ensures Database? ==> forall other :: other != sid ==> db.View(other) == old(db.View(other))
      ensures TeamAgent? ==> forall other :: other != team.id ==> team.mem.View(other) == old(team.mem.View(other))
    {
      hide LogOf, Compacted, HasNew;
      match this {
        case Files(file, sid) =>
          reply, asked := file.Compact(sid, through, Some(msgs));
        case Database(db, sid) =>
          reply, asked := db.Compact(sid, through, Some(msgs));
        case TeamAgent(team, _) =>
          reply, asked := team.mem.Compact(team.id, through, Some(msgs));
      }
    }

    /** The messages a compaction is given to work on, where it does not read the log itself. */
    function Handed(s: Session, through: int, msgs: seq<Message>): Option<seq<Message>> {
      if Files? then Some(msgs) else LookAhead(s, through, Some(msgs))
    }
  }

  /** What preparing the memory does to the compacted session s, of a memory that counts `total` messages and of which
      msgs were fetched, with the given overflow and summariser reply. */
  function PreparedSession(m: Memory, s: Session, total: nat, msgs: seq<Message>, overflow: nat, reply: Option<string>): Session {
    if overflow < |msgs| then
      var through := total - |msgs| + SafeBoundary(msgs, overflow);
      Compacted(s, through, m.Handed(s, through, msgs), reply)
    else s
  }

  function Working(msgs: seq<Message>, overflow: nat): seq<Message> {
    var keep := SafeBoundary(msgs, overflow);
    if 0 <= keep < |msgs| then msgs[keep..] else msgs
  }

  lemma NothingStored(tok: Tokenizer, budget: int)
    ensures Overflow(tok, [], budget, 0) && Working([], 0) == []
  {
  }

  lemma CutFacts(tok: Tokenizer, msgs: seq<Message>, budget: int, overflow: nat)
    requires Overflow(tok, msgs, budget, overflow)
    ensures overflow <= |msgs| && overflow <= SafeBoundary(msgs, overflow) <= |msgs|
    ensures overflow == |msgs| ==> SafeBoundary(msgs, overflow) == |msgs|
  {
  }

  lemma NothingFetched(m: Memory)
    requires m.Total() == 0
    ensures m.Fetched() == []
  {
    hide LogOf;
  }

  /** Fetches the newest messages, compacts what overflows the budget, and returns the rest. */
  method PrepareMemory(m: Memory, tok: Tokenizer, budget: int)
    returns (working: seq<Message>, ghost overflow: nat, ghost reply: Option<string>, ghost asked: bool)
    modifies m.Parts()
    ensures var msgs := old(m.Fetched());
            && Overflow(tok, msgs, budget, overflow)
            && working == Working(msgs, overflow)
            && m.Compacts() == PreparedSession(m, old(m.Compacts()), old(m.Total()), msgs, overflow, reply)
            // the summariser is asked exactly for what overflows the budget and is new
            && (asked <==> overflow < |msgs| &&
                           m.Asks(old(m.Compacts()), old(m.Total()) - |msgs| + SafeBoundary(msgs, overflow), msgs))
  {
    hide LogOf, Windowed, Page, AgentView, Numbered, Compacted, SafeBoundary, Overflow, TotalCost, Working, PreparedSession, HasNew;
    overflow, reply, asked := 0, None, false;
    ghost var fetched, s, total := m.Fetched(), m.Compacts(), m.Total();
    NothingStored(tok, budget);
    if total == 0 {
      NothingFetched(m);
      Untouched(m, s, total, [], 0, reply);
    }
    var totalCount := m.Count();
    if totalCount == 0 {
      return [], 0, reply, asked;
    }
    var fetchN := totalCount;
    if fetchN > FETCH_LIMIT {
      fetchN := FETCH_LIMIT;
    }
    var msgs := m.Recent(fetchN);
    assert msgs == fetched;
    if |msgs| == 0 {
      Untouched(m, s, total, msgs, 0, reply);
      return [], 0, reply, asked;
    }
    var globalOffset := totalCount - |msgs|;
    var keep: int := FindOverflow(tok, msgs, budget);
    overflow := keep;
    CutFacts(tok, msgs, budget, overflow);
    if keep < |msgs| {
      keep := SafeCompressionBoundary(msgs, keep);
      reply, asked := m.Compact(globalOffset + keep, msgs);
      Prepared(m, s, totalCount, msgs, overflow, reply);
    } else {
      Untouched(m, s, totalCount, msgs, overflow, reply);
    }
    WorkingIs(msgs, overflow);
    if keep >= |msgs| {
      return msgs, overflow, reply, asked;
    }
    return msgs[keep..], overflow, reply, asked;
  }

  lemma Prepared(m: Memory, s: Session, total: nat, msgs: seq<Message>, overflow: nat, reply: Option<string>)
    requires overflow < |msgs|
    ensures var through := total - |msgs| + SafeBoundary(msgs, overflow);
            PreparedSession(m, s, total, msgs, overflow, reply) == Compacted(s, through, m.Handed(s, through, msgs), reply)
  {
  }

  lemma Untouched(m: Memory, s: Session, total: nat, msgs: seq<Message>, overflow: nat, reply: Option<string>)
    requires overflow >= |msgs|
    ensures PreparedSession(m, s, total, msgs, overflow, reply) == s
  {
  }

  lemma WorkingIs(msgs: seq<Message>, overflow: nat)
    requires overflow <= SafeBoundary(msgs, overflow) <= |msgs|
    ensures var keep := SafeBoundary(msgs, overflow); Working(msgs, overflow) == if keep >= |msgs| then msgs else msgs[keep..]
  {
  }

  /** Sessions of up to FETCH_LIMIT messages are fetched whole, from the database if they do not begin with a tool
      result. */
  lemma FetchedWhole(m: Memory)
    requires !m.TeamAgent? && m.Total() <= FETCH_LIMIT
    requires m.Database? && m.Total() > 0 ==> LogOf(m.db.rows, m.sid)[0].role != Tool
    ensures m.Fetched() == m.Compacts().log && m.Total() == |m.Compacts().log|
  {
    hide LogOf, Page, Windowed;
    if m.Database? {
      WindowedWhole(LogOf(m.db.rows, m.sid));
    } else {
      PageWhole(m.Compacts().log);
    }
  }

  lemma PageWhole(log: seq<Message>)
    ensures Page(log, |log|, 0) == log
  {
  }

  lemma WindowedWhole(log: seq<Message>)
    requires log != [] ==> log[0].role != Tool
    ensures Windowed(log, |log|, 0) == log
  {
    assert FirstKept(log, |log|, 0) == 0;
  }

  // ----- the working set -----

  /** The working set fits the budget iff everything fetched fits or the cut leaves something; it does not when the
      newest message alone is too big or only results of one exchange would be left. */
  lemma WithinBudgetIff(tok: Tokenizer, msgs: seq<Message>, budget: int, overflow: nat)
    requires Overflow(tok, msgs, budget, overflow)
    ensures TotalCost(tok, Working(msgs, overflow)) <= budget
            <==> TotalCost(tok, msgs) <= budget || SafeBoundary(msgs, overflow) < |msgs|
  {
    if overflow < |msgs| {
      var keep: nat := SafeBoundary(msgs, overflow);
      SuffixCost(tok, msgs, overflow, keep);
      assert msgs[0..] == msgs;
    }
  }

  /** For sessions that are fetched whole: messages left out of the working set are in the summary iff the summariser
      answered or they were there before, and the working set is all that is not covered by the cut. */
  lemma NothingLostIff(m: Memory, tok: Tokenizer, s: Session, budget: int, overflow: nat, reply: Option<string>)
    requires Overflow(tok, s.log, budget, overflow)
    ensures var out := |s.log| - |Working(s.log, overflow)|;
            && 0 <= out && Working(s.log, overflow) == s.log[out..]
            && (out <= Through(PreparedSession(m, s, |s.log|, s.log, overflow, reply)) <==> out <= Through(s) || reply.Some?)
  {
    if overflow < |s.log| {
      SafeBoundaryIdempotent(s.log, overflow);
    }
  }

  /** The working set of paired messages is paired iff the budget did not run out between two results of one exchange. */
  lemma WorkingPairedIff(tok: Tokenizer, msgs: seq<Message>, budget: int, overflow: nat)
    requires Overflow(tok, msgs, budget, overflow) && Paired(msgs)
    ensures Paired(Working(msgs, overflow)) <==>
            !(overflow < |msgs| && msgs[overflow - 1].role == Tool && msgs[overflow].role == Tool)
  {
    if overflow < |msgs| {
      var k := SafeBoundary(msgs, overflow);
      SafeCutIff(msgs, overflow);
      SuffixPairedIff(msgs, k);
      if msgs[overflow].role == Tool {
        ToolPreceded(msgs, overflow);
      }
    }
  }

  // ----- the summary -----

  /** The runner's cut in the fetched end of a log is the log's own cut there. */
  lemma CutIsLogs(log: seq<Message>, msgs: seq<Message>, overflow: nat)
    requires 0 < overflow <= |msgs| <= |log| && msgs == log[|log| - |msgs|..]
    ensures |log| - |msgs| + SafeBoundary(msgs, overflow) == SafeBoundary(log, |log| - |msgs| + overflow)
  {
    SafeBoundaryOfSuffix(log, |log| - |msgs|, overflow);
  }

  /** For sessions that are fetched whole, preparing the memory is one aligned compaction, so any run made of appends,
      deletions, restarts and preparations keeps the summaries a partition of the log (Compaction.RollingPartition). */
  lemma PrepareIsAligned(m: Memory, s: Session, overflow: nat, reply: Option<string>) returns (op: Op)
    requires 0 < overflow
    ensures op.Compact? && Aligned(s, op) && Step(s, op) == PreparedSession(m, s, |s.log|, s.log, overflow, reply)
    ensures Rolled(s) ==> Rolled(PreparedSession(m, s, |s.log|, s.log, overflow, reply))
  {
    hide Rolled;
    if overflow < |s.log| {
      var through := SafeBoundary(s.log, overflow);
      op := Compact(through, m.Handed(s, through, s.log), reply);
    } else {
      op := Compact(0, None, None);
    }
    if Rolled(s) {
      StepKeepsRolled(s, op);
    }
  }

  /** No two messages share an index. */
  predicate DistinctIndices(ms: seq<Message>) {
    forall i, j :: 0 <= i < j < |ms| ==> ms[i].index != ms[j].index
  }

  /** The exact condition for the summaries still to partition the compacted log afterwards, for any length and any
      memory. The fetched messages are the end of that log followed by `more`, which for a team agent is its private
      partition and otherwise nothing. The partition survives iff nothing new was summarised, the cut lies beyond the
      number of messages fetched, so that the store reads its log itself, or everything was fetched and the cut lies
      within the compacted log. Otherwise positions in the fetched list are taken for positions in the log. */
  lemma PreparePartitionIff(m: Memory, s: Session, more: seq<Message>, msgs: seq<Message>, overflow: nat, reply: Option<string>)
    requires Rolled(s) && DistinctIndices(s.log + more) && 0 < overflow <= |msgs| <= |s.log + more|
    requires msgs == (s.log + more)[|s.log + more| - |msgs|..]
    ensures var s' := PreparedSession(m, s, |s.log + more|, msgs, overflow, reply);
            var cut := |s.log + more| - |msgs| + SafeBoundary(msgs, overflow);
            Rolled(s') <==> s' == s || cut > |msgs| || (|msgs| == |s.log + more| && cut <= |s.log|)
  {
    hide *;
    var total := s.log + more;
    var s' := PreparedSession(m, s, |total|, msgs, overflow, reply);
    var cut := |total| - |msgs| + SafeBoundary(msgs, overflow);
    var handed := m.Handed(s, cut, msgs);
    CutPositive(msgs, overflow);
    SafeBoundaryIdempotent(msgs, overflow);
    PreparedEither(m, s, |total|, msgs, overflow, reply);
    HandedIs(m, s, cut, msgs);
    if s' != s {
      CompactKeepsRolledIff(s, cut, handed, reply);
      NewCover(s, cut, handed, reply);
      if cut > |msgs| {
        OwnLog(m, s, cut, msgs, Through(s), Through(s'));
      }
      SlicesAgreeIff(s.log, more, msgs, Source(s, cut, handed), cut > |msgs|, Through(s), Through(s'));
    }
  }

  lemma PreparedEither(m: Memory, s: Session, total: nat, msgs: seq<Message>, overflow: nat, reply: Option<string>)
    ensures var s' := PreparedSession(m, s, total, msgs, overflow, reply);
            var through := total - |msgs| + SafeBoundary(msgs, overflow);
            s' == s || s' == Compacted(s, through, m.Handed(s, through, msgs), reply)
  {
    hide Compacted, SafeBoundary;
  }

  lemma HandedIs(m: Memory, s: Session, through: int, msgs: seq<Message>)
    ensures through <= |msgs| ==> Source(s, through, m.Handed(s, through, msgs)) == msgs
  {
  }

  /** When a store works on the messages of its log: when it reads them itself, or was given all of them. */
  lemma SlicesAgreeIff(log: seq<Message>, more: seq<Message>, msgs: seq<Message>, all: seq<Message>, own: bool, a: nat, b: nat)
    requires DistinctIndices(log + more) && |msgs| <= |log + more| && msgs == (log + more)[|log + more| - |msgs|..]
    requires a < b <= |all| && if own then SameSlice(all, log, a, b) else all == msgs
    ensures SameSlice(all, log, a, b) <==> own || (|msgs| == |log + more| && b <= |log|)
  {
    hide *;
    if !own {
      PartAgreesIff(log, log + more, |log + more| - |msgs|, a, b);
    }
  }

  lemma PartAgreesIff(log: seq<Message>, total: seq<Message>, start: nat, a: nat, b: nat)
    requires DistinctIndices(total) && log <= total && a < b <= |total| - start
    ensures SameSlice(total[start..], log, a, b) <==> start == 0 && b <= |log|
  {
    hide *;
    if start == 0 {
      WholeSlice(log, total, a, b);
    } else {
      ShiftedSlice(log, total, start, a, b);
    }
  }

  lemma CutPositive(msgs: seq<Message>, overflow: nat)
    requires 0 < overflow <= |msgs|
    ensures 0 < SafeBoundary(msgs, overflow) <= |msgs|
  {
  }

  lemma NewCover(s: Session, through: int, prefetched: Option<seq<Message>>, reply: Option<string>)
    requires Compacted(s, through, prefetched, reply) != s
    ensures var all := Source(s, through, prefetched);
            Through(s) < Through(Compacted(s, through, prefetched, reply)) == SafeBoundary(all, through) <= |all|
  {
  }

  /** A store that does not use the caller's messages works on a beginning of its own log. */
  lemma OwnLog(m: Memory, s: Session, through: int, msgs: seq<Message>, a: nat, b: nat)
    requires through > |msgs| && a <= b <= |Source(s, through, m.Handed(s, through, msgs))|
    ensures SameSlice(Source(s, through, m.Handed(s, through, msgs)), s.log, a, b)
  {
  }

  /** Equal positions of a log and of a later part of it hold different messages. */
  lemma ShiftedSlice(log: seq<Message>, total: seq<Message>, start: nat, a: nat, b: nat)
    requires DistinctIndices(total) && log <= total && 0 < start && a < b <= |total| - start
    ensures !SameSlice(total[start..], log, a, b)
  {
    if b <= |log| {
      assert total[start..][a..b][0] == total[start + a] && log[a..b][0] == total[a];
      assert total[a].index != total[start + a].index;
    }
  }

  lemma WholeSlice(log: seq<Message>, total: seq<Message>, a: nat, b: nat)
    requires log <= total && a <= b <= |total|
    ensures SameSlice(total[0..], log, a, b) <==> b <= |log|
  {
    if b <= |log| {
      assert total[0..][a..b] == log[a..b];
    }
  }

  /** It does happen. With messages of four tokens and a budget of 19996 a run over a session of 5002 messages fetches
      5000 and cuts after the first of them, and messages 3 to 5 are summarised in place of messages 1 to 3. */
  lemma LongSessionSkips(m: Memory, s: Session, text: string)
    requires |s.log| == FETCH_LIMIT + 2 && s.summary == None && s.calls == [] && DistinctIndices(s.log)
    requires forall i :: 0 <= i < |s.log| ==> s.log[i].role == User
    ensures var msgs := s.log[2..];
            && Overflow(NoTokens, msgs, 19996, 1) && Rolled(s)
            && var s' := PreparedSession(m, s, |s.log|, msgs, 1, Some(text));
               && !Rolled(s') && |s'.calls| == 1 && s'.calls[0].messages == s.log[2..5] && Through(s') == 3
  {
    hide Rolled, TotalCost, DistinctIndices;
    var msgs := s.log[2..];
    FlatCost(msgs[1..]);
    FlatCost(msgs);
    assert msgs[0..] == msgs;
    assert msgs[0] == s.log[2];
    assert SafeBoundary(msgs, 1) == 1 && msgs[2] == s.log[4];
    assert SafeBoundary(msgs, 3) == 3;
    assert msgs[0..3] == s.log[2..5];
    assert s.log + [] == s.log;
    RolledFresh(s);
    PreparePartitionIff(m, s, [], msgs, 1, Some(text));
  }

  lemma RolledFresh(s: Session)
    requires s.summary == None && s.calls == []
    ensures Rolled(s)
  {
  }
}
