/** A team session's history: each agent's tool traffic is stored in a partition of its own, everything else in a
    shared one, and the history endpoint merges the partitions back into one chronological log. */
module TeamHistory {
  import opened Basics
  import opened Messages
  import opened Compaction
  import opened Paging
  import opened SqliteStore

  function PrivateKey(sid: string, agent: string): string {
    sid + "::" + agent
  }

  /** The partition keys of a session: the shared one and one an agent. */
  function Keys(sid: string, agents: seq<string>): (keys: seq<string>)
    ensures |keys| == |agents| + 1 && keys[0] == sid
    ensures forall i :: 0 <= i < |agents| ==> keys[i + 1] == PrivateKey(sid, agents[i])
  {
    [sid] + seq(|agents|, i requires 0 <= i < |agents| => PrivateKey(sid, agents[i]))
  }

  lemma KeysDistinct(sid: string, agents: seq<string>)
    requires Distinct(agents)
    ensures Distinct(Keys(sid, agents))
  {
    var keys := Keys(sid, agents);
    forall i, j | 0 <= i < j < |keys| ensures keys[i] != keys[j] {
      if i == 0 {
        assert |keys[j]| > |keys[0]|;
      } else {
        assert keys[i][|sid| + 2..] == agents[i - 1] && keys[j][|sid| + 2..] == agents[j - 1];
      }
    }
  }

  lemma KeysHold(sid: string, agents: seq<string>, agent: string)
    requires agent in agents
    ensures sid in Keys(sid, agents) && PrivateKey(sid, agent) in Keys(sid, agents) && PrivateKey(sid, agent) != sid
  {
    var i :| 0 <= i < |agents| && agents[i] == agent;
    assert Keys(sid, agents)[0] == sid && Keys(sid, agents)[i + 1] == PrivateKey(sid, agent);
    assert |PrivateKey(sid, agent)| > |sid|;
  }

  /** Tool results and assistant messages with tool calls are an agent's own work. */
  predicate IsPrivate(m: Message) {
    m.role == Tool || HasCalls(m)
  }

  predicate AllPublic(log: seq<Message>) {
    forall m <- log :: !IsPrivate(m)
  }

  lemma NarrativeSnoc(log: seq<Message>, m: Message)
    requires AllPublic(log)
    ensures AllPublic(log + [m]) <==> !IsPrivate(m)
  {
    assert m in log + [m];
  }

  /** The log of all partitions together, in the order in which the messages were stored. */
  function TeamLog(rows: seq<Row>, keys: seq<string>): seq<Message> {
    if rows == [] then []
    else
      var last := rows[|rows| - 1];
      TeamLog(rows[..|rows| - 1], keys) + if last.session in keys then [last.message] else []
  }

  lemma TeamLogSnoc(rows: seq<Row>, row: Row, keys: seq<string>)
    ensures TeamLog(rows + [row], keys) == TeamLog(rows, keys) + if row.session in keys then [row.message] else []
  {
    assert (rows + [row])[..|rows|] == rows;
  }

  lemma {:induction false} TeamLogIncreasing(rows: seq<Row>, keys: seq<string>, bound: int)
    requires RowsOrdered(rows) && RowsBelow(rows, bound)
    ensures Increasing(TeamLog(rows, keys)) && forall m <- TeamLog(rows, keys) :: m.index < bound
  {
    if rows != [] {
      var init, last := rows[..|rows| - 1], rows[|rows| - 1];
      assert forall i :: 0 <= i < |init| ==> rows[i].message.index < rows[|rows| - 1].message.index;
      TeamLogIncreasing(init, keys, last.message.index);
      IncreasingSnoc(TeamLog(init, keys), last.message);
      assert TeamLog(init, keys) + [] == TeamLog(init, keys);
    }
  }

  lemma IncreasingSnoc(ms: seq<Message>, m: Message)
    requires Increasing(ms) && forall x <- ms :: x.index < m.index
    ensures Increasing(ms + [m])
  {
  }

  /** The message d places from the end of a partition is at least d places from the end of the whole log. */
  lemma {:induction false} PositionInTeamLog(rows: seq<Row>, keys: seq<string>, key: string, d: nat) returns (e: nat)
    requires key in keys && d < |LogOf(rows, key)|
    ensures d <= e < |TeamLog(rows, keys)|
    ensures TeamLog(rows, keys)[|TeamLog(rows, keys)| - 1 - e] == LogOf(rows, key)[|LogOf(rows, key)| - 1 - d]
  {
    var init, last := rows[..|rows| - 1], rows[|rows| - 1];
    if last.session == key {
      if d == 0 {
        e := 0;
      } else {
        e := PositionInTeamLog(init, keys, key, d - 1);
        e := e + 1;
      }
    } else {
      e := PositionInTeamLog(init, keys, key, d);
      e := if last.session in keys then e + 1 else e;
    }
  }

  /** Every message of the log is in the partition of some key. */
  lemma {:induction false} PartitionOf(rows: seq<Row>, keys: seq<string>, i: nat) returns (k: nat)
    requires i < |TeamLog(rows, keys)|
    ensures k < |keys| && TeamLog(rows, keys)[i] in LogOf(rows, keys[k])
  {
    var init, last := rows[..|rows| - 1], rows[|rows| - 1];
    if i < |TeamLog(init, keys)| {
      k := PartitionOf(init, keys, i);
    } else {
      k :| 0 <= k < |keys| && keys[k] == last.session;
      assert LogOf(rows, last.session)[|LogOf(rows, last.session)| - 1] == last.message;
    }
  }

  /** Partitions of different keys have no message in common, as every row has its own id. */
  lemma {:induction false} PartitionsDisjoint(rows: seq<Row>, a: string, b: string, bound: int)
    requires RowsOrdered(rows) && RowsBelow(rows, bound) && a != b
    ensures forall m <- LogOf(rows, a) :: m !in LogOf(rows, b) && m.index < bound
    ensures forall m <- LogOf(rows, b) :: m.index < bound
  {
    if rows != [] {
      var init, last := rows[..|rows| - 1], rows[|rows| - 1];
      assert forall i :: 0 <= i < |init| ==> rows[i].message.index < rows[|rows| - 1].message.index;
      PartitionsDisjoint(init, a, b, last.message.index);
    }
  }

  // ----- merging -----

  predicate Sorted(ms: seq<Message>) {
    forall i, j :: 0 <= i < j < |ms| ==> ms[i].index <= ms[j].index
  }

  /** Sorts by insertion index. */
  method SortByIndex(msgs: seq<Message>) returns (r: seq<Message>)
    ensures multiset(r) == multiset(msgs) && Sorted(r)
  {
    hide Sorted;
    r := [];
    NothingSorted();
    for i := 0 to |msgs|
      invariant multiset(r) == multiset(msgs[..i]) && Sorted(r)
    {
      assert msgs[..i + 1] == msgs[..i] + [msgs[i]];
      r := InsertByIndex(r, msgs[i]);
    }
    assert msgs[..|msgs|] == msgs;
  }

  lemma NothingSorted()
    ensures Sorted([])
  {
  }

  method InsertByIndex(s: seq<Message>, m: Message) returns (r: seq<Message>)
    requires Sorted(s)
    ensures multiset(r) == multiset(s) + multiset{m} && Sorted(r)
  {
    hide Sorted;
    var k := 0;
    while k < |s| && s[k].index <= m.index
      invariant k <= |s|
      invariant forall x :: 0 <= x < k ==> s[x].index <= m.index
    {
      k := k + 1;
    }
    r := s[..k] + [m] + s[k..];
    assert s == s[..k] + s[k..];
    InsertSorted(s, k, m);
  }

  lemma InsertSorted(r: seq<Message>, k: nat, m: Message)
    requires Sorted(r) && k <= |r| && (forall x :: 0 <= x < k ==> r[x].index <= m.index)
    requires k < |r| ==> m.index < r[k].index
    ensures Sorted(r[..k] + [m] + r[k..])
  {
  }

  function Tail(ms: seq<Message>, n: nat): seq<Message> {
    if |ms| <= n then ms else ms[|ms| - n..]
  }

  /** A chosen list of messages of an increasing log that holds its newest n. */
  ghost predicate Covers(msgs: seq<Message>, log: seq<Message>, n: nat) {
    Distinct(msgs) && (forall m <- msgs :: m in log) && (forall m <- Tail(log, n) :: m in msgs)
  }

  lemma SortedCovers(msgs: seq<Message>, sorted: seq<Message>, log: seq<Message>, n: nat)
    requires Covers(msgs, log, n) && Increasing(log) && multiset(sorted) == multiset(msgs) && Sorted(sorted)
    ensures Increasing(sorted) && Covers(sorted, log, n)
  {
    forall m: Message ensures m in sorted <==> m in msgs {
      assert m in sorted <==> m in multiset(sorted);
      assert m in msgs <==> m in multiset(msgs);
    }
    OneEach(msgs);
    forall i, j | 0 <= i < j < |sorted| ensures sorted[i].index < sorted[j].index && sorted[i] != sorted[j] {
      if sorted[i] == sorted[j] {
        Twice(sorted, i, j);
      }
      assert sorted[i] in log && sorted[j] in log;
    }
  }

  lemma {:induction false} OneEach(ms: seq<Message>)
    requires Distinct(ms)
    ensures forall m: Message :: multiset(ms)[m] <= 1
  {
    if ms != [] {
      var init, last := ms[..|ms| - 1], ms[|ms| - 1];
      OneEach(init);
      assert ms == init + [last];
      assert last !in init;
    }
  }

  lemma Twice(ms: seq<Message>, i: nat, j: nat)
    requires i < j < |ms| && ms[i] == ms[j]
    ensures multiset(ms)[ms[i]] >= 2
  {
    assert ms == ms[..j] + [ms[j]] + ms[j + 1..];
    assert ms[i] in ms[..j];
  }

  /** Sorted by index, a list that covers the newest n messages of the log ends with them. */
  lemma {:induction false} CoverEndsWithTail(sorted: seq<Message>, log: seq<Message>, n: nat)
    requires Increasing(sorted) && Increasing(log) && Covers(sorted, log, n)
    ensures EndsWithTail(sorted, log, n)
    decreases n
  {
    hide Covers, Increasing, EndsWithTail, Tail;
    if n == 0 || log == [] {
      NothingCovered(sorted, log, n);
    } else {
      LastOfCover(sorted, log, n);
      InitIncreasing(sorted);
      InitIncreasing(log);
      CoverOfInit(sorted, log, n);
      var shorter, older, last := sorted[..|sorted| - 1], log[..|log| - 1], log[|log| - 1];
      CoverEndsWithTail(shorter, older, n - 1);
      EndsWithTailSnoc(shorter, older, n - 1, last);
      assert sorted == shorter + [last] && log == older + [last];
    }
  }

  lemma NothingCovered(sorted: seq<Message>, log: seq<Message>, n: nat)
    requires Covers(sorted, log, n) && (n == 0 || log == [])
    ensures EndsWithTail(sorted, log, n)
  {
    hide EndsWithTail, Distinct;
    SomeMember(sorted, log);
    NothingToEndWith(sorted, log, n);
  }

  lemma NothingToEndWith(msgs: seq<Message>, log: seq<Message>, n: nat)
    requires (n == 0 || log == []) && (log == [] ==> msgs == [])
    ensures EndsWithTail(msgs, log, n)
  {
  }

  lemma SomeMember(msgs: seq<Message>, log: seq<Message>)
    requires forall m <- msgs :: m in log
    ensures msgs != [] ==> log != []
  {
    if msgs != [] {
      assert msgs[0] in log;
    }
  }

  /** The list ends with the newest n messages of the log, and is the log if there are no more. */
  predicate EndsWithTail(msgs: seq<Message>, log: seq<Message>, n: nat) {
    var t := |Tail(log, n)|;
    t <= |msgs| && msgs[|msgs| - t..] == Tail(log, n) && (|log| <= n ==> msgs == log)
  }

  lemma EndsWithTailSnoc(msgs: seq<Message>, log: seq<Message>, n: nat, m: Message)
    requires EndsWithTail(msgs, log, n)
    ensures EndsWithTail(msgs + [m], log + [m], n + 1)
  {
    var t := |Tail(log, n)|;
    assert Tail(log + [m], n + 1) == Tail(log, n) + [m];
    assert (msgs + [m])[|msgs| + 1 - (t + 1)..] == msgs[|msgs| - t..] + [m];
  }

  lemma InitIncreasing(ms: seq<Message>)
    requires Increasing(ms) && ms != []
    ensures Increasing(ms[..|ms| - 1])
  {
  }

  lemma LastOfCover(sorted: seq<Message>, log: seq<Message>, n: nat)
    requires Increasing(sorted) && Increasing(log) && Covers(sorted, log, n) && n > 0 && log != []
    ensures sorted != [] && sorted[|sorted| - 1] == log[|log| - 1]
  {
    var last := log[|log| - 1];
    assert Tail(log, n)[|Tail(log, n)| - 1] == last;
    assert last in Tail(log, n);
    var k :| 0 <= k < |sorted| && sorted[k] == last;
    var l := |sorted| - 1;
    assert sorted[l] in log;
  }

  lemma CoverOfInit(sorted: seq<Message>, log: seq<Message>, n: nat)
    requires Increasing(sorted) && Increasing(log) && Covers(sorted, log, n) && n > 0 && log != []
    requires sorted != [] && sorted[|sorted| - 1] == log[|log| - 1]
    ensures Covers(sorted[..|sorted| - 1], log[..|log| - 1], n - 1)
  {
    hide Tail;
    var shorter, older := sorted[..|sorted| - 1], log[..|log| - 1];
    forall m | m in shorter ensures m in older {
      InitMembers(sorted, m);
      InitMembers(log, m);
    }
    forall m | m in Tail(older, n - 1) ensures m in shorter {
      TailOfInit(log, n, m);
      InitMembers(sorted, m);
    }
    assert Distinct(shorter);
  }

  /** Leaving out the last message of an increasing list. */
  lemma InitMembers(ms: seq<Message>, m: Message)
    requires Increasing(ms) && ms != []
    ensures m in ms[..|ms| - 1] <==> m in ms && m != ms[|ms| - 1]
  {
    var init := ms[..|ms| - 1];
    assert ms == init + [ms[|ms| - 1]];
    if m in init {
      var i :| 0 <= i < |init| && init[i] == m;
      assert ms[i].index < ms[|ms| - 1].index;
    }
  }

  lemma TailOfInit(log: seq<Message>, n: nat, m: Message)
    requires Increasing(log) && log != [] && n > 0
    ensures m in Tail(log[..|log| - 1], n - 1) <==> m in Tail(log, n) && m != log[|log| - 1]
  {
    var t := Tail(log, n);
    assert Tail(log[..|log| - 1], n - 1) == t[..|t| - 1];
    InitMembers(t, m);
  }

  /** The store's answer for the newest n messages of every partition is exact. */
  ghost predicate PartitionsExact(rows: seq<Row>, keys: seq<string>, n: nat) {
    forall key <- keys :: Windowed(LogOf(rows, key), n, 0) == Page(LogOf(rows, key), n, 0)
  }

  /** What an agent sees of the narrative and its own work: its own page first of all. */
  function AgentView(shared: seq<Message>, own: seq<Message>, n: nat, offset: nat): seq<Message> {
    var page := Windowed(own, n, offset);
    if n < |page| || n == 0 then [] else Tail(Windowed(shared, n, offset), n - |page|) + page
  }

  /** With the partitions routed as they are, an agent whose own tool results come in short runs sees its simple page
      as a whole, at the end, and before it the newest of the narrative's simple page; nothing is left out iff the two
      pages fit together. */
  lemma OwnWorkFirst(shared: seq<Message>, own: seq<Message>, n: nat, offset: nat)
    requires n > 0 && AllPublic(shared) && ShortToolRuns(own, n)
    ensures var r := AgentView(shared, own, n, offset);
            var page, narrative := Page(own, n, offset), Page(shared, n, offset);
            && |page| <= |r| <= n && r[|r| - |page|..] == page && |r| - |page| <= |narrative|
            && r[..|r| - |page|] == narrative[|narrative| - (|r| - |page|)..]
            && (r == narrative + page <==> |narrative| + |page| <= n)
  {
    hide Windowed, ShortToolRuns, AllPublic, Page, Tail;
    NarrativeRunsShort(shared, n);
    WindowedExact(own, n, offset);
    WindowedExact(shared, n, offset);
    WindowedFits(own, n, offset);
    PageBehindTail(Page(shared, n, offset), Page(own, n, offset), n);
  }

  lemma PageBehindTail(narrative: seq<Message>, page: seq<Message>, n: nat)
    requires |page| <= n
    ensures var r := Tail(narrative, n - |page|) + page;
            && |page| <= |r| <= n && r[|r| - |page|..] == page && |r| - |page| <= |narrative|
            && r[..|r| - |page|] == narrative[|narrative| - (|r| - |page|)..]
            && (r == narrative + page <==> |narrative| + |page| <= n)
  {
    var t := Tail(narrative, n - |page|);
    assert (t + page)[|t|..] == page && (t + page)[..|t|] == t;
    if |narrative| + |page| > n {
      assert |t + page| < |narrative + page|;
    }
  }

  lemma WindowedFits(log: seq<Message>, n: nat, offset: nat)
    requires n > 0
    ensures |Windowed(log, n, offset)| <= n
  {
  }

  class TeamSession {
    const id: string
    const mem: SqliteMemory
    var agents: seq<string>

    constructor (id: string, mem: SqliteMemory, agents: seq<string>)
      ensures this.id == id && this.mem == mem && this.agents == agents
    {
      this.id, this.mem, this.agents := id, mem, agents;
    }

    ghost function Log(): seq<Message>
      reads this`agents, mem`rows
    {
      TeamLog(mem.rows, Keys(id, agents))
    }

    /** The shared partition holds no tool traffic. */
    predicate Narrative()
      reads mem`rows
    {
      AllPublic(LogOf(mem.rows, id))
    }

    /** Stores a message for an agent: its own work privately, everything else in the shared partition. Either way the
        team log grows by exactly this message. */
    method Append(agent: string, msg: Message)
      requires mem.Valid() && agent in agents
      modifies mem`rows, mem`nextId
      ensures mem.Valid()
      ensures Log() == old(Log()) + [msg.(index := old(mem.nextId))]
      ensures forall key :: key != (if IsPrivate(msg) then PrivateKey(id, agent) else id) ==> LogOf(mem.rows, key) == old(LogOf(mem.rows, key))
      ensures old(Narrative()) ==> Narrative()
    {
      hide LogOf, TeamLog, Keys, Distinct;
      ghost var rows := mem.rows;
      var key := id;
      if msg.role == Tool {
        key := PrivateKey(id, agent);
      } else if msg.role == Assistant && |msg.toolCalls| > 0 {
        key := PrivateKey(id, agent);
      }
      ghost var stored := Row(key, msg.(index := mem.nextId));
      mem.Append(key, msg);
      KeysHold(id, agents, agent);
      TeamLogSnoc(rows, stored, Keys(id, agents));
      forall other: string {
        LogOfSnoc(rows, stored, other);
      }
      if AllPublic(LogOf(rows, id)) {
        NarrativeSnoc(LogOf(rows, id), stored.message);
      }
    }

    /** Registers an agent; names are unique. */
    method AddAgent(name: string) returns (ok: bool)
      modifies this`agents
      ensures ok <==> name !in old(agents)
      ensures agents == if ok then old(agents) + [name] else old(agents)
      ensures old(Distinct(agents)) ==> Distinct(agents)
    {
      ok := name !in agents;
      if ok {
        agents := agents + [name];
      }
    }

    method Count(agent: string) returns (n: nat)
      ensures n == |LogOf(mem.rows, id)| + |LogOf(mem.rows, PrivateKey(id, agent))|
    {
      var shared := mem.Count(id);
      var priv := mem.Count(PrivateKey(id, agent));
      n := shared + priv;
    }

    /** The memory one agent sees, at most n messages: its own page as a whole, and before it as much of the newest
        narrative as there is still room for. */
    method Recent(agent: string, n: nat, offset: nat) returns (r: seq<Message>)
      ensures |r| <= n
      ensures r == AgentView(LogOf(mem.rows, id), LogOf(mem.rows, PrivateKey(id, agent)), n, offset)
    {
      hide Windowed, LogOf;
      var shared := mem.Recent(id, n, offset);
      var priv := mem.Recent(PrivateKey(id, agent), n, offset);
      r := shared + priv;
      if |r| > n {
        r := r[|r| - n..];
      }
      if n > 0 {
        WindowedFits(LogOf(mem.rows, PrivateKey(id, agent)), n, offset);
      }
    }

    /** One page of the session's history, counted from the newest message: the newest limit + before of each partition
        are merged by index, and the page is cut out of the result. */
    method ListMessages(limitParam: Option<int>, beforeParam: Option<int>) returns (msgs: seq<Message>)
      requires mem.Valid()
      ensures var limit := Clamped(limitParam, 50, 1, 200); var before := Clamped(beforeParam, 0, 0, 100000);
              Distinct(agents) && PartitionsExact(mem.rows, Keys(id, agents), limit + before)
              ==> msgs == Page(Log(), limit, before)
      // whether or not the partitions are exact, the answer is that page of what they return, in the order of the indices
      ensures var limit := Clamped(limitParam, 50, 1, 200); var before := Clamped(beforeParam, 0, 0, 100000);
              exists sorted: seq<Message> {:trigger Sorted(sorted)} ::
                Sorted(sorted) && multiset(sorted) == multiset(Gathered(mem.rows, Keys(id, agents), limit + before)) &&
                msgs == Page(sorted, limit, before)
    {
      hide Windowed, Page, LogOf, TeamLog, Covers, PartitionsExact, Gathered, Sorted, Merged;
      var limit: nat := ParseIntParam(limitParam, 50, 1, 200);
      var before: nat := ParseIntParam(beforeParam, 0, 0, 100000);
      var n := limit + before;
      ghost var keys := Keys(id, agents);
      ghost var exact := Distinct(agents) && PartitionsExact(mem.rows, keys, n);
      msgs := Gather(n);
      ghost var merged := msgs;
      msgs := SortByIndex(msgs);
      if exact {
        MergedTail(merged, msgs, mem.rows, keys, n, mem.nextId);
      }
      msgs := CutPage(msgs, Log(), limit, before, exact);
    }

    /** Asks every partition for its newest n messages. */
    method Gather(n: nat) returns (msgs: seq<Message>)
      requires mem.Valid()
      ensures msgs == Gathered(mem.rows, Keys(id, agents), n)
      ensures Distinct(agents) && PartitionsExact(mem.rows, Keys(id, agents), n) ==>
                Merged(msgs, mem.rows, Keys(id, agents), |agents| + 1, n)
    {
      hide Windowed, LogOf, TeamLog, PartitionsExact, Gathered, Merged, Distinct, RowsOrdered, RowsBelow, Tail;
      ghost var keys := Keys(id, agents);
      ghost var exact := Distinct(agents) && PartitionsExact(mem.rows, keys, n);
      msgs := mem.Recent(id, n, 0);
      GatheredFirst(mem.rows, keys, n);
      if exact {
        KeysDistinct(id, agents);
        ExactAt(mem.rows, keys, n, 0);
        MergeFirst(mem.rows, keys, n, mem.nextId);
      }
      for i := 0 to |agents|
        invariant exact ==> Merged(msgs, mem.rows, keys, i + 1, n)
        invariant msgs == Gathered(mem.rows, keys[..i + 1], n)
      {
        var priv := mem.Recent(PrivateKey(id, agents[i]), n, 0);
        if exact {
          ExactAt(mem.rows, keys, n, i + 1);
          MergeNext(msgs, mem.rows, keys, i + 1, n, mem.nextId);
        }
        msgs := msgs + priv;
        GatheredSnoc(mem.rows, keys, i + 1, n);
      }
      assert keys[..|agents| + 1] == keys;
    }

    /** Unregisters an agent and deletes its private partition. The log of what remains is the old log of the remaining
        partitions. */
    method RemoveAgent(name: string)
      requires mem.Valid()
      modifies this`agents, mem
      ensures mem.Valid() && name !in agents
      ensures old(Distinct(agents)) ==> Distinct(agents)
      ensures Log() == TeamLog(old(mem.rows), Keys(id, agents))
      ensures forall a :: a in agents <==> a in old(agents) && a != name
    {
      hide LogOf, TeamLog, Without, Keys, RowsOrdered, RowsBelow;
      var filtered: seq<string> := [];
      var names := agents;
      ghost var rows := mem.rows;
      for i := 0 to |names|
        invariant mem.Valid() && name !in filtered
        invariant mem.rows == rows || mem.rows == Without(rows, PrivateKey(id, name))
        invariant Distinct(names) ==> Distinct(filtered)
        invariant forall a :: a in filtered <==> a in names[..i] && a != name
      {
        assert names[..i + 1] == names[..i] + [names[i]];
        if names[i] == name {
          WithoutTwice(rows, PrivateKey(id, name));
          mem.DeleteSession(PrivateKey(id, names[i]));
        } else {
          NewName(names, i);
          filtered := filtered + [names[i]];
        }
      }
      assert names[..|names|] == names;
      agents := filtered;
      KeysAvoid(id, agents, name);
      TeamLogWithout(rows, PrivateKey(id, name), Keys(id, agents));
    }
  }

  lemma NewName(names: seq<string>, i: nat)
    requires i < |names|
    ensures Distinct(names) ==> names[i] !in names[..i]
  {
  }

  function Clamped(param: Option<int>, default: int, min: int, max: int): (r: int)
    requires min <= default <= max
    ensures min <= r <= max
  {
    if param.None? then default else if param.value < min then min else if param.value > max then max else param.value
  }

  /** A query parameter: the default when it is missing or not a number, clamped otherwise. */
  method ParseIntParam(param: Option<int>, default: int, min: int, max: int) returns (n: int)
    requires min <= default <= max
    ensures n == Clamped(param, default, min, max)
  {
    match param
    case None =>
      n := default;
    case Some(value) =>
      n := value;
      if n < min {
        n := min;
      }
      if n > max {
        n := max;
      }
  }

  /** Cuts a page out of a list that ends with the newest limit + before messages of the log. */
  method CutPage(sorted: seq<Message>, ghost log: seq<Message>, limit: nat, before: nat, ghost exact: bool) returns (msgs: seq<Message>)
    requires limit > 0
    requires exact ==> EndsWithTail(sorted, log, limit + before)
    ensures exact ==> msgs == Page(log, limit, before)
    ensures msgs == Page(sorted, limit, before)
  {
    msgs := sorted;
    if before > 0 && |msgs| > before {
      msgs := msgs[..|msgs| - before];
    } else if before > 0 {
      msgs := [];
    }
    if |msgs| > limit {
      msgs := msgs[|msgs| - limit..];
    }
    if exact {
      PageOfTail(sorted, log, limit, before);
    }
  }

  lemma PageOfTail(sorted: seq<Message>, log: seq<Message>, limit: nat, before: nat)
    requires limit > 0 && EndsWithTail(sorted, log, limit + before)
    ensures Page(sorted, limit, before) == Page(log, limit, before)
  {
    var n := limit + before;
    if |log| > n {
      var k := |sorted| - n;
      assert Page(sorted, limit, before) == sorted[k..][..limit];
      assert Page(log, limit, before) == log[|log| - n..][..limit];
    }
  }

  // ----- the merge step by step -----

  /** What the partitions answer when each is asked for its newest n messages. */
  function Gathered(rows: seq<Row>, keys: seq<string>, n: nat): seq<Message> {
    if keys == [] then []
    else Gathered(rows, keys[..|keys| - 1], n) + Windowed(LogOf(rows, keys[|keys| - 1]), n, 0)
  }

  lemma GatheredFirst(rows: seq<Row>, keys: seq<string>, n: nat)
    requires keys != []
    ensures Gathered(rows, keys[..1], n) == Windowed(LogOf(rows, keys[0]), n, 0)
  {
    hide Windowed, LogOf;
    assert keys[..1][..0] == [] && Gathered(rows, [], n) == [];
  }

  lemma GatheredSnoc(rows: seq<Row>, keys: seq<string>, k: nat, n: nat)
    requires k < |keys|
    ensures Gathered(rows, keys[..k + 1], n) == Gathered(rows, keys[..k], n) + Windowed(LogOf(rows, keys[k]), n, 0)
  {
    hide Windowed, LogOf;
    assert keys[..k + 1][..k] == keys[..k];
  }

  ghost predicate InTails(m: Message, rows: seq<Row>, keys: seq<string>, done: nat, n: nat)
    requires done <= |keys|
  {
    exists k :: 0 <= k < done && m in Tail(LogOf(rows, keys[k]), n)
  }

  /** The newest n messages of the first `done` partitions. */
  ghost predicate Merged(msgs: seq<Message>, rows: seq<Row>, keys: seq<string>, done: nat, n: nat) {
    && done <= |keys| && Distinct(msgs)
    && forall m: Message :: m in msgs <==> InTails(m, rows, keys, done, n)
  }

  lemma ExactAt(rows: seq<Row>, keys: seq<string>, n: nat, k: nat)
    requires PartitionsExact(rows, keys, n) && k < |keys|
    ensures Windowed(LogOf(rows, keys[k]), n, 0) == Tail(LogOf(rows, keys[k]), n)
  {
    assert keys[k] in keys;
  }

  lemma TailDistinct(rows: seq<Row>, key: string, n: nat, bound: int)
    requires RowsOrdered(rows) && RowsBelow(rows, bound)
    ensures Distinct(Tail(LogOf(rows, key), n))
  {
    PartitionIncreasing(rows, key, bound);
  }

  lemma {:induction false} PartitionIncreasing(rows: seq<Row>, key: string, bound: int)
    requires RowsOrdered(rows) && RowsBelow(rows, bound)
    ensures Increasing(LogOf(rows, key)) && forall m <- LogOf(rows, key) :: m.index < bound
  {
    if rows != [] {
      var init, last := rows[..|rows| - 1], rows[|rows| - 1];
      assert forall i :: 0 <= i < |init| ==> rows[i].message.index < rows[|rows| - 1].message.index;
      PartitionIncreasing(init, key, last.message.index);
      IncreasingSnoc(LogOf(init, key), last.message);
      assert LogOf(init, key) + [] == LogOf(init, key);
    }
  }

  lemma MergeFirst(rows: seq<Row>, keys: seq<string>, n: nat, bound: int)
    requires RowsOrdered(rows) && RowsBelow(rows, bound) && keys != []
    ensures Merged(Tail(LogOf(rows, keys[0]), n), rows, keys, 1, n)
  {
    hide LogOf, Tail;
    TailDistinct(rows, keys[0], n, bound);
    assert forall m: Message :: InTails(m, rows, keys, 1, n) <==> m in Tail(LogOf(rows, keys[0]), n);
  }

  lemma MergeNext(msgs: seq<Message>, rows: seq<Row>, keys: seq<string>, done: nat, n: nat, bound: int)
    requires Merged(msgs, rows, keys, done, n) && done < |keys| && Distinct(keys)
    requires RowsOrdered(rows) && RowsBelow(rows, bound)
    ensures Merged(msgs + Tail(LogOf(rows, keys[done]), n), rows, keys, done + 1, n)
  {
    hide LogOf, RowsOrdered, RowsBelow, Tail, InTails;
    var priv := Tail(LogOf(rows, keys[done]), n);
    TailDistinct(rows, keys[done], n, bound);
    forall m | m in msgs ensures m !in priv {
      TailsApart(m, rows, keys, done, n, bound);
    }
    forall m: Message ensures InTails(m, rows, keys, done + 1, n) <==> InTails(m, rows, keys, done, n) || m in priv {
      OneMoreTail(m, rows, keys, done, n);
    }
    ConcatDistinct(msgs, priv);
  }

  lemma ConcatDistinct(a: seq<Message>, b: seq<Message>)
    requires Distinct(a) && Distinct(b) && forall m <- a :: m !in b
    ensures Distinct(a + b) && forall m: Message :: m in a + b <==> m in a || m in b
  {
    var c := a + b;
    forall i, j | 0 <= i < j < |c| ensures c[i] != c[j] {
      if i < |a| <= j {
        assert a[i] in a && b[j - |a|] in b;
      }
    }
  }

  lemma OneMoreTail(m: Message, rows: seq<Row>, keys: seq<string>, done: nat, n: nat)
    requires done < |keys|
    ensures InTails(m, rows, keys, done + 1, n) <==> InTails(m, rows, keys, done, n) || m in Tail(LogOf(rows, keys[done]), n)
  {
    hide LogOf, Tail;
  }

  lemma TailsApart(m: Message, rows: seq<Row>, keys: seq<string>, done: nat, n: nat, bound: int)
    requires done < |keys| && Distinct(keys) && InTails(m, rows, keys, done, n)
    requires RowsOrdered(rows) && RowsBelow(rows, bound)
    ensures m !in Tail(LogOf(rows, keys[done]), n)
  {
    hide LogOf, RowsOrdered, RowsBelow;
    var k :| 0 <= k < done && m in Tail(LogOf(rows, keys[k]), n);
    PartitionsDisjoint(rows, keys[k], keys[done], bound);
  }

  /** Merged and sorted, the newest n messages of all partitions end with the newest n of the team log. */
  lemma MergedTail(merged: seq<Message>, sorted: seq<Message>, rows: seq<Row>, keys: seq<string>, n: nat, bound: int)
    requires Merged(merged, rows, keys, |keys|, n) && RowsOrdered(rows) && RowsBelow(rows, bound)
    requires multiset(sorted) == multiset(merged) && Sorted(sorted)
    ensures EndsWithTail(sorted, TeamLog(rows, keys), n)
  {
    hide LogOf, TeamLog, Tail, EndsWithTail, Increasing, InTails, Distinct, Sorted, RowsOrdered, RowsBelow;
    var log := TeamLog(rows, keys);
    TeamLogIncreasing(rows, keys, bound);
    forall m | m in merged ensures m in log {
      TailsInLog(m, rows, keys, n);
    }
    forall m | m in Tail(log, n) ensures m in merged {
      TailInPartition(rows, keys, n, m, bound);
    }
    SortedCovers(merged, sorted, log, n);
    CoverEndsWithTail(sorted, log, n);
  }

  lemma TailsInLog(m: Message, rows: seq<Row>, keys: seq<string>, n: nat)
    requires InTails(m, rows, keys, |keys|, n)
    ensures m in TeamLog(rows, keys)
  {
    hide LogOf, TeamLog, Tail;
    var k :| 0 <= k < |keys| && m in Tail(LogOf(rows, keys[k]), n);
    var i := TailPosition(LogOf(rows, keys[k]), n, m);
    var e := PositionInTeamLog(rows, keys, keys[k], |LogOf(rows, keys[k])| - 1 - i);
  }

  /** A message among the newest n of the log is among the newest n of its partition. */
  lemma TailInPartition(rows: seq<Row>, keys: seq<string>, n: nat, m: Message, bound: int)
    requires RowsOrdered(rows) && RowsBelow(rows, bound) && m in Tail(TeamLog(rows, keys), n)
    ensures InTails(m, rows, keys, |keys|, n)
  {
    hide LogOf, TeamLog, RowsOrdered, RowsBelow, Tail;
    var log := TeamLog(rows, keys);
    TeamLogIncreasing(rows, keys, bound);
    var at := TailPosition(log, n, m);
    var k := PartitionOf(rows, keys, at);
    var part := LogOf(rows, keys[k]);
    var j :| 0 <= j < |part| && part[j] == m;
    var e := PositionInTeamLog(rows, keys, keys[k], |part| - 1 - j);
    Injective(log, |log| - 1 - e, at);
    TailHolds(part, n, j);
  }

  lemma TailPosition(log: seq<Message>, n: nat, m: Message) returns (at: nat)
    requires m in Tail(log, n)
    ensures |log| - n <= at < |log| && log[at] == m
  {
    var i :| 0 <= i < |Tail(log, n)| && Tail(log, n)[i] == m;
    at := |log| - |Tail(log, n)| + i;
  }

  lemma TailHolds(log: seq<Message>, n: nat, j: nat)
    requires j < |log| && |log| - n <= j
    ensures log[j] in Tail(log, n)
  {
    assert Tail(log, n)[j - (|log| - |Tail(log, n)|)] == log[j];
  }

  lemma Injective(log: seq<Message>, i: nat, j: nat)
    requires Increasing(log) && i < |log| && j < |log| && log[i] == log[j]
    ensures i == j
  {
  }

  // ----- conditions for exact partitions -----

  /** Short runs of tool results in the partitions are enough for an exact history. */
  lemma ShortRunsAreExact(rows: seq<Row>, keys: seq<string>, n: nat)
    requires n > 0 && forall key <- keys :: ShortToolRuns(LogOf(rows, key), n)
    ensures PartitionsExact(rows, keys, n)
  {
    forall key | key in keys ensures Windowed(LogOf(rows, key), n, 0) == Page(LogOf(rows, key), n, 0) {
      WindowedExact(LogOf(rows, key), n, 0);
    }
  }

  lemma NotTools(log: seq<Message>, i: nat, j: nat)
    requires AllPublic(log) && i < j <= |log|
    ensures !ToolRun(log, i, j)
  {
    assert log[i] in log;
  }

  /** A partition without tool traffic, like the shared one, has no such runs. */
  lemma NarrativeRunsShort(log: seq<Message>, n: nat)
    requires AllPublic(log)
    ensures ShortToolRuns(log, n)
  {
    assert log != [] ==> log[0] in log;
    forall i, j | 0 <= i < j <= |log| ensures !ToolRun(log, i, j) {
      NotTools(log, i, j);
    }
  }

  /** The file store numbers every partition from 1, so there the merged history is out of order: a tool call stored
      after a question and its follow-up cannot be listed last. */
  lemma PartitionCountersDisorder(question: Message, followUp: Message, toolCall: Message, listed: seq<Message>)
    requires Sorted(listed)
    ensures var empty := Session([], 0, None, []);
            var shared := Appended(Appended(empty, question), followUp).log;
            var private := Appended(empty, toolCall).log;
            listed != [shared[0], shared[1], private[0]]
  {
    var empty := Session([], 0, None, []);
    var shared := Appended(Appended(empty, question), followUp).log;
    var private := Appended(empty, toolCall).log;
    assert shared[1].index == 2 && private[0].index == 1;
    if |listed| == 3 {
      assert listed[1].index <= listed[2].index;
    }
  }

  // ----- removing an agent -----

  lemma {:induction false} WithoutTwice(rows: seq<Row>, key: string)
    ensures Without(Without(rows, key), key) == Without(rows, key)
  {
    if rows != [] {
      var init, last := rows[..|rows| - 1], rows[|rows| - 1];
      WithoutTwice(init, key);
      if last.session != key {
        WithoutSnoc(Without(init, key), last, key);
      } else {
        assert Without(rows, key) == Without(init, key);
      }
    }
  }

  lemma KeysAvoid(sid: string, agents: seq<string>, name: string)
    requires name !in agents
    ensures PrivateKey(sid, name) !in Keys(sid, agents)
  {
    var keys := Keys(sid, agents);
    forall i | 0 <= i < |keys| ensures keys[i] != PrivateKey(sid, name) {
      if i > 0 {
        assert keys[i][|sid| + 2..] == agents[i - 1] && PrivateKey(sid, name)[|sid| + 2..] == name;
      }
    }
  }

  lemma {:induction false} TeamLogWithout(rows: seq<Row>, key: string, keys: seq<string>)
    requires key !in keys
    ensures TeamLog(Without(rows, key), keys) == TeamLog(rows, keys)
  {
    if rows != [] {
      var init, last := rows[..|rows| - 1], rows[|rows| - 1];
      TeamLogWithout(init, key, keys);
      if last.session != key {
        TeamLogSnoc(Without(init, key), last, keys);
      } else {
        assert Without(rows, key) == Without(init, key);
      }
    }
  }
}
