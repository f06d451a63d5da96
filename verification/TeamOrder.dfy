/** When a history that is sorted by index shows the messages in the order in which they were stored. */
module TeamOrders {
  import opened Basics
  import opened Messages
  import opened Compaction
  import opened SqliteStore
  import opened TeamHistory

  /** A listing of all messages by index. Sorting is not stable, so messages with one index come in any order. */
  predicate ListsByIndex(listed: seq<Message>, log: seq<Message>) {
    multiset(listed) == multiset(log) && Sorted(listed)
  }

  ghost predicate ShownInOrder(log: seq<Message>) {
    forall listed :: ListsByIndex(listed, log) ==> listed == log
  }

  /** Indices increase, except between messages that are the same in everything. */
  predicate OrderedByIndex(log: seq<Message>) {
    forall i, j :: 0 <= i < j < |log| ==> log[i].index < log[j].index || log[i] == log[j]
  }

  /** The exact condition for every listing by index to show a log in its order. */
  lemma ShownInOrderIff(log: seq<Message>)
    ensures ShownInOrder(log) <==> OrderedByIndex(log)
    ensures Distinct(log) ==> (ShownInOrder(log) <==> Increasing(log))
  {
    hide ListsByIndex, Sorted;
    if OrderedByIndex(log) {
      forall listed | ListsByIndex(listed, log) ensures listed == log {
        OneListing(listed, log);
      }
    } else {
      var listed := AnotherListing(log);
    }
  }

  lemma SameMembers(a: seq<Message>, b: seq<Message>)
    requires multiset(a) == multiset(b)
    ensures |a| == |b| && forall m: Message :: m in a <==> m in b
  {
    assert |a| == |multiset(a)| && |b| == |multiset(b)|;
    forall m: Message ensures m in a <==> m in b {
      assert m in a <==> m in multiset(a);
      assert m in b <==> m in multiset(b);
    }
  }

  lemma {:induction false} OneListing(listed: seq<Message>, log: seq<Message>)
    requires ListsByIndex(listed, log) && OrderedByIndex(log)
    ensures listed == log
    decreases |log|
  {
    SameMembers(listed, log);
    if log != [] {
      var n := |log| - 1;
      LastListed(listed, log, n);
      InitListed(listed, log, n);
      OneListing(listed[..n], log[..n]);
      hide *;
      assert listed == listed[..n] + [listed[n]] && log == log[..n] + [log[n]];
    }
  }

  lemma InitListed(listed: seq<Message>, log: seq<Message>, n: nat)
    requires |listed| == |log| == n + 1 && listed[n] == log[n] && ListsByIndex(listed, log) && OrderedByIndex(log)
    ensures ListsByIndex(listed[..n], log[..n]) && OrderedByIndex(log[..n])
  {
    InitSameMembers(listed, log, n);
  }

  lemma InitSameMembers(a: seq<Message>, b: seq<Message>, n: nat)
    requires |a| == |b| == n + 1 && a[n] == b[n] && multiset(a) == multiset(b)
    ensures multiset(a[..n]) == multiset(b[..n])
  {
    InitMembers(a, n);
    InitMembers(b, n);
  }

  lemma InitMembers(a: seq<Message>, n: nat)
    requires |a| == n + 1
    ensures multiset(a[..n]) == multiset(a) - multiset{a[n]}
  {
    assert a == a[..n] + [a[n]];
  }

  lemma LastListed(listed: seq<Message>, log: seq<Message>, n: nat)
    requires |listed| == |log| == n + 1 && (forall m: Message :: m in listed <==> m in log)
    requires Sorted(listed) && OrderedByIndex(log)
    ensures listed[n] == log[n]
  {
    assert listed[n] in log && log[n] in listed;
    var i :| 0 <= i <= n && log[i] == listed[n];
    var j :| 0 <= j <= n && listed[j] == log[n];
  }

  /** Where two messages are out of order or share an index, some listing differs from the log. */
  lemma AnotherListing(log: seq<Message>) returns (listed: seq<Message>)
    requires !OrderedByIndex(log)
    ensures ListsByIndex(listed, log) && listed != log
  {
    if Sorted(log) {
      var i, j :| 0 <= i < j < |log| && log[i].index >= log[j].index && log[i] != log[j];
      listed := log[i := log[j]][j := log[i]];
      Swapped(log, i, j, listed);
    } else {
      hide Sorted;
      listed := Listing(log);
    }
  }

  lemma Swapped(log: seq<Message>, i: nat, j: nat, listed: seq<Message>)
    requires i < j < |log| && log[i].index == log[j].index && listed == log[i := log[j]][j := log[i]] && Sorted(log)
    ensures ListsByIndex(listed, log)
  {
    assert forall k :: 0 <= k < |log| ==> listed[k].index == log[k].index;
    assert multiset(listed) == multiset(log) by { hide *; }
  }

  lemma {:induction false} Listing(log: seq<Message>) returns (listed: seq<Message>)
    ensures ListsByIndex(listed, log)
  {
    if log == [] {
      listed := [];
    } else {
      hide Sorted;
      var n := |log| - 1;
      var rest := Listing(log[..n]);
      var k := Place(rest, log[n]);
      InsertSorted(rest, k, log[n]);
      listed := rest[..k] + [log[n]] + rest[k..];
      InsertMembers(rest, k, log[n]);
      InitMembers(log, n);
    }
  }

  lemma InsertMembers(s: seq<Message>, k: nat, m: Message)
    requires k <= |s|
    ensures multiset(s[..k] + [m] + s[k..]) == multiset(s) + multiset{m}
  {
    assert s == s[..k] + s[k..];
  }

  lemma {:induction false} Place(s: seq<Message>, m: Message) returns (k: nat)
    requires Sorted(s)
    ensures k <= |s| && (forall x :: 0 <= x < k ==> s[x].index <= m.index)
    ensures k < |s| ==> m.index < s[k].index
  {
    if s == [] || s[|s| - 1].index <= m.index {
      k := |s|;
    } else {
      k := Place(s[..|s| - 1], m);
    }
  }

  // ----- numbering each partition on its own -----

  /** The rows of the listed partitions all belong to one of them. */
  predicate OnePartition(rows: seq<Row>, keys: seq<string>) {
    forall i, j :: 0 <= i < |rows| && 0 <= j < |rows| && rows[i].session in keys && rows[j].session in keys ==>
      rows[i].session == rows[j].session
  }

  /** With partitions that are numbered from one each, as the file store does, the history is in order only as long as
      there is nothing to merge. */
  lemma PartitionCountersIff(rows: seq<Row>, keys: seq<string>)
    requires (forall key <- keys :: Exact(LogOf(rows, key))) && Distinct(TeamLog(rows, keys))
    ensures ShownInOrder(TeamLog(rows, keys)) <==> OnePartition(rows, keys)
  {
    hide *;
    var log := TeamLog(rows, keys);
    ShownInOrderIff(log);
    if OnePartition(rows, keys) {
      SinglePartition(rows, keys);
    } else {
      TwoFirsts(rows, keys);
    }
  }

  lemma SinglePartition(rows: seq<Row>, keys: seq<string>)
    requires (forall key <- keys :: Exact(LogOf(rows, key))) && OnePartition(rows, keys)
    ensures Increasing(TeamLog(rows, keys))
  {
    if i :| 0 <= i < |rows| && rows[i].session in keys {
      LogOfOne(rows, keys, rows[i].session);
    } else {
      LogOfNone(rows, keys);
    }
  }

  lemma {:induction false} LogOfOne(rows: seq<Row>, keys: seq<string>, key: string)
    requires key in keys && forall row <- rows :: row.session in keys ==> row.session == key
    ensures TeamLog(rows, keys) == LogOf(rows, key)
  {
    if rows != [] {
      assert rows[|rows| - 1] in rows;
      LogOfOne(rows[..|rows| - 1], keys, key);
    }
  }

  lemma {:induction false} LogOfNone(rows: seq<Row>, keys: seq<string>)
    requires forall row <- rows :: row.session !in keys
    ensures TeamLog(rows, keys) == []
  {
    if rows != [] {
      assert rows[|rows| - 1] in rows;
      LogOfNone(rows[..|rows| - 1], keys);
    }
  }

  /** Two partitions with messages have two messages numbered one. */
  lemma TwoFirsts(rows: seq<Row>, keys: seq<string>)
    requires (forall key <- keys :: Exact(LogOf(rows, key))) && Distinct(TeamLog(rows, keys)) && !OnePartition(rows, keys)
    ensures !Increasing(TeamLog(rows, keys))
  {
    var i, j :| 0 <= i < |rows| && 0 <= j < |rows| && rows[i].session in keys && rows[j].session in keys &&
      rows[i].session != rows[j].session;
    var a, b := rows[i].session, rows[j].session;
    HasLog(rows, i);
    HasLog(rows, j);
    var u, v := FirstsApart(rows, keys, a, b);
    assert Exact(LogOf(rows, a)) && Exact(LogOf(rows, b));
    hide TeamLog, LogOf;
    var log := TeamLog(rows, keys);
    assert log[u].index == log[v].index == 1;
  }

  lemma {:induction false} HasLog(rows: seq<Row>, i: nat)
    requires i < |rows|
    ensures LogOf(rows, rows[i].session) != []
  {
    if i < |rows| - 1 {
      HasLog(rows[..|rows| - 1], i);
    }
  }

  lemma FirstAt(rows: seq<Row>, keys: seq<string>, key: string) returns (u: nat)
    requires key in keys && LogOf(rows, key) != []
    ensures u < |TeamLog(rows, keys)| && TeamLog(rows, keys)[u] == LogOf(rows, key)[0]
  {
    hide TeamLog, LogOf;
    var e := PositionInTeamLog(rows, keys, key, |LogOf(rows, key)| - 1);
    u := |TeamLog(rows, keys)| - 1 - e;
  }

  lemma {:induction false} FirstsApart(rows: seq<Row>, keys: seq<string>, a: string, b: string) returns (u: nat, v: nat)
    requires a in keys && b in keys && a != b && LogOf(rows, a) != [] && LogOf(rows, b) != []
    ensures u < |TeamLog(rows, keys)| && TeamLog(rows, keys)[u] == LogOf(rows, a)[0]
    ensures v < |TeamLog(rows, keys)| && TeamLog(rows, keys)[v] == LogOf(rows, b)[0]
    ensures u != v
  {
    var init := rows[..|rows| - 1];
    if LogOf(init, a) == [] {
      u := |TeamLog(init, keys)|;
      v := FirstAt(init, keys, b);
    } else if LogOf(init, b) == [] {
      u := FirstAt(init, keys, a);
      v := |TeamLog(init, keys)|;
    } else {
      u, v := FirstsApart(init, keys, a, b);
    }
  }
}
