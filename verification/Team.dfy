/** Teams: the roster of agents, loop detection over handoff chains, and a team run. */
module Teams {
  import opened Basics
  import opened Graphs
  import opened InDegrees

  datatype HandoffEntry = HandoffEntry(source: string, target: string, message: string)

  // ----- chains and what they visit -----

  /** The agents a chain visits, starting with `first`. */
  function Visited(first: string, chain: seq<HandoffEntry>): seq<string> {
    if chain == [] then [first]
    else Visited(first, chain[..|chain| - 1]) + [chain[|chain| - 1].target]
  }

  /** Each handoff comes from the agent the previous one went to. */
  ghost predicate Connected(first: string, chain: seq<HandoffEntry>) {
    && (chain != [] ==> chain[0].source == first)
    && forall i, j :: 0 <= i && j == i + 1 && j < |chain| ==> chain[j].source == chain[i].target
  }

  lemma {:induction false} VisitedTargets(first: string, chain: seq<HandoffEntry>)
    ensures |Visited(first, chain)| == |chain| + 1 && Visited(first, chain)[0] == first
    ensures forall i :: 0 <= i < |chain| ==> Visited(first, chain)[i + 1] == chain[i].target
  {
    if chain != [] {
      VisitedTargets(first, chain[..|chain| - 1]);
    }
  }

  lemma VisitedAt(first: string, chain: seq<HandoffEntry>)
    ensures |Visited(first, chain)| == |chain| + 1 && Visited(first, chain)[0] == first
    ensures forall i :: 0 <= i < |chain| ==> Visited(first, chain)[i + 1] == chain[i].target
    ensures Connected(first, chain) ==> forall i :: 0 <= i < |chain| ==> Visited(first, chain)[i] == chain[i].source
  {
    hide Visited;
    VisitedTargets(first, chain);
    if Connected(first, chain) {
      forall i | 0 <= i < |chain| ensures Visited(first, chain)[i] == chain[i].source {
        if i > 0 {
          var j := i - 1;
          assert Visited(first, chain)[j + 1] == chain[j].target;
          assert chain[i].source == chain[j].target;
        }
      }
    }
  }

  /** All visited agents differ, except that the walk may close by returning to its start. */
  predicate SimplePathOrCycle(v: seq<string>) {
    forall i, j :: 0 <= i < j < |v| && v[i] == v[j] ==> i == 0 && j == |v| - 1
  }

  /** How often an agent takes part in a handoff, as source or target. */
  function Mentions(chain: seq<HandoffEntry>, name: string): nat {
    if chain == [] then 0
    else
      Mentions(chain[..|chain| - 1], name)
      + (if chain[|chain| - 1].source == name then 1 else 0)
      + (if chain[|chain| - 1].target == name then 1 else 0)
  }

  function Is(a: string, b: string): nat {
    if a == b then 1 else 0
  }

  /** Along a connected chain an agent is mentioned twice a visit, but only once at either end. */
  lemma {:induction false} MentionsAreVisits(first: string, chain: seq<HandoffEntry>, name: string)
    requires Connected(first, chain)
    ensures |Visited(first, chain)| == |chain| + 1
    ensures Mentions(chain, name) + Is(first, name) + Is(Visited(first, chain)[|chain|], name)
            == 2 * multiset(Visited(first, chain))[name]
  {
    VisitedAt(first, chain);
    if chain != [] {
      var n := |chain| - 1;
      assert Connected(first, chain[..n]);
      MentionsAreVisits(first, chain[..n], name);
      VisitedAt(first, chain[..n]);
      assert chain[n].source == Visited(first, chain[..n])[n];
    }
  }

  lemma TwoVisits(v: seq<string>, i: nat, j: nat)
    requires i < j < |v| && v[i] == v[j]
    ensures multiset(v)[v[i]] >= 2
  {
    assert v == v[..i] + [v[i]] + v[i + 1..j] + [v[j]] + v[j + 1..];
  }

  lemma ThreeVisits(v: seq<string>, i: nat, j: nat, k: nat)
    requires i < j < k < |v| && v[i] == v[j] == v[k]
    ensures multiset(v)[v[i]] >= 3
  {
    var a, b := v[..j + 1], v[j + 1..];
    TwoVisits(a, i, j);
    assert b[k - (j + 1)] == v[i];
    assert v == a + b && multiset(v) == multiset(a) + multiset(b);
  }

  /** A name that does not repeat is visited once. */
  lemma {:induction false} VisitedOnce(v: seq<string>, name: string)
    requires Distinct(v)
    ensures multiset(v)[name] <= 1
    decreases |v|
  {
    if v != [] {
      var n := |v| - 1;
      VisitedOnce(v[..n], name);
      assert v == v[..n] + [v[n]];
      if v[n] == name { assert name !in v[..n]; }
    }
  }

  /** On a connected chain of at least two handoffs, no agent is mentioned three times exactly if the visited
      agents form a simple path or a simple cycle. */
  lemma FrequencyIffNotSimple(first: string, chain: seq<HandoffEntry>)
    requires Connected(first, chain) && |chain| >= 2
    ensures (forall name :: Mentions(chain, name) < 3) <==> SimplePathOrCycle(Visited(first, chain))
  {
    hide Mentions, Visited, Connected;
    var v := Visited(first, chain);
    VisitedAt(first, chain);
    if SimplePathOrCycle(v) {
      forall name ensures Mentions(chain, name) < 3 {
        MentionsAreVisits(first, chain, name);
        SimpleVisits(v, name);
      }
    } else {
      var name := NotSimpleVisits(v);
      MentionsAreVisits(first, chain, name);
    }
  }

  /** On a simple path or cycle an agent is visited once, or twice as its start and end. */
  lemma SimpleVisits(v: seq<string>, name: string)
    requires SimplePathOrCycle(v) && |v| >= 3
    ensures 2 * multiset(v)[name] < 3 + Is(v[0], name) + Is(v[|v| - 1], name)
  {
    var n := |v| - 1;
    VisitedOnce(v[..n], name);
    assert v == v[..n] + [v[n]];
    if v[n] == name && name in v[..n] {
      var i :| 0 <= i < n && v[i] == name;
    }
  }

  /** Off one, some agent is visited too often. */
  lemma NotSimpleVisits(v: seq<string>) returns (name: string)
    requires !SimplePathOrCycle(v) && |v| >= 3
    ensures 2 * multiset(v)[name] >= 3 + Is(v[0], name) + Is(v[|v| - 1], name)
  {
    var n := |v| - 1;
    var i, j :| 0 <= i < j < |v| && v[i] == v[j] && !(i == 0 && j == n);
    name := v[i];
    TwoVisits(v, i, j);
    if v[0] == name && v[n] == name {
      if i > 0 { ThreeVisits(v, 0, i, j); } else { ThreeVisits(v, 0, j, n); }
    }
  }

  /** The last four handoffs go back and forth between the same two agents. */
  predicate PingPong(chain: seq<HandoffEntry>) {
    var n := |chain|;
    && n >= 4
    && chain[n - 4].source == chain[n - 2].source && chain[n - 4].target == chain[n - 2].target
    && chain[n - 3].source == chain[n - 1].source && chain[n - 3].target == chain[n - 1].target
  }

  /** The ping-pong rule is subsumed by the frequency rule. */
  lemma PingPongIsFrequent(first: string, chain: seq<HandoffEntry>)
    requires Connected(first, chain) && PingPong(chain)
    ensures !SimplePathOrCycle(Visited(first, chain))
  {
    var n := |chain|;
    VisitedAt(first, chain);
    assert Visited(first, chain)[n - 4] == Visited(first, chain)[n - 2];
  }

  datatype Hint = NoHint | PingPongHint | FrequencyHint(name: string, count: nat)

  /** Counts how often each agent takes part in the chain. */
  method CountMentions(chain: seq<HandoffEntry>) returns (counts: map<string, nat>)
    ensures forall name :: Mentions(chain, name) == if name in counts then counts[name] else 0
  {
    counts := map[];
    for n := 0 to |chain|
      invariant forall name :: Mentions(chain[..n], name) == if name in counts then counts[name] else 0
    {
      var e := chain[n];
      assert chain[..n + 1][..n] == chain[..n];
      counts := counts[e.source := 1 + if e.source in counts then counts[e.source] else 0];
      counts := counts[e.target := 1 + if e.target in counts then counts[e.target] else 0];
    }
    assert chain[..|chain|] == chain;
  }

  /** Reports a loop exactly if some agent is mentioned three times; chains of fewer than two are never looked at. */
  method DetectLoop(chain: seq<HandoffEntry>) returns (hint: Hint)
    ensures |chain| < 2 ==> hint == NoHint
    ensures hint.FrequencyHint? ==> hint.count == Mentions(chain, hint.name) && hint.count >= 3
    ensures hint.PingPongHint? <==> PingPong(chain)
    ensures |chain| >= 2 && hint == NoHint ==> !PingPong(chain) && forall name :: Mentions(chain, name) < 3
  {
    if |chain| < 2 {
      return NoHint;
    }
    var n := |chain|;
    if n >= 4 && chain[n - 4].source == chain[n - 2].source && chain[n - 4].target == chain[n - 2].target
       && chain[n - 3].source == chain[n - 1].source && chain[n - 3].target == chain[n - 1].target {
      return PingPongHint;
    }
    var counts := CountMentions(chain);
    var todo := counts.Keys;
    while todo != {}
      invariant todo <= counts.Keys
      invariant forall name :: name in counts && name !in todo ==> counts[name] < 3
      decreases todo
    {
      var name :| name in todo;
      if counts[name] >= 3 {
        return FrequencyHint(name, counts[name]);
      }
      todo := todo - {name};
    }
    hint := NoHint;
  }

  /** What loop detection means: on a connected chain of at least two handoffs there is no hint exactly if the
      visited agents form a simple path or a simple cycle. */
  lemma NoHintIffSimple(first: string, chain: seq<HandoffEntry>, hint: Hint)
    requires Connected(first, chain) && |chain| >= 2
    requires hint.FrequencyHint? ==> hint.count == Mentions(chain, hint.name) && hint.count >= 3
    requires hint.PingPongHint? <==> PingPong(chain)
    requires hint == NoHint ==> forall name :: Mentions(chain, name) < 3
    ensures hint == NoHint <==> SimplePathOrCycle(Visited(first, chain))
  {
    FrequencyIffNotSimple(first, chain);
    if PingPong(chain) { PingPongIsFrequent(first, chain); }
  }

  /** A chain without a loop is no longer than the team is large. */
  lemma UndetectedFits(first: string, chain: seq<HandoffEntry>, roster: set<string>)
    requires |chain| <= 1 || SimplePathOrCycle(Visited(first, chain))
    requires first in roster && forall i :: 0 <= i < |chain| ==> chain[i].target in roster
    ensures |chain| <= |roster|
  {
    var v := Visited(first, chain);
    VisitedAt(first, chain);
    var p := v[..|chain|];
    forall i | 0 <= i < |p| ensures p[i] in roster {
      if i > 0 { assert v[i] == chain[i - 1].target; }
    }
    if |chain| <= 1 {
      assert |roster - {first}| == |roster| - 1;
    } else {
      DistinctFits(p, roster);
    }
  }

  // ----- return handoffs -----

  /** Reports whether `target` has handed off to `source` before. */
  method IsReturnHandoff(chain: seq<HandoffEntry>, source: string, target: string) returns (r: bool)
    ensures r <==> exists i :: 0 <= i < |chain| && chain[i].source == target && chain[i].target == source
  {
    for i := 0 to |chain|
      invariant forall j :: 0 <= j < i ==> !(chain[j].source == target && chain[j].target == source)
    {
      if chain[i].source == target && chain[i].target == source {
        return true;
      }
    }
    r := false;
  }

  /** On a chain without a loop, the last handoff returns to its asker only if it is the second handoff and closes
      a cycle of two: any later return is already reported as a loop. */
  lemma ReturnOnlySecond(first: string, chain: seq<HandoffEntry>)
    requires Connected(first, chain) && |chain| >= 2 && SimplePathOrCycle(Visited(first, chain))
    ensures var n := |chain|;
            (exists i :: 0 <= i < n && chain[i].source == chain[n - 1].target && chain[i].target == chain[n - 1].source)
            <==> n == 2 && chain[1].target == first
  {
    var v, n := Visited(first, chain), |chain|;
    VisitedAt(first, chain);
    if i :| 0 <= i < n && chain[i].source == chain[n - 1].target && chain[i].target == chain[n - 1].source {
      assert v[i] == v[n] && v[i + 1] == v[n - 1];
    }
    if n == 2 && chain[1].target == first {
      assert chain[0].source == chain[n - 1].target;
    }
  }

  // ----- the roster -----

  predicate Consistent(keys: set<string>, order: seq<string>) {
    Distinct(order) && Elems(order) == keys
  }

  /** The team's agents with their descriptions, and the order in which they were added. */
  class Team {
    var agents: map<string, string>
    var order: seq<string>

    constructor ()
      ensures agents == map[] && order == []
    {
      agents, order := map[], [];
    }

    /** Adds an agent at construction time, without looking for one of the same name. */
    method WithAgent(name: string, description: string)
      modifies this
      ensures agents == old(agents)[name := description] && order == old(order) + [name]
      ensures old(Consistent(agents.Keys, order)) ==> (Consistent(agents.Keys, order) <==> name !in old(agents))
    {
      agents := agents[name := description];
      order := order + [name];
      assert order[|order| - 1] == name;
      if old(Consistent(agents.Keys, order)) && name in old(agents) {
        assert name in Elems(old(order));
        var i :| 0 <= i < |old(order)| && old(order)[i] == name;
        assert order[i] == order[|order| - 1];
      }
    }

    /** Adds an agent at run time; an existing name is refused. */
    method AddAgent(name: string, description: string) returns (ok: bool)
      modifies this
      ensures ok <==> name !in old(agents)
      ensures agents == if ok then old(agents)[name := description] else old(agents)
      ensures order == if ok then old(order) + [name] else old(order)
      ensures old(Consistent(agents.Keys, order)) ==> Consistent(agents.Keys, order)
    {
      if name in agents {
        return false;
      }
      WithAgent(name, description);
      ok := true;
    }

    /** Removes an agent and its first place in the order. */
    method RemoveAgent(name: string)
      modifies this
      ensures agents == old(agents) - {name}
      ensures order == if name in old(agents) then RemoveFirst(old(order), name) else old(order)
      ensures old(Consistent(agents.Keys, order)) ==> Consistent(agents.Keys, order)
    {
      RemoveFirstMembers(order, name);
      if name in agents {
        agents := agents - {name};
        order := DropFirst(order, name);
      }
    }
  }

  /** Adding a name twice at construction time and removing it once leaves it listed without an agent behind it,
      whatever the team was. */
  lemma DuplicateNameDangles(keys: set<string>, order: seq<string>, name: string)
    requires Consistent(keys, order) && name in keys
    ensures name in RemoveFirst(order + [name], name) && name !in keys + {name} - {name}
  {
    assert name in Elems(order);
    RemoveFirstKeepsLater(order, name);
  }

  lemma {:induction false} RemoveFirstKeepsLater(order: seq<string>, name: string)
    requires name in order
    ensures name in RemoveFirst(order + [name], name)
  {
    assert (order + [name])[1..] == order[1..] + [name];
    if order[0] != name {
      RemoveFirstKeepsLater(order[1..], name);
    }
  }
}
