/** Directed graphs over step identifiers: paths, reachability, cycles and depth.
    An edge u -> v reads "u depends on v". */
module Graphs {
  import opened Basics

  type Id = string
  type Graph = map<Id, set<Id>>

  predicate Edge(g: Graph, u: Id, v: Id) {
    u in g && v in g[u]
  }

  /** A path follows edges; only its last node may lie outside the graph's domain. */
  ghost predicate IsPath(g: Graph, p: seq<Id>) {
    |p| > 0 && forall i, j :: 0 <= i && j == i + 1 && j < |p| ==> Edge(g, p[i], p[j])
  }

  ghost predicate PathBetween(g: Graph, p: seq<Id>, u: Id, v: Id) {
    IsPath(g, p) && p[0] == u && p[|p| - 1] == v
  }

  /** u reaches v: u is v or depends on it transitively. */
  ghost predicate Reaches(g: Graph, u: Id, v: Id) {
    exists p :: PathBetween(g, p, u, v)
  }

  /** No non-trivial path returns to its start. */
  ghost predicate Acyclic(g: Graph) {
    forall p :: IsPath(g, p) && |p| >= 2 ==> p[0] != p[|p| - 1]
  }

  lemma ReachesSelf(g: Graph, u: Id)
    ensures Reaches(g, u, u)
  {
    assert PathBetween(g, [u], u, u);
  }

  lemma ReachesTransitive(g: Graph, u: Id, v: Id, w: Id)
    requires Reaches(g, u, v) && Reaches(g, v, w)
    ensures Reaches(g, u, w)
  {
    var p :| PathBetween(g, p, u, v);
    var q :| PathBetween(g, q, v, w);
    var r := p + q[1..];
    forall i | 0 <= i < |r| - 1 ensures Edge(g, r[i], r[i + 1]) {
      if i < |p| - 1 {
      } else {
        assert r[i] == q[i - (|p| - 1)] && r[i + 1] == q[i - (|p| - 1) + 1];
      }
    }
    assert PathBetween(g, r, u, w);
  }

  lemma EdgeReaches(g: Graph, u: Id, v: Id)
    requires Edge(g, u, v)
    ensures Reaches(g, u, v)
  {
    assert PathBetween(g, [u, v], u, v);
  }

  /** Any proper reach starts with an edge. */
  lemma ReachesFirstEdge(g: Graph, u: Id, w: Id) returns (v: Id)
    requires Reaches(g, u, w) && u != w
    ensures Edge(g, u, v) && Reaches(g, v, w)
  {
    var p :| PathBetween(g, p, u, w);
    v := p[1];
    var q := p[1..];
    forall i | 0 <= i < |q| - 1 ensures Edge(g, q[i], q[i + 1]) {
      assert Edge(g, p[i + 1], p[i + 1 + 1]);
    }
    assert Edge(g, p[0], p[0 + 1]);
    assert PathBetween(g, q, v, w);
  }

  /** A set closed backwards along edges contains everything that reaches one of its members. */
  lemma {:induction false} BackwardClosed(g: Graph, S: set<Id>, p: seq<Id>)
    requires IsPath(g, p) && p[|p| - 1] in S
    requires forall u, v :: Edge(g, u, v) && v in S ==> u in S
    ensures p[0] in S
    decreases |p|
  {
    if |p| > 1 {
      var q := p[..|p| - 1];
      assert Edge(g, p[|p| - 2], p[|p| - 2 + 1]);
      BackwardClosed(g, S, q);
    }
  }

  /** In an acyclic graph no node reaches back along one of its own edges. */
  lemma AcyclicNoReturn(g: Graph, u: Id, v: Id)
    requires Acyclic(g) && Edge(g, u, v)
    ensures !Reaches(g, v, u)
  {
    if Reaches(g, v, u) {
      var p :| PathBetween(g, p, v, u);
      var q := [u] + p;
      forall i | 0 <= i < |q| - 1 ensures Edge(g, q[i], q[i + 1]) {
        if i > 0 { assert Edge(g, p[i - 1], p[i - 1 + 1]); }
      }
      assert IsPath(g, q);
      assert false;
    }
  }

  /** The nodes of the graph that u reaches: the measure for recursion along edges. */
  ghost function Below(g: Graph, u: Id): set<Id> {
    set v | v in g.Keys && Reaches(g, u, v)
  }

  lemma BelowShrinks(g: Graph, u: Id, v: Id)
    requires Acyclic(g) && Edge(g, u, v)
    ensures Below(g, v) < Below(g, u)
  {
    forall x | x in Below(g, v) ensures x in Below(g, u) {
      EdgeReaches(g, u, v);
      ReachesTransitive(g, u, v, x);
    }
    ReachesSelf(g, u);
    AcyclicNoReturn(g, u, v);
    assert u in Below(g, u) && u !in Below(g, v);
  }

  // ----- pigeonhole and cycles -----

  /** A sequence without repetitions is no longer than any set that contains it. */
  lemma {:induction false} DistinctFits(p: seq<Id>, S: set<Id>)
    requires Distinct(p) && forall i :: 0 <= i < |p| ==> p[i] in S
    ensures |p| <= |S|
    decreases |p|
  {
    if |p| > 0 {
      var n := |p| - 1;
      DistinctFits(p[..n], S - {p[n]});
    }
  }

  ghost predicate HasEdgeInto(g: Graph, u: Id, S: set<Id>) {
    exists v :: v in S && Edge(g, u, v)
  }

  ghost predicate Stuck(g: Graph, S: set<Id>) {
    forall u {:trigger HasEdgeInto(g, u, S)} :: u in S ==> HasEdgeInto(g, u, S)
  }

  /** From any member of a stuck set one can walk within the set for ever. */
  lemma WalkWithin(g: Graph, S: set<Id>, x: Id, n: nat) returns (p: seq<Id>)
    requires x in S && Stuck(g, S)
    ensures |p| == n + 1 && IsPath(g, p) && p[0] == x && forall i :: 0 <= i < |p| ==> p[i] in S
  {
    if n == 0 {
      p := [x];
    } else {
      var q := WalkWithin(g, S, x, n - 1);
      assert HasEdgeInto(g, q[n - 1], S);
      var v :| v in S && Edge(g, q[n - 1], v);
      p := q + [v];
    }
  }

  lemma SubPath(g: Graph, p: seq<Id>, i: nat, j: nat)
    requires IsPath(g, p) && i <= j < |p|
    ensures IsPath(g, p[i..j + 1])
  {
    var c := p[i..j + 1];
    forall k, l | 0 <= k && l == k + 1 && l < |c| ensures Edge(g, c[k], c[l]) {
      assert c[k] == p[i + k] && c[l] == p[i + l];
    }
  }

  ghost predicate OnCycle(g: Graph, c: Id) {
    exists p :: |p| >= 2 && PathBetween(g, p, c, c)
  }

  /** x is on a cycle or depends transitively on one. */
  ghost predicate ReachesCycle(g: Graph, x: Id) {
    exists c :: Reaches(g, x, c) && OnCycle(g, c)
  }

  /** If every member of a finite set has an edge into the set, every member leads to a cycle. */
  lemma StuckReachesCycle(g: Graph, S: set<Id>, x: Id)
    requires x in S && Stuck(g, S)
    ensures ReachesCycle(g, x)
  {
    var p := WalkWithin(g, S, x, |S|);
    if Distinct(p) {
      DistinctFits(p, S);
      assert false;
    } else {
      var i, j :| 0 <= i < j < |p| && p[i] == p[j];
      SubPath(g, p, i, j);
      assert PathBetween(g, p[i..j + 1], p[i], p[i]);
      assert OnCycle(g, p[i]);
      SubPath(g, p, 0, i);
      assert PathBetween(g, p[0..i + 1], x, p[i]);
      assert Reaches(g, x, p[i]);
    }
  }

  lemma AcyclicIffNoCycle(g: Graph)
    ensures Acyclic(g) <==> forall c :: !OnCycle(g, c)
  {
    if p :| IsPath(g, p) && |p| >= 2 && p[0] == p[|p| - 1] {
      assert PathBetween(g, p, p[0], p[0]);
      assert OnCycle(g, p[0]);
    }
  }

  lemma AcyclicIffNoneReachesCycle(g: Graph)
    ensures Acyclic(g) <==> forall u :: u in g ==> !ReachesCycle(g, u)
  {
    AcyclicIffNoCycle(g);
    if c :| OnCycle(g, c) {
      var p :| |p| >= 2 && PathBetween(g, p, c, c);
      assert Edge(g, p[0], p[1]);
      ReachesSelf(g, c);
      assert ReachesCycle(g, c);
    }
  }

  /** rank orders its domain: edges out of it stay in it and strictly decrease the rank. */
  ghost predicate Ranks(g: Graph, rank: map<Id, int>) {
    forall u, v :: Edge(g, u, v) && u in rank ==> v in rank && rank[v] < rank[u]
  }

  lemma {:induction false} RankDrops(g: Graph, rank: map<Id, int>, p: seq<Id>)
    requires Ranks(g, rank) && IsPath(g, p) && p[0] in rank
    ensures p[|p| - 1] in rank && rank[p[|p| - 1]] <= rank[p[0]] - (|p| - 1)
    decreases |p|
  {
    if |p| > 1 {
      assert Edge(g, p[|p| - 2], p[|p| - 1]);
      RankDrops(g, rank, p[..|p| - 1]);
    }
  }

  /** Nothing in the domain of a ranking leads to a cycle. */
  lemma RankedReachesNoCycle(g: Graph, rank: map<Id, int>, x: Id)
    requires Ranks(g, rank) && x in rank
    ensures !ReachesCycle(g, x)
  {
    if c :| Reaches(g, x, c) && OnCycle(g, c) {
      var p :| PathBetween(g, p, x, c);
      RankDrops(g, rank, p);
      var q :| |q| >= 2 && PathBetween(g, q, c, c);
      RankDrops(g, rank, q);
    }
  }

  lemma RankedIsAcyclic(g: Graph, rank: map<Id, int>)
    requires Ranks(g, rank) && g.Keys <= rank.Keys
    ensures Acyclic(g)
  {
    forall p | IsPath(g, p) && |p| >= 2 ensures p[0] != p[|p| - 1] {
      assert Edge(g, p[0], p[1]);
      RankDrops(g, rank, p);
    }
  }

  // ----- depth -----

  /** Some path of exactly k edges starts at u (and all its nodes are in the domain). */
  ghost predicate Deep(g: Graph, u: Id, k: nat)
    decreases k
  {
    u in g && (k == 0 || exists v :: Edge(g, u, v) && Deep(g, v, k - 1))
  }

  /** k is the length in edges of the longest path that starts at u. */
  ghost predicate LongestPath(g: Graph, u: Id, k: nat) {
    Deep(g, u, k) && !Deep(g, u, k + 1)
  }

  /** Deep says what it should: it is the existence of a path with k edges. */
  lemma {:induction false} DeepIsPath(g: Graph, u: Id, k: nat)
    ensures Deep(g, u, k) <==> exists p :: IsPath(g, p) && |p| == k + 1 && p[0] == u && p[k] in g
    decreases k
  {
    if k == 0 {
      if u in g { assert IsPath(g, [u]) && [u][0] == u; }
    } else {
      if Deep(g, u, k) {
        var v :| Edge(g, u, v) && Deep(g, v, k - 1);
        DeepIsPath(g, v, k - 1);
        var q :| IsPath(g, q) && |q| == k && q[0] == v && q[k - 1] in g;
        var p := [u] + q;
        forall i | 0 <= i < |p| - 1 ensures Edge(g, p[i], p[i + 1]) {
          if i > 0 { assert Edge(g, q[i - 1], q[i - 1 + 1]); }
        }
        assert IsPath(g, p);
      }
      if p :| IsPath(g, p) && |p| == k + 1 && p[0] == u && p[k] in g {
        var q := p[1..];
        forall i | 0 <= i < |q| - 1 ensures Edge(g, q[i], q[i + 1]) {
          assert Edge(g, p[i + 1], p[i + 1 + 1]);
        }
        assert IsPath(g, q) && |q| == k && q[k - 1] in g;
        DeepIsPath(g, q[0], k - 1);
        assert Edge(g, p[0], p[0 + 1]);
      }
    }
  }

  lemma {:induction false} DeepMonotone(g: Graph, u: Id, j: nat, k: nat)
    requires j <= k && Deep(g, u, k)
    ensures Deep(g, u, j)
    decreases k
  {
    if j > 0 {
      var v :| Edge(g, u, v) && Deep(g, v, k - 1);
      DeepMonotone(g, v, j - 1, k - 1);
    }
  }

  lemma LongestPathUnique(g: Graph, u: Id, j: nat, k: nat)
    requires LongestPath(g, u, j) && LongestPath(g, u, k)
    ensures j == k
  {
    if j < k { DeepMonotone(g, u, j + 1, k); }
    if k < j { DeepMonotone(g, u, k + 1, j); }
  }
}
