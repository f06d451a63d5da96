/** In-degree bookkeeping shared by plan validation and batch scheduling. */
module InDegrees {
  import opened Graphs

  /** Each step's dependency list; the lists may repeat and may name unknown steps. */
  type DepLists = map<Id, seq<Id>>

  function Elems(p: seq<Id>): set<Id> {
    set x | x in p
  }

  /** The graph of the dependencies that are themselves listed. */
  function Listed(deps: DepLists): Graph {
    map u | u in deps :: set d | d in deps[u] && d in deps
  }

  /** How many entries of p lie in R. */
  function Hits(p: seq<Id>, R: set<Id>): nat {
    if p == [] then 0 else Hits(p[..|p| - 1], R) + if p[|p| - 1] in R then 1 else 0
  }

  lemma {:induction false} HitsRemove(p: seq<Id>, R: set<Id>, x: Id)
    requires x in R
    ensures Hits(p, R) == Hits(p, R - {x}) + multiset(p)[x]
  {
    if p != [] {
      var n := |p| - 1;
      HitsRemove(p[..n], R, x);
      assert p == p[..n] + [p[n]];
    }
  }

  lemma {:induction false} HitsZero(p: seq<Id>, R: set<Id>)
    ensures Hits(p, R) == 0 <==> forall d :: d in p ==> d !in R
  {
    if p != [] {
      var n := |p| - 1;
      HitsZero(p[..n], R);
      assert p == p[..n] + [p[n]];
    }
  }

  lemma {:induction false} HitsAll(p: seq<Id>, R: set<Id>)
    requires forall d :: d in p ==> d in R
    ensures Hits(p, R) == |p|
  {
    if p != [] {
      HitsAll(p[..|p| - 1], R);
    }
  }

  function Lookup(adj: map<Id, seq<Id>>, d: Id): seq<Id> {
    if d in adj then adj[d] else []
  }

  /** How often u occurs under d. */
  function Occurs(adj: map<Id, seq<Id>>, d: Id, u: Id): nat {
    multiset(Lookup(adj, d))[u]
  }

  function Wants(deps: DepLists, u: Id, d: Id): nat {
    if u in deps then multiset(deps[u])[d] else 0
  }

  /** adj is the transpose of deps: u occurs under d as often as d occurs in u's list. */
  ghost predicate Transposed(deps: DepLists, adj: map<Id, seq<Id>>) {
    forall d, u :: d in deps ==> Occurs(adj, d, u) == Wants(deps, u, d)
  }

  /** inDegree counts, for the steps of R, the dependency entries that lie in R. */
  ghost predicate Counts(deps: DepLists, R: set<Id>, inDegree: map<Id, int>) {
    R <= deps.Keys && R <= inDegree.Keys && forall u :: u in R ==> inDegree[u] == Hits(deps[u], R)
  }

  /** Enters id under each entry of its list that is in `scope`. */
  method AddDependents(adj0: map<Id, seq<Id>>, id: Id, list: seq<Id>, scope: set<Id>) returns (adj: map<Id, seq<Id>>)
    ensures forall d, u :: Occurs(adj, d, u) ==
              Occurs(adj0, d, u) + if u == id && d in scope then multiset(list)[d] else 0
  {
    adj := adj0;
    for m := 0 to |list|
      invariant forall d, u :: Occurs(adj, d, u) ==
                  Occurs(adj0, d, u) + if u == id && d in scope then multiset(list[..m])[d] else 0
    {
      assert list[..m + 1] == list[..m] + [list[m]];
      if list[m] in scope {
        adj := adj[list[m] := Lookup(adj, list[m]) + [id]];
      }
    }
    assert list[..|list|] == list;
  }

  /** Removing node from R lowers each count by node's occurrences. */
  lemma CountsAfterRemoval(deps: DepLists, R: set<Id>, node: Id, adj: map<Id, seq<Id>>,
                           inDegree0: map<Id, int>, inDegree: map<Id, int>)
    requires Transposed(deps, adj) && Counts(deps, R, inDegree0) && node in R
    requires inDegree.Keys >= R - {node}
    requires forall u :: u in R - {node} ==> inDegree[u] == inDegree0[u] - Occurs(adj, node, u)
    ensures Counts(deps, R - {node}, inDegree)
  {
    forall u | u in R - {node} ensures inDegree[u] == Hits(deps[u], R - {node}) {
      HitsRemove(deps[u], R, node);
      assert Occurs(adj, node, u) == Wants(deps, u, node);
    }
  }

  /** A step's count is zero exactly when none of its listed dependencies is left. */
  lemma ZeroIsReady(deps: DepLists, R: set<Id>, inDegree: map<Id, int>, u: Id)
    requires Counts(deps, R, inDegree) && u in R
    ensures inDegree[u] >= 0
    ensures inDegree[u] == 0 <==> forall d :: Edge(Listed(deps), u, d) ==> d !in R
  {
    HitsZero(deps[u], R);
    forall d | d in deps[u] && d in R ensures Edge(Listed(deps), u, d) {
    }
  }
}
