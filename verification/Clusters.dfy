/** Near-duplicate clusters of embedded facts: the connected components of the
    graph "similarity at or above the threshold". */
module Clusters {
  import opened Common
  import opened UnionFind

  type FactId = Id
  type Matrix = seq<seq<real>>

  predicate Square(sims: Matrix, n: nat) {
    |sims| == n && forall i :: 0 <= i < n ==> |sims[i]| == n
  }

  predicate Near(ids: seq<FactId>, sims: Matrix, threshold: real, i: nat, j: nat)
    requires Square(sims, |ids|)
  {
    i < j < |ids| && sims[i][j] >= threshold
  }

  /** The links of every pair of positions at or above the threshold. */
  ghost function SimilarLinks(ids: seq<FactId>, sims: Matrix, threshold: real): Links
    requires Square(sims, |ids|)
  {
    LinksBefore(ids, sims, threshold, |ids|, 0)
  }

  /** The links of the pairs the double loop has visited on reaching (i, j). */
  ghost function LinksBefore(ids: seq<FactId>, sims: Matrix, threshold: real, i: nat, j: nat): Links
    requires Square(sims, |ids|)
  {
    set p: nat, q: nat | p < q < |ids| && (p < i || (p == i && q < j)) && Near(ids, sims, threshold, p, q) :: (ids[p], ids[q])
  }

  lemma OnePair(ids: seq<FactId>, sims: Matrix, threshold: real, i: nat, j: nat)
    requires Square(sims, |ids|) && i < j < |ids|
    ensures LinksBefore(ids, sims, threshold, i, j + 1)
            == LinksBefore(ids, sims, threshold, i, j) + (if Near(ids, sims, threshold, i, j) then {(ids[i], ids[j])} else {})
  {
    var before, after := LinksBefore(ids, sims, threshold, i, j), LinksBefore(ids, sims, threshold, i, j + 1);
    forall l | l in after
      ensures l in before || (Near(ids, sims, threshold, i, j) && l == (ids[i], ids[j]))
    {
      var p: nat, q: nat :| p < q < |ids| && (p < i || (p == i && q < j + 1)) && Near(ids, sims, threshold, p, q) && l == (ids[p], ids[q]);
      assert (p == i && q == j) || (ids[p], ids[q]) in before;
    }
    forall l | l in before
      ensures l in after
    {
      var p: nat, q: nat :| p < q < |ids| && (p < i || (p == i && q < j)) && Near(ids, sims, threshold, p, q) && l == (ids[p], ids[q]);
      assert (ids[p], ids[q]) in after;
    }
  }

  lemma OneRow(ids: seq<FactId>, sims: Matrix, threshold: real, i: nat)
    requires Square(sims, |ids|) && i < |ids|
    ensures LinksBefore(ids, sims, threshold, i, |ids|) == LinksBefore(ids, sims, threshold, i + 1, 0)
    ensures LinksBefore(ids, sims, threshold, i, i + 1) == LinksBefore(ids, sims, threshold, i, 0)
    ensures LinksBefore(ids, sims, threshold, 0, 0) == {}
  {
  }

  // ------------------------------------------------------------------
  // Components, in the order of the fact list
  // ------------------------------------------------------------------

  /** The listed facts connected to a, in list order and with repetitions. */
  ghost function Members(links: Links, ids: seq<FactId>, a: FactId): seq<FactId> {
    if ids == [] then []
    else
      var last := ids[|ids| - 1];
      Members(links, ids[..|ids| - 1], a) + (if Connected(links, last, a) then [last] else [])
  }

  lemma {:induction false} MembersAreListed(links: Links, ids: seq<FactId>, a: FactId, x: FactId)
    ensures x in Members(links, ids, a) <==> x in ids && Connected(links, x, a)
  {
    if ids != [] {
      var init := ids[..|ids| - 1];
      MembersAreListed(links, init, a, x);
      assert ids == init + [ids[|ids| - 1]];
    }
  }

  lemma {:induction false} MembersAreDistinct(links: Links, ids: seq<FactId>, a: FactId)
    requires Distinct(ids)
    ensures Distinct(Members(links, ids, a))
  {
    if ids != [] {
      var init := ids[..|ids| - 1];
      MembersAreDistinct(links, init, a);
      MembersAreListed(links, init, a, ids[|ids| - 1]);
    }
  }

  /** Position i is the first one of its component. */
  ghost predicate IsHead(links: Links, ids: seq<FactId>, i: nat)
    requires i < |ids|
  {
    forall j :: 0 <= j < i ==> !Connected(links, ids[j], ids[i])
  }

  ghost predicate HeadsLargeComponent(links: Links, ids: seq<FactId>, i: nat) {
    i < |ids| && IsHead(links, ids, i) && |Members(links, ids, ids[i])| >= 2
  }

  /** Every component with at least two entries, once and whole, in the order
      in which the components first occur. */
  ghost predicate AreComponents(links: Links, ids: seq<FactId>, heads: seq<nat>, clusters: seq<seq<FactId>>) {
    && |heads| == |clusters|
    && (forall k :: 0 <= k < |heads| ==> HeadsLargeComponent(links, ids, heads[k]) && clusters[k] == Members(links, ids, ids[heads[k]]))
    && (forall k, l :: 0 <= k < l < |heads| ==> heads[k] < heads[l])
    && (forall i {:trigger HeadsLargeComponent(links, ids, i)} :: HeadsLargeComponent(links, ids, i) ==> i in heads)
  }

  /** No fact is in two clusters. */
  lemma ComponentsAreDisjoint(links: Links, ids: seq<FactId>, heads: seq<nat>, clusters: seq<seq<FactId>>, k: nat, l: nat, x: FactId)
    requires AreComponents(links, ids, heads, clusters) && k < l < |clusters| && x in clusters[k]
    ensures x !in clusters[l]
  {
    var a, b := ids[heads[k]], ids[heads[l]];
    MembersAreListed(links, ids, a, x);
    MembersAreListed(links, ids, b, x);
    if x in clusters[l] {
      ConnectedBothWays(links, x, a);
      ConnectedThrough(links, a, x, b);
    }
  }

  lemma HeadExists(links: Links, ids: seq<FactId>, i: nat) returns (h: nat)
    requires i < |ids|
    ensures h <= i && IsHead(links, ids, h) && Connected(links, ids[h], ids[i])
  {
    ConnectedToItself(links, ids[i]);
    h := i;
    while !IsHead(links, ids, h)
      invariant h <= i && Connected(links, ids[h], ids[i])
      decreases h
    {
      var j :| 0 <= j < h && Connected(links, ids[j], ids[h]);
      ConnectedThrough(links, ids[j], ids[h], ids[i]);
      h := j;
    }
  }

  lemma {:induction false} SameMembers(links: Links, ids: seq<FactId>, a: FactId, b: FactId)
    requires Connected(links, a, b)
    ensures Members(links, ids, a) == Members(links, ids, b)
  {
    if ids != [] {
      var last := ids[|ids| - 1];
      SameMembers(links, ids[..|ids| - 1], a, b);
      ConnectedBothWays(links, a, b);
      if Connected(links, last, a) { ConnectedThrough(links, last, a, b); }
      if Connected(links, last, b) { ConnectedThrough(links, last, b, a); }
    }
  }

  /** A listed fact with a connected companion is in the cluster of its component. */
  lemma EveryLargeComponentIsThere(links: Links, ids: seq<FactId>, heads: seq<nat>, clusters: seq<seq<FactId>>, i: nat)
    requires AreComponents(links, ids, heads, clusters)
    requires i < |ids| && |Members(links, ids, ids[i])| >= 2
    ensures Members(links, ids, ids[i]) in clusters
  {
    var h := HeadExists(links, ids, i);
    SameMembers(links, ids, ids[h], ids[i]);
    assert HeadsLargeComponent(links, ids, h);
    var k :| 0 <= k < |heads| && heads[k] == h;
    assert clusters[k] == Members(links, ids, ids[i]);
  }

  // ------------------------------------------------------------------
  // Building the clusters
  // ------------------------------------------------------------------

  ghost predicate IsClustering(links: Links, ids: seq<FactId>, clusters: seq<seq<FactId>>) {
    exists heads :: AreComponents(links, ids, heads, clusters)
  }

  method BuildClusters(ids: seq<FactId>, sims: Matrix, threshold: real) returns (clusters: seq<seq<FactId>>)
    requires Square(sims, |ids|)
    ensures IsClustering(SimilarLinks(ids, sims, threshold), ids, clusters)
  {
    ghost var links: Links := {};
    var forest := new Forest(ids);
    for i := 0 to |ids|
      invariant fresh(forest) && forest.Valid() && Covers(forest.rep, ids)
      invariant links == LinksBefore(ids, sims, threshold, i, 0) && Tracks(forest.rep, links)
    {
      OneRow(ids, sims, threshold, i);
      for j := i + 1 to |ids|
        invariant fresh(forest) && forest.Valid() && Covers(forest.rep, ids)
        invariant links == LinksBefore(ids, sims, threshold, i, j) && Tracks(forest.rep, links)
      {
        OnePair(ids, sims, threshold, i, j);
        if sims[i][j] >= threshold {
          forest.Union(ids[i], ids[j], links);
          links := links + {(ids[i], ids[j])};
        }
      }
    }
    var order, groups, firsts := Group(forest, ids);
    ghost var heads;
    clusters, heads := LargeGroups(forest.rep, links, ids, order, groups, firsts);
  }

  ghost predicate Covers(rep: map<Id, Id>, ids: seq<FactId>) {
    forall k :: 0 <= k < |ids| ==> ids[k] in rep
  }

  /** The listed facts under one root. */
  ghost function Under(rep: map<Id, Id>, ids: seq<FactId>, root: Id): seq<FactId>
    requires Covers(rep, ids)
  {
    if ids == [] then []
    else
      var last := ids[|ids| - 1];
      Under(rep, ids[..|ids| - 1], root) + (if rep[last] == root then [last] else [])
  }

  lemma {:induction false} UnderIsMembers(rep: map<Id, Id>, links: Links, ids: seq<FactId>, a: FactId)
    requires Covers(rep, ids) && a in rep && Tracks(rep, links)
    ensures Under(rep, ids, rep[a]) == Members(links, ids, a)
  {
    if ids != [] {
      UnderIsMembers(rep, links, ids[..|ids| - 1], a);
      assert Connected(links, ids[|ids| - 1], a) <==> rep[ids[|ids| - 1]] == rep[a];
    }
  }

  ghost predicate IsFirst(rep: map<Id, Id>, ids: seq<FactId>, i: nat)
    requires Covers(rep, ids)
  {
    i < |ids| && forall j :: 0 <= j < i ==> rep[ids[j]] != rep[ids[i]]
  }

  /** `order` holds the roots of the first n facts at their first positions. */
  ghost predicate Ordered(rep: map<Id, Id>, ids: seq<FactId>, n: nat, order: seq<Id>, firsts: seq<nat>)
    requires Covers(rep, ids)
  {
    && |order| == |firsts|
    && (forall k :: 0 <= k < |firsts| ==> firsts[k] < n && IsFirst(rep, ids, firsts[k]) && order[k] == rep[ids[firsts[k]]])
    && (forall k, l :: 0 <= k < l < |firsts| ==> firsts[k] < firsts[l])
    && (forall i: nat {:trigger IsFirst(rep, ids, i)} :: i < n && IsFirst(rep, ids, i) ==> i in firsts)
  }

  lemma OrderGrows(rep: map<Id, Id>, ids: seq<FactId>, n: nat, order: seq<Id>, firsts: seq<nat>)
    requires Covers(rep, ids) && n < |ids| && Ordered(rep, ids, n, order, firsts)
    ensures if IsFirst(rep, ids, n) then Ordered(rep, ids, n + 1, order + [rep[ids[n]]], firsts + [n])
            else Ordered(rep, ids, n + 1, order, firsts)
  {
  }

  /** The dictionary after the first n facts. */
  ghost predicate Grouped(rep: map<Id, Id>, ids: seq<FactId>, n: nat, groups: map<Id, seq<FactId>>)
    requires Covers(rep, ids) && n <= |ids|
  {
    && (forall i :: 0 <= i < n ==> rep[ids[i]] in groups)
    && (forall r :: r in groups ==> exists i :: 0 <= i < n && rep[ids[i]] == r)
    && (forall r {:trigger Under(rep, ids[..n], r)} :: Under(rep, ids[..n], r) == if r in groups then groups[r] else [])
  }

  lemma GroupsGrow(rep: map<Id, Id>, ids: seq<FactId>, n: nat, groups: map<Id, seq<FactId>>)
    requires Covers(rep, ids) && n < |ids| && Grouped(rep, ids, n, groups)
    ensures IsFirst(rep, ids, n) <==> rep[ids[n]] !in groups
    ensures var root := rep[ids[n]];
            Grouped(rep, ids, n + 1, groups[root := (if root in groups then groups[root] else []) + [ids[n]]])
  {
    var root := rep[ids[n]];
    var more := groups[root := (if root in groups then groups[root] else []) + [ids[n]]];
    assert ids[..n + 1][..n] == ids[..n];
    forall r
      ensures Under(rep, ids[..n + 1], r) == if r in more then more[r] else []
    {
      assert Under(rep, ids[..n], r) == if r in groups then groups[r] else [];
    }
  }

  /** An insertion-ordered dictionary from each root to the facts under it. */
  method Group(forest: Forest, ids: seq<FactId>) returns (order: seq<Id>, groups: map<Id, seq<FactId>>, ghost firsts: seq<nat>)
    requires forest.Valid() && Covers(forest.rep, ids)
    modifies forest`parent
    ensures Ordered(forest.rep, ids, |ids|, order, firsts) && Grouped(forest.rep, ids, |ids|, groups)
    ensures forall k :: 0 <= k < |order| ==> order[k] in groups
  {
    order, groups, firsts := [], map[], [];
    ghost var rep := forest.rep;
    for n := 0 to |ids|
      invariant forest.Valid() && forest.rep == rep
      invariant Ordered(rep, ids, n, order, firsts) && Grouped(rep, ids, n, groups)
      invariant forall k :: 0 <= k < |order| ==> order[k] in groups
    {
      OrderGrows(rep, ids, n, order, firsts);
      GroupsGrow(rep, ids, n, groups);
      var root := forest.Find(ids[n]);
      if root !in groups {
        order := order + [root];
        groups := groups[root := []];
        firsts := firsts + [n];
      }
      groups := groups[root := groups[root] + [ids[n]]];
    }
  }

  /** The large components among the first n groups. */
  ghost predicate Picked(links: Links, ids: seq<FactId>, firsts: seq<nat>, n: nat, heads: seq<nat>, clusters: seq<seq<FactId>>)
    requires n <= |firsts|
  {
    && |heads| == |clusters|
    && (forall k :: 0 <= k < |heads| ==> heads[k] in firsts[..n])
    && (forall k :: 0 <= k < |heads| ==> HeadsLargeComponent(links, ids, heads[k]) && clusters[k] == Members(links, ids, ids[heads[k]]))
    && (forall k, l :: 0 <= k < l < |heads| ==> heads[k] < heads[l])
    && (forall k :: 0 <= k < n && HeadsLargeComponent(links, ids, firsts[k]) ==> firsts[k] in heads)
  }

  lemma PickGrows(links: Links, ids: seq<FactId>, firsts: seq<nat>, n: nat, heads: seq<nat>, clusters: seq<seq<FactId>>)
    requires n < |firsts| && Picked(links, ids, firsts, n, heads, clusters)
    requires forall k, l :: 0 <= k < l < |firsts| ==> firsts[k] < firsts[l]
    ensures if HeadsLargeComponent(links, ids, firsts[n])
            then Picked(links, ids, firsts, n + 1, heads + [firsts[n]], clusters + [Members(links, ids, ids[firsts[n]])])
            else Picked(links, ids, firsts, n + 1, heads, clusters)
  {
    assert firsts[..n + 1] == firsts[..n] + [firsts[n]];
  }

  /** Keeps the groups of at least two, in dictionary order. */
  method LargeGroups(ghost rep: map<Id, Id>, ghost links: Links, ids: seq<FactId>, order: seq<Id>, groups: map<Id, seq<FactId>>, ghost firsts: seq<nat>)
    returns (clusters: seq<seq<FactId>>, ghost heads: seq<nat>)
    requires Covers(rep, ids) && Tracks(rep, links)
    requires Ordered(rep, ids, |ids|, order, firsts) && Grouped(rep, ids, |ids|, groups)
    requires forall k :: 0 <= k < |order| ==> order[k] in groups
    ensures AreComponents(links, ids, heads, clusters)
  {
    clusters, heads := [], [];
    for n := 0 to |order|
      invariant Picked(links, ids, firsts, n, heads, clusters)
    {
      PickGrows(links, ids, firsts, n, heads, clusters);
      FirstIsHead(rep, links, ids, firsts[n]);
      assert groups[order[n]] == Members(links, ids, ids[firsts[n]]) by {
        assert ids[..|ids|] == ids;
        UnderIsMembers(rep, links, ids, ids[firsts[n]]);
        assert Under(rep, ids[..|ids|], order[n]) == groups[order[n]];
      }
      if |groups[order[n]]| >= 2 {
        clusters := clusters + [groups[order[n]]];
        heads := heads + [firsts[n]];
      }
    }
    forall i: nat | HeadsLargeComponent(links, ids, i)
      ensures i in heads
    {
      FirstIsHead(rep, links, ids, i);
    }
  }

  lemma FirstIsHead(rep: map<Id, Id>, links: Links, ids: seq<FactId>, i: nat)
    requires Covers(rep, ids) && Tracks(rep, links) && i < |ids|
    ensures IsFirst(rep, ids, i) <==> IsHead(links, ids, i)
  {
    forall j | 0 <= j < i
      ensures rep[ids[j]] == rep[ids[i]] <==> Connected(links, ids[j], ids[i])
    {
    }
  }
}
