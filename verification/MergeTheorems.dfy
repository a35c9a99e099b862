/** What a merge conserves. */
module MergeTheorems {
  import opened Common
  import opened Clusters
  import opened ClusterMerge
  import UF = UnionFind
  import Tags

  type Counts = map<FactId, nat>

  /** The counts of the repeated entries, first occurrences not counted. */
  function RepeatsOver(counts: Counts, xs: seq<FactId>): nat
    requires forall k :: 0 <= k < |xs| ==> xs[k] in counts
  {
    if xs == [] then 0
    else
      var last := xs[|xs| - 1];
      RepeatsOver(counts, xs[..|xs| - 1]) + (if last in xs[..|xs| - 1] then counts[last] else 0)
  }

  lemma SetOfSnoc(xs: seq<FactId>)
    requires xs != []
    ensures SetOf(xs) == SetOf(xs[..|xs| - 1]) + {xs[|xs| - 1]}
  {
    assert xs == xs[..|xs| - 1] + [xs[|xs| - 1]];
  }

  lemma {:induction false} TotalWithout(counts: Counts, xs: seq<FactId>)
    requires forall k :: 0 <= k < |xs| ==> xs[k] in counts
    ensures Total(counts) + RepeatsOver(counts, xs) == SumOver(counts, xs) + Total(counts - SetOf(xs))
  {
    if xs == [] {
      assert counts - SetOf(xs) == counts;
    } else {
      var init, last := xs[..|xs| - 1], xs[|xs| - 1];
      TotalWithout(counts, init);
      SetOfSnoc(xs);
      if last in init {
        assert SetOf(xs) == SetOf(init);
      } else {
        assert last !in SetOf(init);
        TotalSplit(counts - SetOf(init), last);
        assert (counts - SetOf(init)) - {last} == counts - SetOf(xs);
      }
    }
  }

  /** Putting the sum of all members on one of them and removing the others
      adds the repeated counts, and nothing else. */
  lemma OneMergeAdds(counts: Counts, members: seq<FactId>, survivor: FactId, losers: set<FactId>)
    requires forall k :: 0 <= k < |members| ==> members[k] in counts
    requires survivor in members && losers == SetOf(members) - {survivor}
    ensures Total(counts[survivor := SumOver(counts, members)] - losers) == Total(counts) + RepeatsOver(counts, members)
  {
    var sum := SumOver(counts, members);
    var after := counts[survivor := sum] - losers;
    TotalWithout(counts, members);
    TotalSplit(after, survivor);
    assert after - {survivor} == counts - SetOf(members);
  }

  // ------------------------------------------------------------------
  // A whole plan
  // ------------------------------------------------------------------

  ghost predicate AllActiveIn(facts: Facts, xs: seq<FactId>) {
    forall j :: 0 <= j < |xs| ==> xs[j] in facts && facts[xs[j]].active
  }

  ghost predicate Disjoint(clusters: seq<seq<FactId>>) {
    forall k, l :: 0 <= k < l < |clusters| ==> SetOf(clusters[k]) !! SetOf(clusters[l])
  }

  /** The merge turns the members into one row that carries their counts and tags. */
  ghost predicate MergesCluster(facts: Facts, members: seq<FactId>, m: Merge) {
    && members != [] && Listed(facts, members) && m.survivor in facts
    && m.survivor in SetOf(members) && LoserSet(m) == SetOf(members) - {m.survivor}
    && m.retrieval == SumOver(Retrievals(facts), members)
    && m.helpful == SumOver(Helpfuls(facts), members)
    && CarriesTags(facts, members, m.tags)
  }

  ghost predicate CarriesTags(facts: Facts, members: seq<FactId>, tags: string)
    requires Listed(facts, members)
  {
    forall t :: t in Tags.TagSet(tags) <==> exists j :: 0 <= j < |members| && t in Tags.TagSet(facts[members[j]].tags)
  }

  ghost predicate Faithful(facts: Facts, clusters: seq<seq<FactId>>, plan: seq<Merge>) {
    && |plan| == |clusters| && Disjoint(clusters)
    && forall k :: 0 <= k < |plan| ==> MergesCluster(facts, clusters[k], plan[k])
  }

  lemma MergeOfMergesCluster(facts: Facts, members: seq<FactId>, cutoff: int, suspiciousSize: nat)
    requires members != [] && Listed(facts, members) && AllActiveIn(facts, members)
    ensures MergesCluster(facts, members, MergeOf(facts, members, cutoff, suspiciousSize))
  {
    var m := MergeOf(facts, members, cutoff, suspiciousSize);
    assert m.survivor in SetOf(members) && LoserSet(m) == SetOf(members) - {m.survivor} by {
      SurvivorIsTheBestOldest(facts, members, cutoff);
    }
    MergedTagsCarry(facts, members);
  }

  lemma MergedTagsCarry(facts: Facts, members: seq<FactId>)
    requires Listed(facts, members)
    ensures CarriesTags(facts, members, Tags.Join(Tags.Gathered(MemberTags(facts, members))))
  {
    var tags := MemberTags(facts, members);
    Tags.MergedTagSet(tags);
    assert forall j :: 0 <= j < |members| ==> tags[j] == facts[members[j]].tags;
  }

  /** What the code plans for disjoint clusters of active facts is faithful. */
  lemma PlannedIsFaithful(facts: Facts, clusters: seq<seq<FactId>>, cutoff: int, suspiciousSize: nat)
    requires Plannable(facts, clusters) && Disjoint(clusters)
    requires forall k :: 0 <= k < |clusters| ==> AllActiveIn(facts, clusters[k])
    ensures Faithful(facts, clusters, Planned(facts, clusters, cutoff, suspiciousSize))
  {
    forall k | 0 <= k < |clusters|
      ensures MergesCluster(facts, clusters[k], Planned(facts, clusters, cutoff, suspiciousSize)[k])
    {
      MergeOfMergesCluster(facts, clusters[k], cutoff, suspiciousSize);
    }
  }

  // ------------------------------------------------------------------
  // Merge by merge
  // ------------------------------------------------------------------

  ghost function RepeatsIn(counts: Counts, clusters: seq<seq<FactId>>): nat
    requires forall k :: 0 <= k < |clusters| ==> SetOf(clusters[k]) <= counts.Keys
  {
    if clusters == [] then 0
    else
      var last := clusters[|clusters| - 1];
      assert forall j :: 0 <= j < |last| ==> last[j] in SetOf(last);
      RepeatsIn(counts, clusters[..|clusters| - 1]) + RepeatsOver(counts, last)
  }

  lemma {:induction false} SumAgrees(a: Counts, b: Counts, xs: seq<FactId>)
    requires forall k :: 0 <= k < |xs| ==> xs[k] in a && xs[k] in b && a[xs[k]] == b[xs[k]]
    ensures SumOver(a, xs) == SumOver(b, xs) && RepeatsOver(a, xs) == RepeatsOver(b, xs)
  {
    if xs != [] {
      SumAgrees(a, b, xs[..|xs| - 1]);
    }
  }

  /** The table still holds the original row of every member. */
  ghost predicate Untouched(facts: Facts, now: Facts, members: seq<FactId>) {
    forall j :: 0 <= j < |members| ==> members[j] in facts && members[j] in now && now[members[j]] == facts[members[j]]
  }

  lemma MergeOneCluster(facts: Facts, before: Facts, members: seq<FactId>, m: Merge)
    requires MergesCluster(facts, members, m) && Untouched(facts, before, members)
    ensures Total(Retrievals(Merged(before, m))) == Total(Retrievals(before)) + RepeatsOver(Retrievals(facts), members)
    ensures Total(Helpfuls(Merged(before, m))) == Total(Helpfuls(before)) + RepeatsOver(Helpfuls(facts), members)
  {
    var after := Merged(before, m);
    SumAgrees(Retrievals(facts), Retrievals(before), members);
    SumAgrees(Helpfuls(facts), Helpfuls(before), members);
    OneMergeAdds(Retrievals(before), members, m.survivor, LoserSet(m));
    OneMergeAdds(Helpfuls(before), members, m.survivor, LoserSet(m));
    assert Retrievals(after) == Retrievals(before)[m.survivor := m.retrieval] - LoserSet(m);
    assert Helpfuls(after) == Helpfuls(before)[m.survivor := m.helpful] - LoserSet(m);
  }

  /** Which rows go, which changes, and that no other does. */
  lemma MergedRows(facts: Facts, before: Facts, members: seq<FactId>, m: Merge)
    requires MergesCluster(facts, members, m) && Untouched(facts, before, members)
    ensures var after := Merged(before, m);
            && LoserSet(m) <= before.Keys && after.Keys == before.Keys - LoserSet(m) && m.survivor in after
            && after[m.survivor] == facts[m.survivor].(retrieval := m.retrieval, helpful := m.helpful, tags := m.tags)
            && (forall x :: x in before && x !in SetOf(members) ==> x in after && after[x] == before[x])
            && |after| == |before| - |LoserSet(m)|
  {
    var after := Merged(before, m);
    forall x | x in LoserSet(m)
      ensures x in before
    {
      var j :| 0 <= j < |members| && members[j] == x;
    }
    var j :| 0 <= j < |members| && members[j] == m.survivor;
    assert before.Keys == after.Keys + LoserSet(m);
  }

  ghost predicate LaterUntouched(facts: Facts, clusters: seq<seq<FactId>>, n: nat, now: Facts) {
    forall k :: n <= k < |clusters| ==> Untouched(facts, now, clusters[k])
  }

  ghost predicate EarlierMerged(facts: Facts, clusters: seq<seq<FactId>>, plan: seq<Merge>, n: nat, now: Facts)
    requires n <= |plan| == |clusters|
  {
    forall k :: 0 <= k < n ==> MergedInto(facts, now, clusters[k], plan[k])
  }

  ghost predicate InNone(clusters: seq<seq<FactId>>, n: nat, x: FactId)
    requires n <= |clusters|
  {
    forall k :: 0 <= k < n ==> x !in SetOf(clusters[k])
  }

  ghost predicate OutsideKept(facts: Facts, clusters: seq<seq<FactId>>, n: nat, now: Facts)
    requires n <= |clusters|
  {
    forall x {:trigger InNone(clusters, n, x)} :: x in facts && InNone(clusters, n, x) ==> x in now && now[x] == facts[x]
  }

  /** After the first n merges. */
  ghost predicate HalfMerged(facts: Facts, clusters: seq<seq<FactId>>, plan: seq<Merge>, n: nat, now: Facts)
    requires n <= |plan| && |plan| == |clusters|
  {
    && LaterUntouched(facts, clusters, n, now)
    && EarlierMerged(facts, clusters, plan, n, now)
    && now.Keys == facts.Keys - AllLosers(plan[..n])
    && OutsideKept(facts, clusters, n, now)
  }

  ghost predicate MergedInto(facts: Facts, now: Facts, members: seq<FactId>, m: Merge) {
    && m.survivor in facts && m.survivor in now
    && now[m.survivor] == facts[m.survivor].(retrieval := m.retrieval, helpful := m.helpful, tags := m.tags)
    && (forall x :: x in SetOf(members) - {m.survivor} ==> x !in now)
  }

  /** One table follows another except within a set of facts. */
  ghost predicate Follows(now: Facts, next: Facts, within: set<FactId>) {
    next.Keys <= now.Keys && forall x :: x in now && x !in within ==> x in next && next[x] == now[x]
  }

  lemma HalfMergedGrows(facts: Facts, clusters: seq<seq<FactId>>, plan: seq<Merge>, n: nat, now: Facts)
    requires Faithful(facts, clusters, plan) && n < |plan| && HalfMerged(facts, clusters, plan, n, now)
    ensures HalfMerged(facts, clusters, plan, n + 1, Merged(now, plan[n]))
  {
    var next := Merged(now, plan[n]);
    assert plan[..n + 1][..n] == plan[..n];
    assert MergesCluster(facts, clusters[n], plan[n]) && Untouched(facts, now, clusters[n]);
    MergedRows(facts, now, clusters[n], plan[n]);
    assert MergedInto(facts, next, clusters[n], plan[n]) && Follows(now, next, SetOf(clusters[n]));
    hide Merged, MergesCluster, Untouched, MergedInto, Follows, SetOf;
    LaterStay(facts, clusters, n, now, next);
    EarlierStay(facts, clusters, plan, n, now, next);
    OutsideStay(facts, clusters, n, now, next);
  }

  lemma LaterStay(facts: Facts, clusters: seq<seq<FactId>>, n: nat, now: Facts, next: Facts)
    requires Disjoint(clusters) && n < |clusters|
    requires LaterUntouched(facts, clusters, n, now) && Follows(now, next, SetOf(clusters[n]))
    ensures LaterUntouched(facts, clusters, n + 1, next)
  {
    hide Untouched, Follows;
    forall k | n + 1 <= k < |clusters|
      ensures Untouched(facts, next, clusters[k])
    {
      UntouchedStays(facts, now, next, clusters[k], SetOf(clusters[n]));
    }
  }

  lemma EarlierStay(facts: Facts, clusters: seq<seq<FactId>>, plan: seq<Merge>, n: nat, now: Facts, next: Facts)
    requires Faithful(facts, clusters, plan) && n < |plan|
    requires EarlierMerged(facts, clusters, plan, n, now) && Follows(now, next, SetOf(clusters[n]))
    requires MergedInto(facts, next, clusters[n], plan[n])
    ensures EarlierMerged(facts, clusters, plan, n + 1, next)
  {
    hide MergedInto, Follows, MergesCluster;
    forall k | 0 <= k < n
      ensures MergedInto(facts, next, clusters[k], plan[k])
    {
      SurvivorIsMember(facts, clusters[k], plan[k]);
      MergedIntoStays(facts, now, next, clusters[k], plan[k], SetOf(clusters[n]));
    }
  }

  lemma OutsideStay(facts: Facts, clusters: seq<seq<FactId>>, n: nat, now: Facts, next: Facts)
    requires n < |clusters| && OutsideKept(facts, clusters, n, now) && Follows(now, next, SetOf(clusters[n]))
    ensures OutsideKept(facts, clusters, n + 1, next)
  {
    hide SetOf;
    forall x | x in facts && InNone(clusters, n + 1, x)
      ensures x in next && next[x] == facts[x]
    {
      assert InNone(clusters, n, x) && x !in SetOf(clusters[n]);
    }
  }

  lemma SurvivorIsMember(facts: Facts, members: seq<FactId>, m: Merge)
    requires MergesCluster(facts, members, m)
    ensures m.survivor in SetOf(members)
  {
  }

  lemma UntouchedStays(facts: Facts, now: Facts, next: Facts, other: seq<FactId>, gone: set<FactId>)
    requires Untouched(facts, now, other) && SetOf(other) !! gone
    requires Follows(now, next, gone)
    ensures Untouched(facts, next, other)
  {
    forall j | 0 <= j < |other|
      ensures other[j] in next && next[other[j]] == facts[other[j]]
    {
      var x := other[j];
      assert x in SetOf(other);
      assert x in now && x !in gone;
    }
  }

  lemma MergedIntoStays(facts: Facts, now: Facts, next: Facts, other: seq<FactId>, m: Merge, gone: set<FactId>)
    requires MergedInto(facts, now, other, m) && m.survivor in SetOf(other) && SetOf(other) !! gone
    requires Follows(now, next, gone)
    ensures MergedInto(facts, next, other, m)
  {
  }

  lemma {:induction false} FirstMerges(facts: Facts, clusters: seq<seq<FactId>>, plan: seq<Merge>, n: nat)
    requires Faithful(facts, clusters, plan) && n <= |plan|
    ensures HalfMerged(facts, clusters, plan, n, Applied(facts, plan[..n]))
  {
    if n == 0 {
      forall k | 0 <= k < |clusters|
        ensures Untouched(facts, facts, clusters[k])
      {
        assert MergesCluster(facts, clusters[k], plan[k]);
      }
    } else {
      FirstMerges(facts, clusters, plan, n - 1);
      HalfMergedGrows(facts, clusters, plan, n - 1, Applied(facts, plan[..n - 1]));
      assert plan[..n][..n - 1] == plan[..n - 1];
    }
  }

  lemma ListedClusters(facts: Facts, clusters: seq<seq<FactId>>, plan: seq<Merge>)
    requires Faithful(facts, clusters, plan)
    ensures forall k :: 0 <= k < |clusters| ==> Listed(facts, clusters[k]) && SetOf(clusters[k]) <= facts.Keys
    ensures Retrievals(facts).Keys == facts.Keys == Helpfuls(facts).Keys
  {
    forall k | 0 <= k < |clusters|
      ensures Listed(facts, clusters[k]) && SetOf(clusters[k]) <= facts.Keys
    {
      assert MergesCluster(facts, clusters[k], plan[k]);
    }
  }

  lemma {:induction false} TotalsAfter(facts: Facts, clusters: seq<seq<FactId>>, plan: seq<Merge>, n: nat)
    requires Faithful(facts, clusters, plan) && n <= |plan|
    requires forall k :: 0 <= k < |clusters| ==> SetOf(clusters[k]) <= facts.Keys
    ensures Total(Retrievals(Applied(facts, plan[..n]))) == Total(Retrievals(facts)) + RepeatsIn(Retrievals(facts), clusters[..n])
    ensures Total(Helpfuls(Applied(facts, plan[..n]))) == Total(Helpfuls(facts)) + RepeatsIn(Helpfuls(facts), clusters[..n])
  {
    if n > 0 {
      ListedClusters(facts, clusters, plan);
      TotalsAfter(facts, clusters, plan, n - 1);
      FirstMerges(facts, clusters, plan, n - 1);
      hide Total, Retrievals, Helpfuls, MergesCluster, HalfMerged, Merged, Applied, SetOf;
      OneMoreMerge(facts, clusters, plan, n - 1);
      RepeatsSnoc(Retrievals(facts), clusters, n - 1);
      RepeatsSnoc(Helpfuls(facts), clusters, n - 1);
    }
  }

  lemma OneMoreMerge(facts: Facts, clusters: seq<seq<FactId>>, plan: seq<Merge>, n: nat)
    requires Faithful(facts, clusters, plan) && n < |plan|
    requires HalfMerged(facts, clusters, plan, n, Applied(facts, plan[..n]))
    ensures MergesCluster(facts, clusters[n], plan[n])
    ensures var before, after := Applied(facts, plan[..n]), Applied(facts, plan[..n + 1]);
            && after == Merged(before, plan[n]) && |after| == |before| - |LoserSet(plan[n])|
            && Total(Retrievals(after)) == Total(Retrievals(before)) + RepeatsOver(Retrievals(facts), clusters[n])
            && Total(Helpfuls(after)) == Total(Helpfuls(before)) + RepeatsOver(Helpfuls(facts), clusters[n])
  {
    assert plan[..n + 1][..n] == plan[..n];
    MergeOneCluster(facts, Applied(facts, plan[..n]), clusters[n], plan[n]);
    MergedRows(facts, Applied(facts, plan[..n]), clusters[n], plan[n]);
  }

  lemma RepeatsSnoc(counts: Counts, clusters: seq<seq<FactId>>, n: nat)
    requires n < |clusters| && forall k :: 0 <= k < |clusters| ==> SetOf(clusters[k]) <= counts.Keys
    requires forall j :: 0 <= j < |clusters[n]| ==> clusters[n][j] in counts
    ensures RepeatsIn(counts, clusters[..n + 1]) == RepeatsIn(counts, clusters[..n]) + RepeatsOver(counts, clusters[n])
  {
    assert clusters[..n + 1][..n] == clusters[..n];
  }

  lemma {:induction false} SizeOfSet(xs: seq<FactId>)
    ensures |SetOf(xs)| <= |xs| && (|SetOf(xs)| == |xs| <==> Distinct(xs))
  {
    if xs != [] {
      var init, last := xs[..|xs| - 1], xs[|xs| - 1];
      SizeOfSet(init);
      SetOfSnoc(xs);
      if last in init {
        assert SetOf(xs) == SetOf(init);
      }
    }
  }

  ghost predicate NoLoserTwice(plan: seq<Merge>, n: nat)
    requires n <= |plan|
  {
    forall k :: 0 <= k < n ==> Distinct(plan[k].losers)
  }

  lemma {:induction false} SizeAfter(facts: Facts, clusters: seq<seq<FactId>>, plan: seq<Merge>, n: nat)
    requires Faithful(facts, clusters, plan) && n <= |plan|
    ensures var size := |Applied(facts, plan[..n])|;
            size >= |facts| - DropCount(plan[..n])
            && (size == |facts| - DropCount(plan[..n]) <==> NoLoserTwice(plan, n))
  {
    if n > 0 {
      SizeAfter(facts, clusters, plan, n - 1);
      FirstMerges(facts, clusters, plan, n - 1);
      OneMoreMerge(facts, clusters, plan, n - 1);
      DropCountSnoc(plan, n - 1);
      SizeOfLosers(plan[n - 1]);
      OneMoreDistinct(plan, n - 1);
      hide *;
    }
  }

  lemma OneMoreDistinct(plan: seq<Merge>, n: nat)
    requires n < |plan|
    ensures NoLoserTwice(plan, n + 1) <==> NoLoserTwice(plan, n) && Distinct(plan[n].losers)
  {
    hide Distinct;
  }

  lemma DropCountSnoc(plan: seq<Merge>, n: nat)
    requires n < |plan|
    ensures DropCount(plan[..n + 1]) == DropCount(plan[..n]) + |plan[n].losers|
  {
    assert plan[..n + 1][..n] == plan[..n];
  }

  lemma SizeOfLosers(m: Merge)
    ensures |LoserSet(m)| <= |m.losers| && (|LoserSet(m)| == |m.losers| <==> Distinct(m.losers))
  {
    SizeOfSet(m.losers);
    assert LoserSet(m) == SetOf(m.losers);
  }

  // ------------------------------------------------------------------
  // Theorems
  // ------------------------------------------------------------------

  /** The counts of the repeated entries vanish exactly when every fact that the
      list repeats has count zero. */
  lemma {:induction false} NothingRepeatedIff(counts: Counts, xs: seq<FactId>)
    requires forall k :: 0 <= k < |xs| ==> xs[k] in counts
    ensures RepeatsOver(counts, xs) == 0 <==> forall i, j :: 0 <= i < j < |xs| && xs[i] == xs[j] ==> counts[xs[j]] == 0
  {
    if xs != [] {
      var init := xs[..|xs| - 1];
      NothingRepeatedIff(counts, init);
    }
  }

  ghost predicate RepeatsAreZero(counts: Counts, xs: seq<FactId>) {
    forall i, j :: 0 <= i < j < |xs| && xs[i] == xs[j] && xs[j] in counts ==> counts[xs[j]] == 0
  }

  lemma {:induction false} NothingRepeatedAnywhereIff(counts: Counts, clusters: seq<seq<FactId>>)
    requires forall k :: 0 <= k < |clusters| ==> SetOf(clusters[k]) <= counts.Keys
    ensures RepeatsIn(counts, clusters) == 0 <==> forall k :: 0 <= k < |clusters| ==> RepeatsAreZero(counts, clusters[k])
  {
    if clusters != [] {
      var last := clusters[|clusters| - 1];
      NothingRepeatedAnywhereIff(counts, clusters[..|clusters| - 1]);
      assert forall j :: 0 <= j < |last| ==> last[j] in SetOf(last);
      NothingRepeatedIff(counts, last);
    }
  }

  /** Merging adds to each total exactly the counts of the repeated members; so
      a total is conserved if and only if every fact that a cluster lists twice
      counts zero in it. */
  lemma MergeConservesIff(facts: Facts, clusters: seq<seq<FactId>>, plan: seq<Merge>)
    requires Faithful(facts, clusters, plan)
    ensures Total(Retrievals(Applied(facts, plan))) == Total(Retrievals(facts)) <==>
              forall k :: 0 <= k < |clusters| ==> RepeatsAreZero(Retrievals(facts), clusters[k])
    ensures Total(Helpfuls(Applied(facts, plan))) == Total(Helpfuls(facts)) <==>
              forall k :: 0 <= k < |clusters| ==> RepeatsAreZero(Helpfuls(facts), clusters[k])
    ensures Total(Retrievals(Applied(facts, plan))) >= Total(Retrievals(facts)) && Total(Helpfuls(Applied(facts, plan))) >= Total(Helpfuls(facts))
  {
    ListedClusters(facts, clusters, plan);
    TotalsAfter(facts, clusters, plan, |plan|);
    assert plan[..|plan|] == plan && clusters[..|plan|] == clusters;
    NothingRepeatedAnywhereIff(Retrievals(facts), clusters);
    NothingRepeatedAnywhereIff(Helpfuls(facts), clusters);
  }

  /** The table ends with the projected number of facts if and only if no merge
      lists a loser twice. */
  lemma ProjectedCountIff(facts: Facts, clusters: seq<seq<FactId>>, plan: seq<Merge>)
    requires Faithful(facts, clusters, plan)
    ensures |Applied(facts, plan)| == |facts| - DropCount(plan) <==> NoLoserTwice(plan, |plan|)
  {
    SizeAfter(facts, clusters, plan, |plan|);
    assert plan[..|plan|] == plan;
  }

  /** Each cluster ends as one row: its survivor, with the members' summed counts
      and every tag of every member. The losers are gone, and a fact in no
      cluster keeps its row. */
  lemma EachClusterBecomesItsSurvivor(facts: Facts, clusters: seq<seq<FactId>>, plan: seq<Merge>)
    requires Faithful(facts, clusters, plan)
    ensures var after := Applied(facts, plan);
            && (forall k :: 0 <= k < |clusters| ==> MergedInto(facts, after, clusters[k], plan[k]))
            && after.Keys == facts.Keys - AllLosers(plan)
            && (forall x :: x in facts && InNone(clusters, |clusters|, x) ==> x in after && after[x] == facts[x])
  {
    FirstMerges(facts, clusters, plan, |plan|);
    assert plan[..|plan|] == plan;
  }

  /** From pairwise distinct embedded active facts the planned merge is faithful,
      conserves both totals and meets the projected count. */
  lemma DistinctFactsConserve(facts: Facts, ids: seq<FactId>, links: UF.Links, heads: seq<nat>,
                              clusters: seq<seq<FactId>>, cutoff: int, suspiciousSize: nat)
    requires Distinct(ids) && AllActiveIn(facts, ids) && AreComponents(links, ids, heads, clusters)
    requires Plannable(facts, clusters)
    ensures var plan := Planned(facts, clusters, cutoff, suspiciousSize);
            var after := Applied(facts, plan);
            && Faithful(facts, clusters, plan)
            && Total(Retrievals(after)) == Total(Retrievals(facts)) && Total(Helpfuls(after)) == Total(Helpfuls(facts))
            && |after| == |facts| - DropCount(plan)
  {
    var plan := Planned(facts, clusters, cutoff, suspiciousSize);
    ComponentsMakeFaithful(facts, links, ids, heads, clusters, cutoff, suspiciousSize);
    MergeConservesIff(facts, clusters, plan);
    ProjectedCountIff(facts, clusters, plan);
    forall k | 0 <= k < |clusters|
      ensures Distinct(clusters[k]) && Distinct(plan[k].losers)
    {
      MembersAreDistinct(links, ids, ids[heads[k]]);
      LosersAreDistinct(facts, clusters[k], cutoff);
    }
  }

  lemma LosersAreDistinct(facts: Facts, members: seq<FactId>, cutoff: int)
    requires members != [] && Listed(facts, members) && Distinct(members)
    ensures Distinct(ChooseSurvivor(facts, members, cutoff).1)
  {
    KeepIsDistinct(members, set x | x in facts && facts[x].active);
    var xs := Considered(facts, members);
    KeepIsDistinct(xs, (set x | x in xs) - {ChooseSurvivor(facts, members, cutoff).0});
  }

  lemma {:induction false} KeepIsDistinct(xs: seq<FactId>, wanted: set<FactId>)
    requires Distinct(xs)
    ensures Distinct(Keep(xs, wanted))
  {
    if xs != [] {
      KeepIsDistinct(xs[..|xs| - 1], wanted);
    }
  }

  lemma ComponentsMakeFaithful(facts: Facts, links: UF.Links, ids: seq<FactId>, heads: seq<nat>, clusters: seq<seq<FactId>>, cutoff: int, suspiciousSize: nat)
    requires AllActiveIn(facts, ids) && AreComponents(links, ids, heads, clusters)
    requires Plannable(facts, clusters)
    ensures Faithful(facts, clusters, Planned(facts, clusters, cutoff, suspiciousSize))
  {
    ClustersAreListed(facts, links, ids, heads, clusters);
    forall k | 0 <= k < |clusters|
      ensures AllActiveIn(facts, clusters[k])
    {
      assert forall j :: 0 <= j < |clusters[k]| ==> clusters[k][j] in ids;
    }
    forall k, l | 0 <= k < l < |clusters|
      ensures SetOf(clusters[k]) !! SetOf(clusters[l])
    {
      forall x | x in SetOf(clusters[k])
        ensures x !in SetOf(clusters[l])
      {
        ComponentsAreDisjoint(links, ids, heads, clusters, k, l, x);
      }
    }
    PlannedIsFaithful(facts, clusters, cutoff, suspiciousSize);
  }

  // ------------------------------------------------------------------
  // A fact with two vectors
  // ------------------------------------------------------------------

  function DemoFacts(): Facts {
    map[1 := Fact(true, "", 1.0, 3, 0, 0)]
  }

  /** Fact 1 listed twice forms a cluster of itself, and its count of 3 doubles. */
  lemma RepeatedFactDoubles(links: UF.Links)
    ensures AreComponents(links, [1, 1], [0], [[1, 1]])
    ensures Plannable(DemoFacts(), [[1, 1]])
    ensures var after := Applied(DemoFacts(), Planned(DemoFacts(), [[1, 1]], 0, 25));
            Total(Retrievals(DemoFacts())) == 3 && Total(Retrievals(after)) == 6
  {
    DemoComponents(links);
    DemoTotals();
    DemoFaithful();
    var facts := DemoFacts();
    var plan := Planned(facts, [[1, 1]], 0, 25);
    assert plan[..1] == plan && plan[..0] == [] && |plan| == 1;
    assert Applied(facts, []) == facts;
    hide *;
    FirstMerges(facts, [[1, 1]], plan, 0);
    OneMoreMerge(facts, [[1, 1]], plan, 0);
  }

  lemma DemoFaithful()
    ensures Plannable(DemoFacts(), [[1, 1]]) && Faithful(DemoFacts(), [[1, 1]], Planned(DemoFacts(), [[1, 1]], 0, 25))
  {
    hide Planned, MergesCluster;
    PlannedIsFaithful(DemoFacts(), [[1, 1]], 0, 25);
  }

  lemma DemoTotals()
    ensures Retrievals(DemoFacts()) == map[1 := 3] && Total(map[1 := 3]) == 3
    ensures RepeatsOver(map[1 := 3], [1, 1]) == 3
  {
    var counts: Counts := map[1 := 3];
    assert [1, 1][..1] == [1] && [1][..0] == [];
    assert RepeatsOver(counts, [1]) == 0;
    TotalSplit(counts, 1);
    assert counts - {1} == map[];
  }

  lemma DemoComponents(links: UF.Links)
    ensures AreComponents(links, [1, 1], [0], [[1, 1]])
  {
    UF.ConnectedToItself(links, 1);
    assert [1, 1][..1] == [1] && [1][..0] == [];
    hide UF.Connected;
    assert Members(links, [1], 1) == [1];
    assert Members(links, [1, 1], 1) == [1, 1];
    assert !IsHead(links, [1, 1], 1) by {
      assert UF.Connected(links, [1, 1][0], [1, 1][1]);
    }
  }

  // ------------------------------------------------------------------
  // The guarded run
  // ------------------------------------------------------------------

  datatype Guards = Guards(livePath: bool, dryRun: bool, backupExists: bool, dropMin: int, dropMax: int, maxDropFraction: real)

  datatype Outcome = Refused | DryRun(drops: nat, projected: int) | Done(drops: nat, projected: int, finalCount: nat)

  predicate Allows(g: Guards, drops: nat, starting: nat) {
    && g.backupExists && g.dropMin <= drops <= g.dropMax
    && (starting > 0 ==> drops as real <= g.maxDropFraction * starting as real)
  }

  ghost predicate SameTotals(before: Facts, after: Facts) {
    Total(Retrievals(after)) == Total(Retrievals(before)) && Total(Helpfuls(after)) == Total(Helpfuls(before))
  }

  lemma PlanIsSound(facts: Facts, ids: seq<FactId>, links: UF.Links, heads: seq<nat>, clusters: seq<seq<FactId>>, cutoff: int, suspiciousSize: nat)
    requires AllActiveIn(facts, ids) && AreComponents(links, ids, heads, clusters) && Plannable(facts, clusters)
    ensures var plan := Planned(facts, clusters, cutoff, suspiciousSize);
            var after := Applied(facts, plan);
            && after.Keys <= facts.Keys
            && (Distinct(ids) ==> SameTotals(facts, after) && |after| == |facts| - DropCount(plan))
  {
    ComponentsMakeFaithful(facts, links, ids, heads, clusters, cutoff, suspiciousSize);
    EachClusterBecomesItsSurvivor(facts, clusters, Planned(facts, clusters, cutoff, suspiciousSize));
    if Distinct(ids) {
      DistinctFactsConserve(facts, ids, links, heads, clusters, cutoff, suspiciousSize);
    }
  }

  /** Plans, and unless this is a dry run or a guard refuses, applies the plan. */
  method ExecuteMerge(store: FactStore, ids: seq<FactId>, sims: Matrix, threshold: real, cutoff: int, suspiciousSize: nat, g: Guards)
    returns (outcome: Outcome)
    requires Square(sims, |ids|) && AllActiveIn(store.facts, ids)
    modifies store
    ensures !outcome.Done? ==> store.facts == old(store.facts) && store.vectors == old(store.vectors) && store.entities == old(store.entities) && store.index == old(store.index)
    ensures outcome.Done? ==> !g.livePath && !g.dryRun && Allows(g, outcome.drops, |old(store.facts)|)
    ensures outcome.Done? ==> outcome.finalCount == |store.facts| && store.facts.Keys <= old(store.facts).Keys
    ensures outcome.Done? && Distinct(ids) ==> outcome.finalCount == outcome.projected && SameTotals(old(store.facts), store.facts)
  {
    if g.livePath {
      return Refused;
    }
    assert Listed(store.facts, ids);
    var plan := PlanMerge(store.facts, ids, sims, threshold, cutoff, suspiciousSize);
    ghost var links := SimilarLinks(ids, sims, threshold);
    ghost var clusters :| PlansClusters(store.facts, links, ids, clusters, cutoff, suspiciousSize, plan);
    ghost var heads :| AreComponents(links, ids, heads, clusters);
    var starting := |store.facts|;
    var drops := DropCount(plan);
    if g.dryRun {
      return DryRun(drops, starting - drops);
    }
    if !Allows(g, drops, starting) {
      return Refused;
    }
    PlanIsSound(store.facts, ids, links, heads, clusters, cutoff, suspiciousSize);
    store.ApplyMerge(plan);
    outcome := Done(drops, starting - drops, |store.facts|);
  }
}
