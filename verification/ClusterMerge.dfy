/** Survivor choice, the merge plan and its application to the fact table. */
module ClusterMerge {
  import opened Common
  import opened Clusters
  import UnionFind
  import Tags

  /** `active` is false once a fact is invalid or carries a legacy "superseded" prefix. */
  datatype Fact = Fact(active: bool, tags: string, trust: real, retrieval: nat, helpful: nat, createdAt: int)

  type Facts = map<FactId, Fact>

  datatype Merge = Merge(survivor: FactId, losers: seq<FactId>, retrieval: nat, helpful: nat, tags: string, suspicious: bool)

  // ------------------------------------------------------------------
  // Choosing the survivor
  // ------------------------------------------------------------------

  /** The entries of xs that are in the set, in order and with repetitions. */
  function Keep(xs: seq<FactId>, wanted: set<FactId>): (r: seq<FactId>)
    ensures forall x :: x in r <==> x in xs && x in wanted
    ensures |r| <= |xs|
  {
    if xs == [] then []
    else
      var last := xs[|xs| - 1];
      assert xs == xs[..|xs| - 1] + [last];
      Keep(xs[..|xs| - 1], wanted) + (if last in wanted then [last] else [])
  }

  ghost predicate Listed(facts: Facts, xs: seq<FactId>) {
    forall k :: 0 <= k < |xs| ==> xs[k] in facts
  }

  /** The sort key: a higher score first, then an earlier creation. */
  datatype Rank = Rank(score: real, createdAt: int) {
    predicate Before(other: Rank) {
      score > other.score || (score == other.score && createdAt < other.createdAt)
    }
  }

  function RankOf(f: Fact): Rank {
    Rank(f.trust * f.retrieval as real, f.createdAt)
  }

  predicate Better(a: Fact, b: Fact) {
    RankOf(a).Before(RankOf(b))
  }

  lemma BeforeIsAnOrder(x: Rank, y: Rank, z: Rank)
    ensures x.Before(y) && !z.Before(y) ==> x.Before(z) && !z.Before(x)
    ensures x.Before(y) && y.Before(z) ==> x.Before(z)
    ensures !x.Before(x)
  {
  }

  /** The first of the best. */
  function Best(facts: Facts, xs: seq<FactId>): (b: FactId)
    requires xs != [] && Listed(facts, xs)
    ensures b in xs && b in facts
  {
    var last := xs[|xs| - 1];
    if |xs| == 1 then last
    else
      var b := Best(facts, xs[..|xs| - 1]);
      if Better(facts[last], facts[b]) then last else b
  }

  lemma {:induction false} BestIsFirstOfTheBest(facts: Facts, xs: seq<FactId>) returns (at: nat)
    requires xs != [] && Listed(facts, xs)
    ensures at < |xs| && xs[at] == Best(facts, xs)
    ensures forall k :: 0 <= k < |xs| ==> !Better(facts[xs[k]], facts[xs[at]])
    ensures forall k :: 0 <= k < at ==> Better(facts[xs[at]], facts[xs[k]])
  {
    var n := |xs| - 1;
    if n == 0 {
      at := 0;
    } else {
      at := BestIsFirstOfTheBest(facts, xs[..n]);
      var last, best := RankOf(facts[xs[n]]), RankOf(facts[xs[at]]);
      forall k | 0 <= k < n
        ensures !RankOf(facts[xs[k]]).Before(best)
        ensures k < at ==> best.Before(RankOf(facts[xs[k]]))
        ensures last.Before(best) ==> last.Before(RankOf(facts[xs[k]])) && !RankOf(facts[xs[k]]).Before(last)
      {
        assert xs[..n][k] == xs[k];
        BeforeIsAnOrder(last, best, RankOf(facts[xs[k]]));
      }
      BeforeIsAnOrder(last, last, best);
      at := if last.Before(best) then n else at;
    }
  }

  function Considered(facts: Facts, members: seq<FactId>): seq<FactId> {
    var active := Keep(members, set x | x in facts && facts[x].active);
    if active != [] then active else members
  }

  /** Facts older than the cutoff win over the flood when both are present. */
  function Candidates(facts: Facts, members: seq<FactId>, cutoff: int): seq<FactId> {
    var xs := Considered(facts, members);
    var older := Keep(xs, set x | x in facts && facts[x].createdAt < cutoff);
    var flood := Keep(xs, set x | x in facts && facts[x].createdAt >= cutoff);
    if older != [] && flood != [] then older else xs
  }

  function ChooseSurvivor(facts: Facts, members: seq<FactId>, cutoff: int): (r: (FactId, seq<FactId>))
    requires members != [] && Listed(facts, members)
    ensures r.0 in members && r.0 !in r.1 && forall x :: x in r.1 ==> x in members
  {
    var candidates := Candidates(facts, members, cutoff);
    assert forall k :: 0 <= k < |candidates| ==> candidates[k] in candidates;
    var survivor := Best(facts, candidates);
    var xs := Considered(facts, members);
    (survivor, Keep(xs, (set x | x in xs) - {survivor}))
  }

  /** Who survives: an active fact if there is one; of those an older one if the
      cluster spans the cutoff; of those none is better. Everything else that
      is active loses. */
  lemma SurvivorIsTheBestOldest(facts: Facts, members: seq<FactId>, cutoff: int)
    requires members != [] && Listed(facts, members) && forall k :: 0 <= k < |members| ==> facts[members[k]].active
    ensures var (survivor, losers) := ChooseSurvivor(facts, members, cutoff);
            && (forall x :: x in losers <==> x in members && x != survivor)
            && ((exists x :: x in members && facts[x].createdAt < cutoff) ==> facts[survivor].createdAt < cutoff)
            && (forall x :: x in members && (facts[x].createdAt < cutoff || facts[survivor].createdAt >= cutoff) ==> !Better(facts[x], facts[survivor]))
  {
    AllActive(facts, members);
    var candidates := Candidates(facts, members, cutoff);
    assert Listed(facts, candidates) by {
      assert forall k :: 0 <= k < |candidates| ==> candidates[k] in candidates;
    }
    var at := BestIsFirstOfTheBest(facts, candidates);
    var survivor := Best(facts, candidates);
    var flood := Keep(members, set x | x in facts && facts[x].createdAt >= cutoff);
    forall x | x in members && (facts[x].createdAt < cutoff || facts[survivor].createdAt >= cutoff)
      ensures !Better(facts[x], facts[survivor])
    {
      assert x in candidates || x in flood;
      assert x in candidates;
    }
  }

  lemma {:induction false} AllActive(facts: Facts, members: seq<FactId>)
    requires members != [] && Listed(facts, members) && forall k :: 0 <= k < |members| ==> facts[members[k]].active
    ensures Considered(facts, members) == members
  {
    KeepAll(members, set x | x in facts && facts[x].active);
  }

  lemma {:induction false} KeepAll(xs: seq<FactId>, wanted: set<FactId>)
    requires forall k :: 0 <= k < |xs| ==> xs[k] in wanted
    ensures Keep(xs, wanted) == xs
  {
    if xs != [] {
      var init, last := xs[..|xs| - 1], xs[|xs| - 1];
      KeepAll(init, wanted);
      KeepOne(xs, wanted);
      hide Keep;
      assert xs == init + [last];
    }
  }

  lemma KeepOne(xs: seq<FactId>, wanted: set<FactId>)
    requires xs != [] && xs[|xs| - 1] in wanted
    ensures Keep(xs, wanted) == Keep(xs[..|xs| - 1], wanted) + [xs[|xs| - 1]]
  {
  }

  // ------------------------------------------------------------------
  // The plan
  // ------------------------------------------------------------------

  function SumOver(counts: map<FactId, nat>, xs: seq<FactId>): nat
    requires forall k :: 0 <= k < |xs| ==> xs[k] in counts
  {
    if xs == [] then 0 else SumOver(counts, xs[..|xs| - 1]) + counts[xs[|xs| - 1]]
  }

  function Retrievals(facts: Facts): map<FactId, nat> {
    map x | x in facts :: facts[x].retrieval
  }

  function Helpfuls(facts: Facts): map<FactId, nat> {
    map x | x in facts :: facts[x].helpful
  }

  function MemberTags(facts: Facts, members: seq<FactId>): seq<string>
    requires Listed(facts, members)
  {
    seq(|members|, k requires 0 <= k < |members| => facts[members[k]].tags)
  }

  function MergeOf(facts: Facts, members: seq<FactId>, cutoff: int, suspiciousSize: nat): Merge
    requires members != [] && Listed(facts, members)
  {
    var (survivor, losers) := ChooseSurvivor(facts, members, cutoff);
    Merge(survivor, losers, SumOver(Retrievals(facts), members), SumOver(Helpfuls(facts), members),
          Tags.Join(Tags.Gathered(MemberTags(facts, members))), |members| > suspiciousSize)
  }

  ghost predicate Plannable(facts: Facts, clusters: seq<seq<FactId>>) {
    forall k :: 0 <= k < |clusters| ==> clusters[k] != [] && Listed(facts, clusters[k])
  }

  function Planned(facts: Facts, clusters: seq<seq<FactId>>, cutoff: int, suspiciousSize: nat): seq<Merge>
    requires Plannable(facts, clusters)
  {
    seq(|clusters|, k requires 0 <= k < |clusters| => MergeOf(facts, clusters[k], cutoff, suspiciousSize))
  }

  /** The plan merges each component of the similarity graph. */
  ghost predicate PlansClusters(facts: Facts, links: UnionFind.Links, ids: seq<FactId>, clusters: seq<seq<FactId>>,
                                cutoff: int, suspiciousSize: nat, plan: seq<Merge>)
  {
    IsClustering(links, ids, clusters) && Plannable(facts, clusters) && plan == Planned(facts, clusters, cutoff, suspiciousSize)
  }

  method PlanMerge(facts: Facts, ids: seq<FactId>, sims: Matrix, threshold: real, cutoff: int, suspiciousSize: nat)
    returns (plan: seq<Merge>)
    requires Square(sims, |ids|) && Listed(facts, ids)
    ensures exists clusters :: PlansClusters(facts, SimilarLinks(ids, sims, threshold), ids, clusters, cutoff, suspiciousSize, plan)
  {
    var clusters := BuildClusters(ids, sims, threshold);
    ghost var links := SimilarLinks(ids, sims, threshold);
    hide Planned;
    ghost var heads :| AreComponents(links, ids, heads, clusters);
    ClustersAreListed(facts, links, ids, heads, clusters);
    plan := PlanEach(facts, clusters, cutoff, suspiciousSize);
    assert PlansClusters(facts, links, ids, clusters, cutoff, suspiciousSize, plan);
  }

  /** The loop over the clusters. */
  method PlanEach(facts: Facts, clusters: seq<seq<FactId>>, cutoff: int, suspiciousSize: nat) returns (plan: seq<Merge>)
    requires Plannable(facts, clusters)
    ensures plan == Planned(facts, clusters, cutoff, suspiciousSize)
  {
    hide MergeOf, Listed;
    plan := [];
    for n := 0 to |clusters|
      invariant plan == Planned(facts, clusters, cutoff, suspiciousSize)[..n]
    {
      var merge := MergeCluster(facts, clusters[n], cutoff, suspiciousSize);
      plan := plan + [merge];
    }
  }

  method MergeCluster(facts: Facts, members: seq<FactId>, cutoff: int, suspiciousSize: nat) returns (merge: Merge)
    requires members != [] && Listed(facts, members)
    ensures merge == MergeOf(facts, members, cutoff, suspiciousSize)
  {
    hide ChooseSurvivor, SumOver;
    var (survivor, losers) := ChooseSurvivor(facts, members, cutoff);
    var retrieval := SumCounts(Retrievals(facts), members);
    var helpful := SumCounts(Helpfuls(facts), members);
    var tags := Tags.MergeTags(MemberTags(facts, members));
    merge := Merge(survivor, losers, retrieval, helpful, tags, |members| > suspiciousSize);
  }

  method SumCounts(counts: map<FactId, nat>, xs: seq<FactId>) returns (total: nat)
    requires forall k :: 0 <= k < |xs| ==> xs[k] in counts
    ensures total == SumOver(counts, xs)
  {
    total := 0;
    for n := 0 to |xs|
      invariant total == SumOver(counts, xs[..n])
    {
      assert xs[..n + 1][..n] == xs[..n];
      total := total + counts[xs[n]];
    }
    assert xs[..|xs|] == xs;
  }

  lemma ClustersAreListed(facts: Facts, links: UnionFind.Links, ids: seq<FactId>, heads: seq<nat>, clusters: seq<seq<FactId>>)
    requires AreComponents(links, ids, heads, clusters) && Listed(facts, ids)
    ensures Plannable(facts, clusters)
    ensures forall k, j :: 0 <= k < |clusters| && 0 <= j < |clusters[k]| ==> clusters[k][j] in ids
  {
    forall k, j | 0 <= k < |clusters| && 0 <= j < |clusters[k]|
      ensures clusters[k][j] in ids
    {
      MembersAreListed(links, ids, ids[heads[k]], clusters[k][j]);
    }
    forall k | 0 <= k < |clusters|
      ensures clusters[k] != []
    {
      assert HeadsLargeComponent(links, ids, heads[k]);
    }
  }

  // ------------------------------------------------------------------
  // Applying the plan
  // ------------------------------------------------------------------

  function SetOf(xs: seq<FactId>): set<FactId> {
    set x | x in xs
  }

  function LoserSet(m: Merge): set<FactId> {
    SetOf(m.losers)
  }

  /** The survivor's new row, then the losers' rows deleted. */
  function Merged(facts: Facts, m: Merge): Facts {
    (if m.survivor in facts then
       facts[m.survivor := facts[m.survivor].(retrieval := m.retrieval, helpful := m.helpful, tags := m.tags)]
     else facts) - LoserSet(m)
  }

  function Applied(facts: Facts, plan: seq<Merge>): Facts {
    if plan == [] then facts else Merged(Applied(facts, plan[..|plan| - 1]), plan[|plan| - 1])
  }

  function AllLosers(plan: seq<Merge>): set<FactId> {
    if plan == [] then {} else AllLosers(plan[..|plan| - 1]) + LoserSet(plan[|plan| - 1])
  }

  function DropCount(plan: seq<Merge>): nat {
    if plan == [] then 0 else DropCount(plan[..|plan| - 1]) + |plan[|plan| - 1].losers|
  }

  /** An index that is open loses the entries that are gone. */
  predicate Unindexed(before: Option<set<FactId>>, after: Option<set<FactId>>, gone: set<FactId>) {
    (before.Some? <==> after.Some?) && (after.Some? ==> after.value == before.value - gone)
  }

  class FactStore {
    var facts: Facts
    /** The facts that have a vector, and those that have entity links. */
    var vectors: set<FactId>
    var entities: set<FactId>
    /** The facts in the derived vector index, if it could be opened. */
    var index: Option<set<FactId>>

    constructor (facts: Facts, vectors: set<FactId>, entities: set<FactId>, index: Option<set<FactId>>)
      ensures this.facts == facts && this.vectors == vectors && this.entities == entities && this.index == index
    {
      this.facts, this.vectors, this.entities, this.index := facts, vectors, entities, index;
    }

    /** Deletes the losers one by one, with their vectors and links. */
    method DeleteLosers(losers: seq<FactId>)
      modifies this
      ensures facts == old(facts) - SetOf(losers)
      ensures vectors == old(vectors) - SetOf(losers) && entities == old(entities) - SetOf(losers)
      ensures Unindexed(old(index), index, SetOf(losers))
    {
      for j := 0 to |losers|
        invariant facts == old(facts) - SetOf(losers[..j])
        invariant vectors == old(vectors) - SetOf(losers[..j]) && entities == old(entities) - SetOf(losers[..j])
        invariant Unindexed(old(index), index, SetOf(losers[..j]))
      {
        assert losers[..j + 1] == losers[..j] + [losers[j]];
        facts := facts - {losers[j]};
        vectors := vectors - {losers[j]};
        if index.Some? {
          index := Some(index.value - {losers[j]});
        }
        entities := entities - {losers[j]};
      }
      assert losers[..|losers|] == losers;
    }

    method ApplyMerge(plan: seq<Merge>)
      modifies this
      ensures facts == Applied(old(facts), plan)
      ensures vectors == old(vectors) - AllLosers(plan) && entities == old(entities) - AllLosers(plan)
      ensures Unindexed(old(index), index, AllLosers(plan))
    {
      for n := 0 to |plan|
        invariant facts == Applied(old(facts), plan[..n])
        invariant vectors == old(vectors) - AllLosers(plan[..n]) && entities == old(entities) - AllLosers(plan[..n])
        invariant Unindexed(old(index), index, AllLosers(plan[..n]))
      {
        assert plan[..n + 1][..n] == plan[..n];
        var m := plan[n];
        if m.survivor in facts {
          facts := facts[m.survivor := facts[m.survivor].(retrieval := m.retrieval, helpful := m.helpful, tags := m.tags)];
        }
        DeleteLosers(m.losers);
      }
      assert plan[..|plan|] == plan;
    }
  }
}
