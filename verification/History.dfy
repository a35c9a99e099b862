/** Supersession links and the history walk over them. */
module History {
  import opened Common
  import Dictionary
  import Json

  type FactId = int

  datatype Fact = Fact(supersededBy: Option<FactId>, invalidAt: Option<string>, createdAt: Option<string>)

  type Facts = map<FactId, Fact>

  /** The table numbers its rows from 1. */
  ghost predicate PositiveIds(facts: Facts) {
    forall id :: id in facts ==> id > 0
  }

  // ------------------------------------------------------------------
  // The partial function superseded_by
  // ------------------------------------------------------------------

  /** The fact that replaced a, if the link does not dangle. */
  function Next(facts: Facts, a: FactId): Option<FactId> {
    if a in facts && facts[a].supersededBy.Some? && facts[a].supersededBy.value in facts then facts[a].supersededBy else None
  }

  function After(facts: Facts, a: FactId, n: nat): Option<FactId>
    decreases n
  {
    if a !in facts then None
    else if n == 0 then Some(a)
    else if Next(facts, a).None? then None
    else After(facts, Next(facts, a).value, n - 1)
  }

  ghost predicate Reaches(facts: Facts, a: FactId, b: FactId) {
    exists n: nat :: After(facts, a, n) == Some(b)
  }

  lemma ReachesItself(facts: Facts, a: FactId)
    requires a in facts
    ensures Reaches(facts, a, a)
  {
    assert After(facts, a, 0) == Some(a);
  }

  lemma {:induction false} AfterSum(facts: Facts, a: FactId, m: nat, n: nat)
    requires After(facts, a, m).Some?
    ensures After(facts, a, m + n) == After(facts, After(facts, a, m).value, n)
    decreases m
  {
    if m > 0 {
      AfterSum(facts, Next(facts, a).value, m - 1, n);
    }
  }

  lemma {:induction false} AfterIsFact(facts: Facts, a: FactId, n: nat)
    requires After(facts, a, n).Some?
    ensures a in facts && After(facts, a, n).value in facts
    decreases n
  {
    if n > 0 {
      AfterIsFact(facts, Next(facts, a).value, n - 1);
    }
  }

  lemma ReachesThrough(facts: Facts, a: FactId, b: FactId, c: FactId)
    requires Reaches(facts, a, b) && Reaches(facts, b, c)
    ensures Reaches(facts, a, c)
  {
    var m: nat :| After(facts, a, m) == Some(b);
    var n: nat :| After(facts, b, n) == Some(c);
    AfterSum(facts, a, m, n);
  }

  lemma ReachesAreFacts(facts: Facts, a: FactId, b: FactId)
    requires Reaches(facts, a, b)
    ensures a in facts && b in facts
  {
    var n: nat :| After(facts, a, n) == Some(b);
    AfterIsFact(facts, a, n);
  }

  lemma NextIsReached(facts: Facts, a: FactId)
    requires Next(facts, a).Some?
    ensures Reaches(facts, a, Next(facts, a).value)
  {
    assert After(facts, a, 1) == After(facts, Next(facts, a).value, 0);
  }

  /** Reaching another fact goes through the next one. */
  lemma ReachesByNext(facts: Facts, a: FactId, b: FactId)
    requires Reaches(facts, a, b) && a != b
    ensures Next(facts, a).Some? && Reaches(facts, Next(facts, a).value, b)
  {
    var n: nat :| After(facts, a, n) == Some(b);
    assert After(facts, Next(facts, a).value, n - 1) == Some(b);
  }

  /** The chain of x: what x replaced, directly or not, and what replaced x. */
  ghost predicate Related(facts: Facts, x: FactId, y: FactId) {
    Reaches(facts, y, x) || Reaches(facts, x, y)
  }

  // ------------------------------------------------------------------
  // Sorting by creation and id
  // ------------------------------------------------------------------

  function CreatedKey(f: Fact): string {
    if f.createdAt.Some? then f.createdAt.value else ""
  }

  predicate Earlier(facts: Facts, a: FactId, b: FactId)
    requires a in facts && b in facts
  {
    var x, y := CreatedKey(facts[a]), CreatedKey(facts[b]);
    Json.Less(x, y) || (x == y && a < b)
  }

  lemma EarlierIsTotal(facts: Facts, a: FactId, b: FactId, c: FactId)
    requires a in facts && b in facts && c in facts
    ensures a == b || Earlier(facts, a, b) || Earlier(facts, b, a)
    ensures Earlier(facts, a, b) && Earlier(facts, b, c) ==> Earlier(facts, a, c)
  {
    var x, y, z := CreatedKey(facts[a]), CreatedKey(facts[b]), CreatedKey(facts[c]);
    Dictionary.LessTotal(x, y);
    if Json.Less(x, y) && Json.Less(y, z) {
      Dictionary.LessTransitive(x, y, z);
    }
  }

  ghost predicate IsEarliest(facts: Facts, ids: set<FactId>, e: FactId)
    requires ids <= facts.Keys
  {
    e in ids && forall k :: k in ids ==> k == e || Earlier(facts, e, k)
  }

  lemma {:induction false} EarliestExists(facts: Facts, ids: set<FactId>)
    requires ids != {} && ids <= facts.Keys
    ensures exists e :: IsEarliest(facts, ids, e)
  {
    assert (forall k :: k !in ids) ==> ids == {};
    var x :| x in ids;
    var others := ids - {x};
    if others == {} {
      assert forall k :: k in ids ==> k == x || k in others;
      assert IsEarliest(facts, ids, x);
    } else {
      EarliestExists(facts, others);
      var y :| IsEarliest(facts, others, y);
      EarlierIsTotal(facts, x, y, y);
      var e := if Earlier(facts, x, y) then x else y;
      forall k | k in ids
        ensures k == e || Earlier(facts, e, k)
      {
        EarlierIsTotal(facts, x, y, k);
      }
      assert IsEarliest(facts, ids, e);
    }
  }

  ghost predicate SortedIds(facts: Facts, ids: seq<FactId>) {
    && (forall k :: 0 <= k < |ids| ==> ids[k] in facts)
    && (forall j, k :: 0 <= j < k < |ids| ==> Earlier(facts, ids[j], ids[k]))
  }

  method SortIds(facts: Facts, ids: set<FactId>) returns (sorted: seq<FactId>)
    requires ids <= facts.Keys
    ensures SortedIds(facts, sorted) && forall id :: id in sorted <==> id in ids
  {
    hide Earlier;
    sorted := [];
    var todo := ids;
    while todo != {}
      invariant todo <= ids
      invariant SortedIds(facts, sorted)
      invariant forall id :: id in sorted <==> id in ids - todo
      invariant forall k, id :: 0 <= k < |sorted| && id in todo ==> Earlier(facts, sorted[k], id)
      decreases |todo|
    {
      EarliestExists(facts, todo);
      var e :| e in todo && forall k :: k in todo ==> k == e || Earlier(facts, e, k);
      sorted := sorted + [e];
      todo := todo - {e};
    }
  }

  // ------------------------------------------------------------------
  // The walk
  // ------------------------------------------------------------------

  ghost predicate ClosedBackward(facts: Facts, chain: set<FactId>) {
    forall y :: y in facts && facts[y].supersededBy.Some? && facts[y].supersededBy.value in chain ==> y in chain
  }

  ghost predicate ClosedForward(facts: Facts, chain: set<FactId>) {
    forall y :: y in chain && Next(facts, y).Some? ==> Next(facts, y).value in chain
  }

  ghost predicate AllReach(facts: Facts, chain: set<FactId>, x: FactId) {
    forall y :: y in chain ==> Reaches(facts, y, x)
  }

  ghost predicate AllRelated(facts: Facts, chain: set<FactId>, x: FactId) {
    forall y :: y in chain ==> Related(facts, x, y)
  }

  /** The rows whose link points into the chain. */
  function LinkingTo(facts: Facts, chain: set<FactId>): set<FactId> {
    set y | y in facts && facts[y].supersededBy.Some? && facts[y].supersededBy.value in chain
  }

  lemma LinkingReach(facts: Facts, chain: set<FactId>, x: FactId)
    requires chain <= facts.Keys && AllReach(facts, chain, x)
    ensures AllReach(facts, chain + LinkingTo(facts, chain), x)
  {
    forall y | y in LinkingTo(facts, chain)
      ensures Reaches(facts, y, x)
    {
      NextIsReached(facts, y);
      ReachesThrough(facts, y, Next(facts, y).value, x);
    }
  }

  /** Adds the rows that link into the chain, until there is none left. The
      chain is named by its ids. */
  method WalkBackward(facts: Facts, x: FactId) returns (chain: set<FactId>)
    requires x in facts
    ensures chain <= facts.Keys && forall y :: y in chain <==> Reaches(facts, y, x)
  {
    chain := {x};
    ReachesItself(facts, x);
    var changed := true;
    while changed
      invariant x in chain && chain <= facts.Keys && AllReach(facts, chain, x)
      invariant !changed ==> LinkingTo(facts, chain) <= chain
      decreases |facts.Keys - chain|, changed
    {
      changed := false;
      var found := LinkingTo(facts, chain) - chain;
      LinkingReach(facts, chain, x);
      if found != {} {
        Shrinks(facts.Keys, chain, found);
        chain := chain + found;
        changed := true;
      }
    }
    assert ClosedBackward(facts, chain);
    forall y | Reaches(facts, y, x)
      ensures y in chain
    {
      var n: nat :| After(facts, y, n) == Some(x);
      BackwardClosed(facts, chain, x, y, n);
    }
  }

  /** The links out of the chain; 0 counts as none. */
  function LinksFrom(facts: Facts, chain: set<FactId>): set<FactId> {
    set y | y in chain && y in facts && facts[y].supersededBy.Some? && facts[y].supersededBy.value != 0 :: facts[y].supersededBy.value
  }

  lemma LinksAreRelated(facts: Facts, chain: set<FactId>, x: FactId)
    requires PositiveIds(facts) && chain <= facts.Keys && AllRelated(facts, chain, x)
    ensures AllRelated(facts, chain + LinksFrom(facts, chain) * facts.Keys, x)
    ensures LinksFrom(facts, chain) * facts.Keys <= chain ==> ClosedForward(facts, chain)
  {
    forall z | z in LinksFrom(facts, chain) && z in facts
      ensures Related(facts, x, z)
    {
      var y :| y in chain && y in facts && facts[y].supersededBy == Some(z);
      NextIsRelated(facts, x, y);
    }
    if LinksFrom(facts, chain) * facts.Keys <= chain {
      forall y | y in chain && Next(facts, y).Some?
        ensures Next(facts, y).value in chain
      {
        assert Next(facts, y).value in LinksFrom(facts, chain);
      }
    }
  }

  /** Follows the links out of the chain, until they all stay inside or dangle. */
  method WalkForward(facts: Facts, x: FactId, start: set<FactId>) returns (chain: set<FactId>)
    requires PositiveIds(facts) && x in start && start <= facts.Keys
    requires forall y :: y in start <==> Reaches(facts, y, x)
    ensures chain <= facts.Keys && forall y :: y in chain <==> Related(facts, x, y)
  {
    chain := start;
    var changed := true;
    while changed
      invariant start <= chain <= facts.Keys && AllRelated(facts, chain, x)
      invariant !changed ==> ClosedForward(facts, chain)
      decreases |facts.Keys - chain|, changed
    {
      changed := false;
      var nextIds := LinksFrom(facts, chain) - chain;
      LinksAreRelated(facts, chain, x);
      if nextIds == {} {
        break;
      }
      var found := nextIds * facts.Keys;
      if found != {} {
        Shrinks(facts.Keys, chain, found);
        chain := chain + found;
        changed := true;
      }
    }
    forall y | Reaches(facts, x, y)
      ensures y in chain
    {
      var n: nat :| After(facts, x, n) == Some(y);
      ForwardClosed(facts, chain, x, n);
    }
  }

  /** Empty for an unknown fact; otherwise the whole chain, oldest first. Both
      loops stop on cycles and at dangling links. */
  method FactHistory(facts: Facts, x: FactId) returns (history: seq<FactId>)
    requires PositiveIds(facts)
    ensures SortedIds(facts, history)
    ensures forall y :: y in history <==> Related(facts, x, y)
  {
    if x !in facts {
      forall y
        ensures !Related(facts, x, y)
      {
        if Reaches(facts, y, x) { ReachesAreFacts(facts, y, x); }
        if Reaches(facts, x, y) { ReachesAreFacts(facts, x, y); }
      }
      return [];
    }
    var older := WalkBackward(facts, x);
    ReachesItself(facts, x);
    var chain := WalkForward(facts, x, older);
    history := SortIds(facts, chain);
  }

  lemma Shrinks(all: set<FactId>, chain: set<FactId>, found: set<FactId>)
    requires found != {} && found <= all && found !! chain
    ensures |all - (chain + found)| < |all - chain|
  {
    assert all - chain == (all - (chain + found)) + found;
  }

  lemma {:induction false} BackwardClosed(facts: Facts, chain: set<FactId>, x: FactId, y: FactId, n: nat)
    requires x in chain && After(facts, y, n) == Some(x)
    requires ClosedBackward(facts, chain)
    ensures y in chain
    decreases n
  {
    if n > 0 {
      BackwardClosed(facts, chain, x, Next(facts, y).value, n - 1);
    }
  }

  lemma {:induction false} ForwardClosed(facts: Facts, chain: set<FactId>, x: FactId, n: nat)
    requires x in chain && After(facts, x, n).Some?
    requires ClosedForward(facts, chain)
    ensures After(facts, x, n).value in chain
    decreases n
  {
    if n > 0 {
      ForwardClosed(facts, chain, Next(facts, x).value, n - 1);
    }
  }

  lemma NextIsRelated(facts: Facts, x: FactId, y: FactId)
    requires Related(facts, x, y) && Next(facts, y).Some?
    ensures Related(facts, x, Next(facts, y).value)
  {
    NextIsReached(facts, y);
    if Reaches(facts, x, y) {
      ReachesThrough(facts, x, y, Next(facts, y).value);
    } else if x != y {
      ReachesByNext(facts, y, x);
    }
  }

  // ------------------------------------------------------------------
  // When every member of a chain tells the same history
  // ------------------------------------------------------------------

  ghost predicate SameHistory(facts: Facts, x: FactId, y: FactId) {
    forall z :: Related(facts, x, z) <==> Related(facts, y, z)
  }

  ghost predicate Uniform(facts: Facts) {
    forall x, y {:trigger SameHistory(facts, x, y)} :: Related(facts, x, y) ==> SameHistory(facts, x, y)
  }

  ghost predicate OnCycle(facts: Facts, a: FactId) {
    Next(facts, a).Some? && Reaches(facts, Next(facts, a).value, a)
  }

  /** Two different facts off every cycle that were replaced by one fact, or by
      facts of one cycle. */
  ghost predicate Merge(facts: Facts, a: FactId, b: FactId) {
    && a != b && !OnCycle(facts, a) && !OnCycle(facts, b)
    && Next(facts, a).Some? && Next(facts, b).Some?
    && Reaches(facts, Next(facts, a).value, Next(facts, b).value)
    && Reaches(facts, Next(facts, b).value, Next(facts, a).value)
  }

  ghost predicate NoMerge(facts: Facts) {
    forall a, b {:trigger Merge(facts, a, b)} :: !Merge(facts, a, b)
  }

  lemma CycleThrough(facts: Facts, a: FactId, b: FactId)
    requires Reaches(facts, a, b) && a != b && Next(facts, a).Some? && Next(facts, b).Some?
    requires Reaches(facts, Next(facts, b).value, Next(facts, a).value)
    ensures OnCycle(facts, b)
  {
    ReachesByNext(facts, a, b);
    ReachesThrough(facts, Next(facts, b).value, Next(facts, a).value, b);
  }

  /** Merging facts do not reach each other. */
  lemma MergedApart(facts: Facts, a: FactId, b: FactId)
    requires Merge(facts, a, b)
    ensures !Reaches(facts, a, b)
  {
    if Reaches(facts, a, b) {
      CycleThrough(facts, a, b);
    }
  }

  lemma UniformAt(facts: Facts, x: FactId, y: FactId, z: FactId)
    requires Uniform(facts) && Related(facts, x, y)
    ensures Related(facts, x, z) <==> Related(facts, y, z)
  {
    assert SameHistory(facts, x, y);
  }

  lemma UniformHasNoMerge(facts: Facts, a: FactId, b: FactId)
    requires Uniform(facts)
    ensures !Merge(facts, a, b)
  {
    if Merge(facts, a, b) {
      MergedApart(facts, a, b);
      MergedApart(facts, b, a);
      var c := Next(facts, a).value;
      NextIsReached(facts, a);
      NextIsReached(facts, b);
      ReachesThrough(facts, b, Next(facts, b).value, c);
      assert Related(facts, c, a) && Related(facts, c, b);
      UniformAt(facts, c, a, b);
    }
  }

  /** Without merges any two facts that reach a third are related. */
  lemma {:induction false} CommonEndRelates(facts: Facts, y: FactId, m: nat, z: FactId, n: nat)
    requires NoMerge(facts) && After(facts, y, m).Some? && After(facts, y, m) == After(facts, z, n)
    ensures Related(facts, y, z)
    decreases m + n
  {
    var x := After(facts, y, m).value;
    AfterIsFact(facts, y, m);
    AfterIsFact(facts, z, n);
    assert Reaches(facts, y, x) && Reaches(facts, z, x);
    if m > 0 && n > 0 && !Related(facts, y, z) {
      var y1, z1 := Next(facts, y).value, Next(facts, z).value;
      CommonEndRelates(facts, y1, m - 1, z, n);
      CommonEndRelates(facts, y, m, z1, n - 1);
      UnrelatedMerge(facts, y, z);
    }
  }

  lemma UnrelatedMerge(facts: Facts, y: FactId, z: FactId)
    requires Next(facts, y).Some? && Next(facts, z).Some? && !Related(facts, y, z)
    requires Related(facts, Next(facts, y).value, z) && Related(facts, y, Next(facts, z).value)
    ensures Merge(facts, y, z)
  {
    NextsReachEachOther(facts, y, z);
    OffCycles(facts, y, z);
    OffCycles(facts, z, y);
    ReachesItself(facts, y);
  }

  lemma NextsReachEachOther(facts: Facts, y: FactId, z: FactId)
    requires Next(facts, y).Some? && Next(facts, z).Some? && !Related(facts, y, z)
    requires Related(facts, Next(facts, y).value, z) && Related(facts, y, Next(facts, z).value)
    ensures Reaches(facts, Next(facts, y).value, Next(facts, z).value)
    ensures Reaches(facts, Next(facts, z).value, Next(facts, y).value)
  {
    NextReachesNext(facts, y, z);
    NextReachesNext(facts, z, y);
  }

  lemma NextReachesNext(facts: Facts, y: FactId, z: FactId)
    requires Next(facts, y).Some? && Next(facts, z).Some? && !Related(facts, y, z)
    requires Related(facts, Next(facts, y).value, z)
    ensures Reaches(facts, Next(facts, z).value, Next(facts, y).value)
  {
    var y1 := Next(facts, y).value;
    NextIsReached(facts, y);
    if Reaches(facts, y1, z) {
      ReachesThrough(facts, y, y1, z);
    } else {
      assert z == y1 ==> Reaches(facts, y, z);
      ReachesByNext(facts, z, y1);
    }
  }

  lemma OffCycles(facts: Facts, y: FactId, z: FactId)
    requires !Related(facts, y, z) && Next(facts, y).Some? && Next(facts, z).Some?
    requires Reaches(facts, Next(facts, z).value, Next(facts, y).value)
    ensures !OnCycle(facts, y)
  {
    if OnCycle(facts, y) {
      NextIsReached(facts, z);
      ReachesThrough(facts, z, Next(facts, z).value, Next(facts, y).value);
      ReachesThrough(facts, z, Next(facts, y).value, y);
    }
  }

  /** Facts reached from one fact are related. */
  lemma CommonStartRelates(facts: Facts, x: FactId, y: FactId, z: FactId)
    requires Reaches(facts, x, y) && Reaches(facts, x, z)
    ensures Related(facts, y, z)
  {
    var m: nat :| After(facts, x, m) == Some(y);
    var n: nat :| After(facts, x, n) == Some(z);
    if m <= n {
      AfterSum(facts, x, m, n - m);
    } else {
      AfterSum(facts, x, n, m - n);
    }
  }

  lemma NoMergeRelates(facts: Facts, x: FactId, y: FactId, z: FactId)
    requires NoMerge(facts) && Related(facts, x, y) && Related(facts, x, z)
    ensures Related(facts, y, z)
  {
    if Reaches(facts, y, x) {
      if Reaches(facts, z, x) {
        var m: nat :| After(facts, y, m) == Some(x);
        var n: nat :| After(facts, z, n) == Some(x);
        CommonEndRelates(facts, y, m, z, n);
      } else {
        ReachesThrough(facts, y, x, z);
      }
    } else if Reaches(facts, z, x) {
      ReachesThrough(facts, z, x, y);
    } else {
      CommonStartRelates(facts, x, y, z);
    }
  }

  /** Every member of every chain tells the same history if and only if no two
      facts merge: no two facts off the cycles were replaced by one fact, or
      by facts of one cycle. */
  lemma UniformIff(facts: Facts)
    ensures Uniform(facts) <==> NoMerge(facts)
  {
    if Uniform(facts) {
      forall a, b
        ensures !Merge(facts, a, b)
      {
        UniformHasNoMerge(facts, a, b);
      }
    }
    if NoMerge(facts) {
      forall x, y | Related(facts, x, y)
        ensures SameHistory(facts, x, y)
      {
        forall z
          ensures Related(facts, x, z) <==> Related(facts, y, z)
        {
          if Related(facts, x, z) { NoMergeRelates(facts, x, y, z); }
          if Related(facts, y, z) { NoMergeRelates(facts, y, x, z); }
        }
      }
    }
  }

  // ------------------------------------------------------------------
  // Tables in which a replacement is always newer
  // ------------------------------------------------------------------

  ghost predicate Ascending(facts: Facts) {
    forall a :: a in facts && facts[a].supersededBy.Some? ==> a < facts[a].supersededBy.value
  }

  lemma {:induction false} AscendingAfter(facts: Facts, a: FactId, n: nat)
    requires Ascending(facts) && After(facts, a, n).Some?
    ensures a + n <= After(facts, a, n).value
    decreases n
  {
    if n > 0 {
      AscendingAfter(facts, Next(facts, a).value, n - 1);
    }
  }

  lemma AscendingReaches(facts: Facts, a: FactId, b: FactId)
    requires Ascending(facts) && Reaches(facts, a, b)
    ensures a <= b
  {
    var n: nat :| After(facts, a, n) == Some(b);
    AscendingAfter(facts, a, n);
  }

  ghost predicate TwoPredecessors(facts: Facts, a: FactId, b: FactId) {
    a != b && Next(facts, a).Some? && Next(facts, a) == Next(facts, b)
  }

  /** If replacements are always newer, histories are uniform if and only if no
      fact replaced two others. */
  lemma UniformIffOnePredecessor(facts: Facts)
    requires Ascending(facts)
    ensures Uniform(facts) <==> forall a, b {:trigger TwoPredecessors(facts, a, b)} :: !TwoPredecessors(facts, a, b)
  {
    UniformIff(facts);
    forall a, b
      ensures Merge(facts, a, b) <==> TwoPredecessors(facts, a, b)
    {
      if Merge(facts, a, b) {
        AscendingReaches(facts, Next(facts, a).value, Next(facts, b).value);
        AscendingReaches(facts, Next(facts, b).value, Next(facts, a).value);
      }
      if TwoPredecessors(facts, a, b) {
        ReachesItself(facts, Next(facts, a).value);
        if OnCycle(facts, a) { AscendingReaches(facts, Next(facts, a).value, a); }
        if OnCycle(facts, b) { AscendingReaches(facts, Next(facts, b).value, b); }
      }
    }
    if forall a, b {:trigger TwoPredecessors(facts, a, b)} :: !TwoPredecessors(facts, a, b) {
      forall a, b
        ensures !Merge(facts, a, b)
      {
        assert !TwoPredecessors(facts, a, b);
      }
    }
    if NoMerge(facts) {
      forall a, b
        ensures !TwoPredecessors(facts, a, b)
      {
        assert !Merge(facts, a, b);
      }
    }
  }

  /** Facts 1 and 2 both replaced by 3: fact 1 does not know of fact 2, fact 3 knows both. */
  lemma TwoOriginsDisagree()
    ensures var facts := map[1 := Fact(Some(3), None, None), 2 := Fact(Some(3), None, None), 3 := Fact(None, None, None)];
            PositiveIds(facts) && Ascending(facts) && Related(facts, 1, 3) && Related(facts, 3, 2) && !Related(facts, 1, 2)
  {
    var facts := map[1 := Fact(Some(3), None, None), 2 := Fact(Some(3), None, None), 3 := Fact(None, None, None)];
    NextIsReached(facts, 1);
    NextIsReached(facts, 2);
    if Reaches(facts, 2, 1) { AscendingReaches(facts, 2, 1); }
    if Reaches(facts, 1, 2) {
      ReachesByNext(facts, 1, 2);
      AscendingReaches(facts, 3, 2);
    }
  }

  // ------------------------------------------------------------------
  // Superseding
  // ------------------------------------------------------------------

  class FactTable {
    var facts: Facts

    constructor (facts: Facts)
      ensures this.facts == facts
    {
      this.facts := facts;
    }

    /** Only a fact that is still valid gets a link, and it keeps that link for good. */
    method Supersede(oldId: FactId, newId: FactId, now: string) returns (updated: bool)
      modifies this`facts
      ensures updated <==> oldId in old(facts) && old(facts)[oldId].invalidAt.None?
      ensures updated ==> facts == old(facts)[oldId := old(facts)[oldId].(invalidAt := Some(now), supersededBy := Some(newId))]
      ensures !updated ==> facts == old(facts)
      ensures forall id :: id in old(facts) && old(facts)[id].invalidAt.Some? ==> id in facts && facts[id] == old(facts)[id]
      ensures Ascending(old(facts)) && oldId < newId ==> Ascending(facts)
    {
      updated := oldId in facts && facts[oldId].invalidAt.None?;
      if updated {
        facts := facts[oldId := facts[oldId].(invalidAt := Some(now), supersededBy := Some(newId))];
      }
    }
  }
}
