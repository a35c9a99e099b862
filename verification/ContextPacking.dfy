/** Packing ranked facts into a prompt block under a hard token budget. */
module ContextPacking {
  import opened Common
  import opened Text

  const HEADER := "## Enfold Memory\n"
  const ELLIPSIS := "\U{2026}"
  const TRUNCATION_MARKER := "\U{2026} [truncated]"

  /** One token for every four characters, rounded up. */
  function Tokens(s: string): nat {
    (|s| + 3) / 4
  }

  lemma TokensOfParts(a: string, b: string, c: string)
    ensures Tokens(a + (b + c + "\n")) <= Tokens(a) + Tokens(b) + Tokens(c) + 1
  {
  }

  // ------------------------------------------------------------------
  // Cutting text
  // ------------------------------------------------------------------

  function Candidate(text: string, k: nat): string
    requires k <= |text|
  {
    Rstrip(text[..k]) + ELLIPSIS
  }

  predicate Fits(text: string, k: nat, budget: int)
    requires k <= |text|
  {
    Tokens(Candidate(text, k)) <= budget
  }

  lemma {:induction false} StrippedGrows(text: string, j: nat, k: nat)
    requires j <= k <= |text|
    ensures |Rstrip(text[..j])| <= |Rstrip(text[..k])| <= k
    decreases k
  {
    if j < k {
      StrippedGrows(text, j, k - 1);
      assert text[..k][..k - 1] == text[..k - 1];
    } else {
      RstripIsPrefix(text[..k]);
    }
  }

  /** A longer cut never strips to less, so fitting is inherited by shorter cuts. */
  lemma FitsBelow(text: string, j: nat, k: nat, budget: int)
    requires j <= k <= |text| && Fits(text, k, budget)
    ensures Fits(text, j, budget)
  {
    StrippedGrows(text, j, k);
  }

  /** The longest cut up to k that fits. */
  function LongestCut(text: string, budget: int, k: nat): (c: nat)
    requires k <= |text| && budget >= 1
    ensures c <= k && Fits(text, c, budget) && forall j :: c < j <= k ==> !Fits(text, j, budget)
  {
    if k == 0 || Fits(text, k, budget) then
      assert text[..0] == "";
      k
    else LongestCut(text, budget, k - 1)
  }

  /** The text itself if it fits, else its longest fitting cut with an ellipsis. */
  function Fitted(text: string, budget: int): (string, bool) {
    if budget <= 0 then ("", text != "")
    else if Tokens(text) <= budget then (text, false)
    else (Candidate(text, LongestCut(text, budget, |text|)), true)
  }

  /** No cut of the text keeps more and still fits. */
  lemma FittedIsMaximal(text: string, budget: int, j: nat)
    requires budget >= 1 && Tokens(text) > budget && j <= |text| && Fits(text, j, budget)
    ensures var r := Fitted(text, budget).0;
            Tokens(r) <= budget && |Candidate(text, j)| <= |r| && r[..|r| - 1] <= text && r[|r| - 1..] == ELLIPSIS
  {
    var c := LongestCut(text, budget, |text|);
    StrippedGrows(text, j, c);
    RstripIsPrefix(text[..c]);
    assert Fitted(text, budget).0[..|Candidate(text, c)| - 1] == Rstrip(text[..c]);
  }

  /** Binary search for the longest cut. */
  method TruncateToBudget(text: string, budget: int) returns (r: string, cut: bool)
    ensures (r, cut) == Fitted(text, budget)
  {
    if budget <= 0 {
      return "", text != "";
    }
    if Tokens(text) <= budget {
      return text, false;
    }
    // A lone ellipsis is one token, so it always fits here.
    var low: int, high: int := 0, |text|;
    r := "";
    ghost var longest := LongestCut(text, budget, |text|);
    while low <= high
      invariant 0 <= low <= |text| + 1 && -1 <= high <= |text|
      invariant low <= longest + 1 && longest <= high
      invariant low > 0 ==> low - 1 <= longest && r == Candidate(text, low - 1)
      decreases high + 1 - low
    {
      var midpoint := (low + high) / 2;
      var candidate := Rstrip(text[..midpoint]) + ELLIPSIS;
      if Tokens(candidate) <= budget {
        assert Fits(text, midpoint, budget);
        r := candidate;
        low := midpoint + 1;
      } else {
        if midpoint <= longest { FitsBelow(text, midpoint, longest, budget); }
        high := midpoint - 1;
      }
    }
    cut := true;
  }

  /** At most `maximum` characters, the marker included. */
  function Limited(text: string, maximum: nat): (r: (string, bool))
    requires maximum >= |TRUNCATION_MARKER|
    ensures |r.0| <= maximum && (r.1 <==> |text| > maximum) && (!r.1 ==> r.0 == text)
  {
    if |text| <= maximum then (text, false)
    else
      var kept := text[..maximum - |TRUNCATION_MARKER|];
      RstripIsPrefix(kept);
      (Rstrip(kept) + TRUNCATION_MARKER, true)
  }

  // ------------------------------------------------------------------
  // Ranked facts
  // ------------------------------------------------------------------

  type Slot = (string, string, string)

  datatype Fact = Fact(
    content: string, linePrefix: string, score: real,
    invalidAt: Option<string>, supersededBy: Option<int>, conflictGroup: Option<int>,
    memoryKind: string, subjectKey: string, predicateKey: string, scope: string)

  predicate Safe(f: Fact) {
    f.invalidAt.None? && f.supersededBy.None? && f.conflictGroup.None?
  }

  function SlotOf(f: Fact): Option<Slot> {
    if f.memoryKind != "state" || f.subjectKey == "" || f.predicateKey == "" then None
    else Some((f.scope, f.subjectKey, f.predicateKey))
  }

  type Similarity = (Fact, Fact) -> real

  predicate InRange(facts: seq<Fact>, chosen: seq<nat>) {
    forall k :: 0 <= k < |chosen| ==> chosen[k] < |facts|
  }

  function Redundancy(facts: seq<Fact>, sim: Similarity, i: nat, chosen: seq<nat>): real
    requires i < |facts| && InRange(facts, chosen)
  {
    if chosen == [] then 0.0
    else if |chosen| == 1 then sim(facts[i], facts[chosen[0]])
    else
      var earlier := Redundancy(facts, sim, i, chosen[..|chosen| - 1]);
      var last := sim(facts[i], facts[chosen[|chosen| - 1]]);
      if last > earlier then last else earlier
  }

  function Objective(facts: seq<Fact>, sim: Similarity, balance: real, i: nat, chosen: seq<nat>): real
    requires i < |facts| && InRange(facts, chosen)
  {
    balance * facts[i].score - (1.0 - balance) * Redundancy(facts, sim, i, chosen)
  }

  predicate Positions(facts: seq<Fact>, chosen: seq<nat>) {
    && InRange(facts, chosen)
    && (forall j, k :: 0 <= j < k < |chosen| ==> chosen[j] != chosen[k])
  }

  /** Pick k is the best of the facts not picked before; the earliest among equals. */
  ghost predicate BestPick(facts: seq<Fact>, sim: Similarity, balance: real, chosen: seq<nat>, k: nat)
    requires Positions(facts, chosen) && k < |chosen|
  {
    var before := chosen[..k];
    var value := Objective(facts, sim, balance, chosen[k], before);
    forall i :: 0 <= i < |facts| && i !in before ==>
      Objective(facts, sim, balance, i, before) < value || (Objective(facts, sim, balance, i, before) == value && chosen[k] <= i)
  }

  /** Greedy maximal marginal relevance. */
  method MmrSelect(facts: seq<Fact>, sim: Similarity, maxFacts: Option<nat>, balance: real) returns (picks: seq<nat>)
    ensures Positions(facts, picks) && |picks| <= |facts|
    ensures maxFacts.None? || |facts| <= maxFacts.value ==> picks == seq(|facts|, k requires 0 <= k < |facts| => k)
    ensures maxFacts.Some? && maxFacts.value < |facts| ==>
              && |picks| == maxFacts.value
              && (forall k :: 0 <= k < |picks| ==> BestPick(facts, sim, balance, picks, k))
  {
    if maxFacts.None? || |facts| <= maxFacts.value {
      return seq(|facts|, k requires 0 <= k < |facts| => k);
    }
    picks := [];
    while |picks| < maxFacts.value
      invariant |picks| <= maxFacts.value && Positions(facts, picks)
      invariant forall k :: 0 <= k < |picks| ==> BestPick(facts, sim, balance, picks, k)
    {
      var best := PickBest(facts, sim, balance, picks);
      PicksStay(facts, sim, balance, picks, best);
      picks := picks + [best];
    }
  }

  method PickBest(facts: seq<Fact>, sim: Similarity, balance: real, picks: seq<nat>) returns (best: nat)
    requires Positions(facts, picks) && |picks| < |facts|
    ensures best < |facts| && best !in picks && Positions(facts, picks + [best])
    ensures BestPick(facts, sim, balance, picks + [best], |picks|)
  {
    ghost var left := SomeLeft(facts, picks);
    var found: Option<nat> := None;
    for i := 0 to |facts|
      invariant found.None? ==> forall j :: 0 <= j < i ==> j in picks
      invariant found.Some? ==> found.value < i && found.value !in picks
      invariant found.Some? ==> forall j :: 0 <= j < i && j !in picks ==>
                  Objective(facts, sim, balance, j, picks) < Objective(facts, sim, balance, found.value, picks)
                  || (Objective(facts, sim, balance, j, picks) == Objective(facts, sim, balance, found.value, picks) && found.value <= j)
    {
      if i !in picks && (found.None? || Objective(facts, sim, balance, i, picks) > Objective(facts, sim, balance, found.value, picks)) {
        found := Some(i);
      }
    }
    best := found.value;
    assert (picks + [best])[..|picks|] == picks;
  }

  /** Fewer picks than facts leave a fact to pick. */
  lemma SomeLeft(facts: seq<Fact>, picks: seq<nat>) returns (left: nat)
    requires |picks| < |facts|
    ensures left < |facts| && left !in picks
  {
    var unpicked := Below(|facts|) - PickSet(picks);
    assert unpicked != {} by {
      if Below(|facts|) <= PickSet(picks) {
        SubsetSize(Below(|facts|), PickSet(picks));
      }
    }
    left :| left in unpicked;
  }

  ghost function Below(n: nat): (r: set<nat>)
    ensures |r| == n && forall i: nat :: i in r <==> i < n
  {
    if n == 0 then {} else Below(n - 1) + {n - 1}
  }

  ghost function PickSet(picks: seq<nat>): (r: set<nat>)
    ensures |r| <= |picks| && forall p :: p in picks ==> p in r
  {
    if picks == [] then {}
    else
      var rest := PickSet(picks[1..]);
      assert forall p :: p in picks ==> p == picks[0] || p in picks[1..];
      {picks[0]} + rest
  }

  lemma PicksStay(facts: seq<Fact>, sim: Similarity, balance: real, picks: seq<nat>, best: nat)
    requires Positions(facts, picks) && Positions(facts, picks + [best])
    requires forall k :: 0 <= k < |picks| ==> BestPick(facts, sim, balance, picks, k)
    ensures forall k :: 0 <= k < |picks| ==> BestPick(facts, sim, balance, picks + [best], k)
  {
    forall k | 0 <= k < |picks|
      ensures BestPick(facts, sim, balance, picks + [best], k)
    {
      assert (picks + [best])[..k] == picks[..k];
      assert BestPick(facts, sim, balance, picks, k);
    }
  }

  // ------------------------------------------------------------------
  // Packing, one fact at a time
  // ------------------------------------------------------------------

  datatype Selected = Selected(fact: Fact, content: string, truncated: bool)

  datatype State = State(markdown: string, selected: seq<Selected>, slots: set<Slot>, omitted: nat, unsafe: nat)

  function StripEllipsis(s: string): string {
    if s != "" && s[|s| - 1] == ELLIPSIS[0] then StripEllipsis(s[..|s| - 1]) else s
  }

  function Shown(f: Fact, maxChars: Option<nat>): (string, bool)
    requires maxChars.Some? ==> maxChars.value >= |TRUNCATION_MARKER|
  {
    if maxChars.Some? then Limited(f.content, maxChars.value) else (f.content, false)
  }

  function Available(budget: nat, markdown: string, prefix: string): int {
    budget - Tokens(markdown) - Tokens(prefix) - 1
  }

  /** The content a fact would get after this markdown, or None if too little is left of it. */
  function ContentFor(budget: nat, maxChars: Option<nat>, markdown: string, f: Fact): Option<(string, bool)>
    requires maxChars.Some? ==> maxChars.value >= |TRUNCATION_MARKER|
  {
    var (text, limited) := Shown(f, maxChars);
    var (content, cut) := Fitted(text, Available(budget, markdown, f.linePrefix));
    if (cut && |Rstrip(StripEllipsis(content))| < 8) || content == "" then None else Some((content, limited || cut))
  }

  function Packed(budget: nat, maxChars: Option<nat>, s: State, f: Fact): State
    requires maxChars.Some? ==> maxChars.value >= |TRUNCATION_MARKER|
  {
    if !Safe(f) then s.(unsafe := s.unsafe + 1)
    else if SlotOf(f).Some? && SlotOf(f).value in s.slots then s.(omitted := s.omitted + 1)
    else
      match ContentFor(budget, maxChars, s.markdown, f)
      case None => s.(omitted := s.omitted + 1)
      case Some((content, truncated)) =>
        s.(markdown := s.markdown + (f.linePrefix + content + "\n"),
           selected := s.selected + [Selected(f, content, truncated)],
           slots := s.slots + (if SlotOf(f).Some? then {SlotOf(f).value} else {}))
  }

  function PackedAll(budget: nat, maxChars: Option<nat>, omitted: nat, ranked: seq<Fact>): State
    requires maxChars.Some? ==> maxChars.value >= |TRUNCATION_MARKER|
  {
    if ranked == [] then State(HEADER, [], {}, omitted, 0)
    else Packed(budget, maxChars, PackedAll(budget, maxChars, omitted, ranked[..|ranked| - 1]), ranked[|ranked| - 1])
  }

  function Lines(selected: seq<Selected>): string {
    if selected == [] then ""
    else
      var last := selected[|selected| - 1];
      Lines(selected[..|selected| - 1]) + (last.fact.linePrefix + last.content + "\n")
  }

  ghost predicate OnePerSlot(selected: seq<Selected>) {
    forall j, k :: 0 <= j < k < |selected| && SlotOf(selected[j].fact).Some? ==> SlotOf(selected[j].fact) != SlotOf(selected[k].fact)
  }

  ghost predicate StateOk(budget: nat, offered: nat, s: State) {
    && Tokens(s.markdown) <= budget
    && s.markdown == HEADER + Lines(s.selected)
    && |s.selected| + s.omitted + s.unsafe == offered
    && (forall k :: 0 <= k < |s.selected| ==> Safe(s.selected[k].fact) && s.selected[k].content != "")
    && OnePerSlot(s.selected)
    && (forall slot :: slot in s.slots <==> exists k :: 0 <= k < |s.selected| && SlotOf(s.selected[k].fact) == Some(slot))
  }

  lemma FittedFits(text: string, budget: int)
    ensures Fitted(text, budget).0 == "" || Tokens(Fitted(text, budget).0) <= budget
  {
  }

  /** A line that is kept fits together with everything before it, so the check
      on the finished line never fires. */
  lemma KeptLineFits(budget: nat, maxChars: Option<nat>, markdown: string, f: Fact)
    requires maxChars.Some? ==> maxChars.value >= |TRUNCATION_MARKER|
    requires ContentFor(budget, maxChars, markdown, f).Some?
    ensures Tokens(markdown + (f.linePrefix + ContentFor(budget, maxChars, markdown, f).value.0 + "\n")) <= budget
  {
    var content := ContentFor(budget, maxChars, markdown, f).value.0;
    FittedFits(Shown(f, maxChars).0, Available(budget, markdown, f.linePrefix));
    TokensOfParts(markdown, f.linePrefix, content);
  }

  lemma PackedKeepsOk(budget: nat, maxChars: Option<nat>, offered: nat, s: State, f: Fact)
    requires maxChars.Some? ==> maxChars.value >= |TRUNCATION_MARKER|
    requires StateOk(budget, offered, s)
    ensures StateOk(budget, offered + 1, Packed(budget, maxChars, s, f))
  {
    hide ContentFor, Safe, SlotOf, Tokens, Lines;
    if Safe(f) && !(SlotOf(f).Some? && SlotOf(f).value in s.slots) && ContentFor(budget, maxChars, s.markdown, f).Some? {
      KeptLineFits(budget, maxChars, s.markdown, f);
      KeptIsFilled(budget, maxChars, s.markdown, f);
      var (content, truncated) := ContentFor(budget, maxChars, s.markdown, f).value;
      LinesGrow(s.selected, Selected(f, content, truncated));
      SlotsGrow(s, Selected(f, content, truncated));
    }
  }

  lemma LinesGrow(selected: seq<Selected>, kept: Selected)
    ensures (HEADER + Lines(selected)) + (kept.fact.linePrefix + kept.content + "\n") == HEADER + Lines(selected + [kept])
  {
    assert (selected + [kept])[..|selected|] == selected;
    var line := kept.fact.linePrefix + kept.content + "\n";
    assert (HEADER + Lines(selected)) + line == HEADER + (Lines(selected) + line);
  }

  lemma KeptIsFilled(budget: nat, maxChars: Option<nat>, markdown: string, f: Fact)
    requires maxChars.Some? ==> maxChars.value >= |TRUNCATION_MARKER|
    ensures ContentFor(budget, maxChars, markdown, f).Some? ==> ContentFor(budget, maxChars, markdown, f).value.0 != ""
  {
  }

  lemma SlotsGrow(s: State, kept: Selected)
    requires forall slot :: slot in s.slots <==> exists k :: 0 <= k < |s.selected| && SlotOf(s.selected[k].fact) == Some(slot)
    ensures var more := s.selected + [kept];
            var slots := s.slots + (if SlotOf(kept.fact).Some? then {SlotOf(kept.fact).value} else {});
            forall slot :: slot in slots <==> exists k :: 0 <= k < |more| && SlotOf(more[k].fact) == Some(slot)
  {
    hide SlotOf;
    var more := s.selected + [kept];
    var slots := s.slots + (if SlotOf(kept.fact).Some? then {SlotOf(kept.fact).value} else {});
    forall slot
      ensures slot in slots <==> exists k :: 0 <= k < |more| && SlotOf(more[k].fact) == Some(slot)
    {
      if slot in s.slots {
        var k :| 0 <= k < |s.selected| && SlotOf(s.selected[k].fact) == Some(slot);
        assert more[k] == s.selected[k];
      }
      if SlotOf(kept.fact) == Some(slot) {
        assert more[|s.selected|] == kept;
      }
      if exists k :: 0 <= k < |more| && SlotOf(more[k].fact) == Some(slot) {
        var k :| 0 <= k < |more| && SlotOf(more[k].fact) == Some(slot);
        assert k < |s.selected| ==> more[k] == s.selected[k];
      }
    }
  }

  lemma {:induction false} PackedAllOk(budget: nat, maxChars: Option<nat>, omitted: nat, ranked: seq<Fact>)
    requires maxChars.Some? ==> maxChars.value >= |TRUNCATION_MARKER|
    requires Tokens(HEADER) <= budget
    ensures StateOk(budget, omitted + |ranked|, PackedAll(budget, maxChars, omitted, ranked))
  {
    hide Packed;
    if ranked == [] {
      assert HEADER + "" == HEADER;
    } else {
      var init := ranked[..|ranked| - 1];
      PackedAllOk(budget, maxChars, omitted, init);
      PackedKeepsOk(budget, maxChars, omitted + |init|, PackedAll(budget, maxChars, omitted, init), ranked[|ranked| - 1]);
    }
  }

  // ------------------------------------------------------------------
  // The packer
  // ------------------------------------------------------------------

  datatype Pack = Pack(markdown: string, facts: seq<Selected>, abstained: bool, tokenEstimate: nat, omitted: nat, unsafe: nat)

  datatype Options = Options(tokenBudget: int, maxFactChars: Option<int>, maxFacts: Option<int>, mmrLambda: real)

  predicate ValidOptions(o: Options) {
    && o.tokenBudget > 0
    && (o.maxFactChars.Some? ==> o.maxFactChars.value >= |TRUNCATION_MARKER|)
    && (o.maxFacts.Some? ==> o.maxFacts.value >= 1)
    && 0.0 <= o.mmrLambda <= 1.0
  }

  function Natural(n: Option<int>): Option<nat>
    requires n.Some? ==> n.value >= 0
  {
    if n.Some? then Some(n.value) else None
  }

  function Taken(facts: seq<Fact>, picks: seq<nat>): seq<Fact>
    requires Positions(facts, picks)
  {
    seq(|picks|, k requires 0 <= k < |picks| => facts[picks[k]])
  }

  /** Bad options are refused. Otherwise the budget holds, every input fact is
      accounted for, and the block lists the selected facts in rank order. */
  method PackContext(facts: seq<Fact>, sim: Similarity, o: Options) returns (r: Result<Pack, string>, ghost picks: seq<nat>)
    ensures r.Err? <==> !ValidOptions(o)
    ensures r.Ok? ==>
              var p := r.value;
              && Tokens(p.markdown) == p.tokenEstimate <= o.tokenBudget
              && |p.facts| + p.omitted + p.unsafe == |facts|
              && (p.abstained <==> p.facts == [])
              && p.markdown == (if p.abstained then "" else HEADER + Lines(p.facts))
              && OnePerSlot(p.facts)
              && (forall k :: 0 <= k < |p.facts| ==> Safe(p.facts[k].fact) && p.facts[k].content != "")
    ensures r.Ok? && Tokens(HEADER) > o.tokenBudget ==> r.value.facts == [] && r.value.omitted == |facts|
    ensures r.Ok? && Tokens(HEADER) <= o.tokenBudget && o.maxFacts.Some? && o.maxFacts.value < |facts| ==>
              && |picks| == o.maxFacts.value && Positions(facts, picks)
              && forall k :: 0 <= k < |picks| ==> BestPick(facts, sim, o.mmrLambda, picks, k)
    ensures r.Ok? && Tokens(HEADER) <= o.tokenBudget ==>
              && Positions(facts, picks) && |picks| <= |facts|
              && var s := PackedAll(o.tokenBudget, Natural(o.maxFactChars), |facts| - |picks|, Taken(facts, picks));
                 r.value.facts == s.selected && r.value.omitted == s.omitted && r.value.unsafe == s.unsafe
  {
    picks := [];
    if !ValidOptions(o) {
      return Err("invalid options"), picks;
    }
    var budget: nat := o.tokenBudget;
    var maxChars := Natural(o.maxFactChars);
    if Tokens(HEADER) > budget {
      return Ok(Pack("", [], true, 0, |facts|, 0)), picks;
    }
    var chosen := MmrSelect(facts, sim, Natural(o.maxFacts), o.mmrLambda);
    picks := chosen;
    var ranked := Taken(facts, chosen);
    var markdown, selected, slots, omitted, unsafe := PackRanked(budget, maxChars, |facts| - |ranked|, ranked);
    PackedAllOk(budget, maxChars, |facts| - |ranked|, ranked);
    if selected == [] {
      return Ok(Pack("", [], true, 0, omitted, unsafe)), picks;
    }
    return Ok(Pack(markdown, selected, false, Tokens(markdown), omitted, unsafe)), picks;
  }

  /** The loop over the ranked facts. */
  method PackRanked(budget: nat, maxChars: Option<nat>, skipped: nat, ranked: seq<Fact>)
    returns (markdown: string, selected: seq<Selected>, slots: set<Slot>, omitted: nat, unsafe: nat)
    requires maxChars.Some? ==> maxChars.value >= |TRUNCATION_MARKER|
    requires Tokens(HEADER) <= budget
    ensures State(markdown, selected, slots, omitted, unsafe) == PackedAll(budget, maxChars, skipped, ranked)
  {
    hide Safe, SlotOf, Tokens, StripEllipsis, Rstrip, Fitted, Limited;
    markdown, selected, slots, omitted, unsafe := HEADER, [], {}, skipped, 0;
    for n := 0 to |ranked|
      invariant State(markdown, selected, slots, omitted, unsafe) == PackedAll(budget, maxChars, skipped, ranked[..n])
    {
      var fact := ranked[n];
      assert ranked[..n + 1][..n] == ranked[..n];
      if !Safe(fact) {
        unsafe := unsafe + 1;
        continue;
      }
      var slot := SlotOf(fact);
      if slot.Some? && slot.value in slots {
        omitted := omitted + 1;
        continue;
      }
      var available := budget - Tokens(markdown) - Tokens(fact.linePrefix) - 1;
      var (text, contentTruncated) := Shown(fact, maxChars);
      var content, budgetTruncated := TruncateToBudget(text, available);
      if budgetTruncated && |Rstrip(StripEllipsis(content))| < 8 {
        omitted := omitted + 1;
        continue;
      }
      if content == "" {
        omitted := omitted + 1;
        continue;
      }
      var line := fact.linePrefix + content + "\n";
      KeptLineFits(budget, maxChars, markdown, fact);
      assert Tokens(markdown + line) <= budget;
      selected := selected + [Selected(fact, content, contentTruncated || budgetTruncated)];
      if slot.Some? {
        slots := slots + {slot.value};
      }
      markdown := markdown + line;
    }
    assert ranked[..|ranked|] == ranked;
  }
}
