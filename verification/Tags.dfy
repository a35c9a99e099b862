/** Comma-separated tag strings: splitting, trimming, joining and merging. */
module Tags {
  import opened Text

  function Split(s: string): (r: seq<string>)
    ensures |r| > 0
  {
    if s == "" then [""]
    else
      var rest := Split(s[1..]);
      if s[0] == ',' then [""] + rest else [[s[0]] + rest[0]] + rest[1..]
  }

  function Join(tags: seq<string>): string {
    if tags == [] then "" else if |tags| == 1 then tags[0] else tags[0] + "," + Join(tags[1..])
  }

  /** A tag as it is stored: trimmed, not empty, without a comma. */
  predicate IsTag(s: string) {
    s != "" && ',' !in s && Strip(s) == s
  }

  ghost function TagSet(s: string): set<string> {
    set p | p in Split(s) && Strip(p) != "" :: Strip(p)
  }

  // ------------------------------------------------------------------
  // Splitting undoes joining
  // ------------------------------------------------------------------

  lemma {:induction false} SplitHeadless(head: string, rest: string)
    requires ',' !in head
    ensures Split(head + "," + rest) == [head] + Split(rest)
  {
    if head == "" {
      assert (head + "," + rest)[1..] == rest;
    } else {
      assert (head + "," + rest)[1..] == head[1..] + "," + rest;
      SplitHeadless(head[1..], rest);
      assert [head[0]] + head[1..] == head;
    }
  }

  lemma {:induction false} SplitOne(s: string)
    requires ',' !in s
    ensures Split(s) == [s]
  {
    if s != "" {
      SplitOne(s[1..]);
      assert [s[0]] + s[1..] == s;
    }
  }

  lemma {:induction false} SplitUndoesJoin(tags: seq<string>)
    requires tags != [] && forall i :: 0 <= i < |tags| ==> ',' !in tags[i]
    ensures Split(Join(tags)) == tags
  {
    if |tags| == 1 {
      SplitOne(tags[0]);
    } else {
      SplitUndoesJoin(tags[1..]);
      SplitHeadless(tags[0], Join(tags[1..]));
    }
  }

  lemma JoinedTagSet(tags: seq<string>)
    requires forall i :: 0 <= i < |tags| ==> IsTag(tags[i])
    ensures TagSet(Join(tags)) == set t | t in tags
  {
    if tags == [] {
      assert Split("") == [""];
    } else {
      SplitUndoesJoin(tags);
      forall t | t in tags
        ensures t in TagSet(Join(tags))
      {
        assert Strip(t) == t;
      }
    }
  }

  // ------------------------------------------------------------------
  // A trimmed piece is a tag
  // ------------------------------------------------------------------

  lemma {:induction false} PiecesHaveNoComma(s: string, i: nat)
    requires i < |Split(s)|
    ensures ',' !in Split(s)[i]
  {
    if s != "" {
      var rest := Split(s[1..]);
      if s[0] == ',' {
        if i > 0 { PiecesHaveNoComma(s[1..], i - 1); }
      } else {
        PiecesHaveNoComma(s[1..], i);
        assert i > 0 ==> Split(s)[i] == rest[i];
      }
    }
  }

  lemma StripIsTag(s: string)
    requires ',' !in s && Strip(s) != ""
    ensures IsTag(Strip(s))
  {
    StripTrims(s);
    StripTwice(s);
  }

  // ------------------------------------------------------------------
  // Merging
  // ------------------------------------------------------------------

  /** The tags of all the strings, first occurrences in order. */
  method MergeTags(tagStrings: seq<string>) returns (merged: string)
    ensures forall t :: t in TagSet(merged) <==> exists i :: 0 <= i < |tagStrings| && t in TagSet(tagStrings[i])
    ensures merged == Join(Gathered(tagStrings))
  {
    var seen: seq<string> := [];
    for i := 0 to |tagStrings|
      invariant seen == GatheredBefore(tagStrings, i, 0)
    {
      var pieces := Split(tagStrings[i]);
      for j := 0 to |pieces|
        invariant seen == GatheredBefore(tagStrings, i, j)
      {
        var tag := Strip(pieces[j]);
        if tag != "" && tag !in seen {
          seen := seen + [tag];
        }
      }
    }
    merged := Join(seen);
    MergedTagSet(tagStrings);
  }

  /** The tags collected when string i has been read up to piece j. */
  function GatheredBefore(tagStrings: seq<string>, i: nat, j: nat): seq<string>
    requires i <= |tagStrings| && (i < |tagStrings| ==> j <= |Split(tagStrings[i])|) && (i == |tagStrings| ==> j == 0)
    decreases i, j
  {
    if j > 0 then
      var seen := GatheredBefore(tagStrings, i, j - 1);
      var tag := Strip(Split(tagStrings[i])[j - 1]);
      if tag != "" && tag !in seen then seen + [tag] else seen
    else if i > 0 then GatheredBefore(tagStrings, i - 1, |Split(tagStrings[i - 1])|)
    else []
  }

  function Gathered(tagStrings: seq<string>): seq<string> {
    GatheredBefore(tagStrings, |tagStrings|, 0)
  }

  /** A tag collected so far comes from a whole earlier string or an earlier piece. */
  ghost predicate ReadBefore(tagStrings: seq<string>, i: nat, j: nat, t: string)
    requires i <= |tagStrings| && (i < |tagStrings| ==> j <= |Split(tagStrings[i])|) && (i == |tagStrings| ==> j == 0)
  {
    || (exists k :: 0 <= k < i && t in TagSet(tagStrings[k]))
    || (exists k :: 0 <= k < j && Strip(Split(tagStrings[i])[k]) == t && t != "")
  }

  lemma {:induction false} GatheredIsRead(tagStrings: seq<string>, i: nat, j: nat, t: string)
    requires i <= |tagStrings| && (i < |tagStrings| ==> j <= |Split(tagStrings[i])|) && (i == |tagStrings| ==> j == 0)
    ensures t in GatheredBefore(tagStrings, i, j) <==> ReadBefore(tagStrings, i, j, t)
    decreases i, j
  {
    if j > 0 {
      GatheredIsRead(tagStrings, i, j - 1, t);
      GatheredIsRead(tagStrings, i, j - 1, Strip(Split(tagStrings[i])[j - 1]));
      if ReadBefore(tagStrings, i, j, t) && !ReadBefore(tagStrings, i, j - 1, t) {
        var k :| 0 <= k < j && Strip(Split(tagStrings[i])[k]) == t && t != "";
        assert k == j - 1;
      }
    } else if i > 0 {
      var pieces := Split(tagStrings[i - 1]);
      GatheredIsRead(tagStrings, i - 1, |pieces|, t);
      if t in TagSet(tagStrings[i - 1]) {
        var p :| p in pieces && Strip(p) != "" && Strip(p) == t;
        var k :| 0 <= k < |pieces| && pieces[k] == p;
      }
      if ReadBefore(tagStrings, i, 0, t) {
        var k :| 0 <= k < i && t in TagSet(tagStrings[k]);
        assert k == i - 1 || k < i - 1;
      }
    }
  }

  lemma {:induction false} GatheredAreTags(tagStrings: seq<string>, i: nat, j: nat)
    requires i <= |tagStrings| && (i < |tagStrings| ==> j <= |Split(tagStrings[i])|) && (i == |tagStrings| ==> j == 0)
    ensures forall k :: 0 <= k < |GatheredBefore(tagStrings, i, j)| ==> IsTag(GatheredBefore(tagStrings, i, j)[k])
    decreases i, j
  {
    if j > 0 {
      GatheredAreTags(tagStrings, i, j - 1);
      PiecesHaveNoComma(tagStrings[i], j - 1);
      if Strip(Split(tagStrings[i])[j - 1]) != "" {
        StripIsTag(Split(tagStrings[i])[j - 1]);
      }
    } else if i > 0 {
      GatheredAreTags(tagStrings, i - 1, |Split(tagStrings[i - 1])|);
    }
  }

  lemma MergedTagSet(tagStrings: seq<string>)
    ensures forall t :: t in TagSet(Join(Gathered(tagStrings))) <==> exists i :: 0 <= i < |tagStrings| && t in TagSet(tagStrings[i])
  {
    GatheredAreTags(tagStrings, |tagStrings|, 0);
    JoinedTagSet(Gathered(tagStrings));
    forall t
      ensures t in Gathered(tagStrings) <==> exists i :: 0 <= i < |tagStrings| && t in TagSet(tagStrings[i])
    {
      GatheredIsRead(tagStrings, |tagStrings|, 0, t);
    }
  }
}
