/** Cutting, replacing and trimming text. */
module Text {

  // ------------------------------------------------------------------
  // Cutting
  // ------------------------------------------------------------------

  lemma Cat(a: string, b: string, c: string)
    ensures (a + b) + c == a + (b + c)
  {
  }

  lemma Cut(a: string, b: string)
    ensures (a + b)[..|a|] == a && (a + b)[|a|..] == b
  {
  }

  lemma CutInFirst(a: string, b: string, k: nat)
    requires k <= |a|
    ensures (a + b)[k..] == a[k..] + b
  {
  }

  lemma DropTwice(s: string, j: nat, k: nat)
    requires j + k <= |s|
    ensures s[j..][k..] == s[j + k..]
  {
  }

  /** Every occurrence of `part` becomes `other`, from the left, as Python's replace does. */
  function Replaced(s: string, part: string, other: string): string
    requires part != ""
    decreases |s|
  {
    if s == "" then ""
    else if part <= s then other + Replaced(s[|part|..], part, other)
    else [s[0]] + Replaced(s[1..], part, other)
  }

  // ------------------------------------------------------------------
  // Trimming, as Python's strip family does
  // ------------------------------------------------------------------

  /** The characters for which Python's str.isspace holds. */
  predicate IsSpace(c: char) {
    var n := c as int;
    || 9 <= n <= 13 || 28 <= n <= 32 || n == 133 || n == 160 || n == 5760
    || 8192 <= n <= 8202 || n == 8232 || n == 8233 || n == 8239 || n == 8287 || n == 12288
  }

  function Lstrip(s: string): string {
    if s != "" && IsSpace(s[0]) then Lstrip(s[1..]) else s
  }

  function Rstrip(s: string): string {
    if s != "" && IsSpace(s[|s| - 1]) then Rstrip(s[..|s| - 1]) else s
  }

  function Strip(s: string): string {
    Rstrip(Lstrip(s))
  }

  lemma {:induction false} LstripIsSuffix(s: string)
    ensures exists k :: 0 <= k <= |s| && Lstrip(s) == s[k..]
    ensures Lstrip(s) != "" ==> !IsSpace(Lstrip(s)[0])
  {
    if s != "" && IsSpace(s[0]) {
      LstripIsSuffix(s[1..]);
      var k :| 0 <= k <= |s[1..]| && Lstrip(s[1..]) == s[1..][k..];
      assert s[1..][k..] == s[k + 1..];
    } else {
      assert s == s[0..];
    }
  }

  lemma {:induction false} RstripIsPrefix(s: string)
    ensures Rstrip(s) <= s
    ensures Rstrip(s) != "" ==> !IsSpace(Rstrip(s)[|Rstrip(s)| - 1])
  {
    if s != "" && IsSpace(s[|s| - 1]) {
      RstripIsPrefix(s[..|s| - 1]);
    }
  }

  /** No white space at either end. */
  predicate Trimmed(t: string) {
    t == "" || (!IsSpace(t[0]) && !IsSpace(t[|t| - 1]))
  }

  lemma StripTrims(s: string)
    ensures Trimmed(Strip(s))
    ensures exists j, k :: 0 <= j <= k <= |s| && Strip(s) == s[j..k]
  {
    LstripIsSuffix(s);
    var j :| 0 <= j <= |s| && Lstrip(s) == s[j..];
    RstripOfSuffix(s, j);
  }

  lemma RstripOfSuffix(s: string, j: nat)
    requires j <= |s| && (s[j..] != "" ==> !IsSpace(s[j]))
    ensures Trimmed(Rstrip(s[j..]))
    ensures exists k :: j <= k <= |s| && Rstrip(s[j..]) == s[j..k]
  {
    var t := Rstrip(s[j..]);
    RstripIsPrefix(s[j..]);
    assert t == s[j..][..|t|];
    assert t == s[j..j + |t|];
    assert t != "" ==> t[0] == s[j];
  }

  lemma TrimmedStays(t: string)
    ensures Trimmed(t) ==> Strip(t) == t
  {
  }

  lemma StripTwice(s: string)
    ensures Strip(Strip(s)) == Strip(s)
  {
    StripTrims(s);
    TrimmedStays(Strip(s));
  }
}
