/** The string-aware bracket scan that recovers the first JSON array (or
    object) from the prose around it. */
module Scanner {
  import opened Common
  import opened Json
  import opened Text
  import JsonRoundTrip

  /** What follows the bracket that brings the depth to zero. */
  function Close(s: string, o: char, c: char, depth: int, inStr: bool, escape: bool): (r: Option<string>)
    ensures r.Some? ==> |r.value| < |s| && r.value == s[|s| - |r.value|..]
    decreases |s|
  {
    if s == "" then None
    else if inStr then
      if escape then Close(s[1..], o, c, depth, true, false)
      else if s[0] == '\\' then Close(s[1..], o, c, depth, true, true)
      else Close(s[1..], o, c, depth, s[0] != '"', false)
    else if s[0] == '"' then Close(s[1..], o, c, depth, true, escape)
    else if s[0] == o then Close(s[1..], o, c, depth + 1, false, escape)
    else if s[0] == c then
      if depth == 1 then Some(s[1..]) else Close(s[1..], o, c, depth - 1, false, escape)
    else Close(s[1..], o, c, depth, false, escape)
  }

  /** The first position of c, or the length. */
  function Find(s: string, c: char): (i: nat)
    ensures i <= |s| && c !in s[..i] && (i < |s| ==> s[i] == c)
  {
    if s == "" || s[0] == c then 0
    else
      assert s[..1 + Find(s[1..], c)] == [s[0]] + s[1..][..Find(s[1..], c)];
      1 + Find(s[1..], c)
  }

  function Balanced(text: string, o: char, c: char): Option<string> {
    var start := Find(text, o);
    if start == |text| then None
    else
      match Close(text[start..], o, c, 0, false, false)
      case None => None
      case Some(rest) => Some(text[start..|text| - |rest|])
  }

  method ExtractBalanced(text: string, o: char, c: char) returns (r: Option<string>)
    requires o != c && o != '"' && c != '"'
    ensures r == Balanced(text, o, c)
  {
    var start := Find(text, o);
    if start == |text| {
      return None;
    }
    var depth := 0;
    var inStr := false;
    var escape := false;
    hide *;
    ghost var goal := Close(text[start..], o, c, 0, false, false);
    for i := start to |text|
      invariant Close(text[i..], o, c, depth, inStr, escape) == goal
      invariant escape ==> inStr
    {
      var ch := text[i];
      CloseUnfolds(text, i, o, c, depth, inStr, escape);
      if inStr {
        if escape {
          escape := false;
        } else if ch == '\\' {
          escape := true;
        } else if ch == '"' {
          inStr := false;
        }
        continue;
      }
      if ch == '"' {
        inStr := true;
      } else if ch == o {
        depth := depth + 1;
      } else if ch == c {
        depth := depth - 1;
        if depth == 0 {
          BalancedEndsAt(text, o, c, start, i);
          return Some(text[start..i + 1]);
        }
      }
    }
    CloseAtEnd(text, o, c, depth, inStr, escape);
    NeverBalanced(text, o, c, start);
    r := None;
  }

  lemma CloseUnfolds(text: string, i: nat, o: char, c: char, depth: int, inStr: bool, escape: bool)
    requires i < |text| && o != c && o != '"' && c != '"' && (escape ==> inStr)
    ensures Close(text[i..], o, c, depth, inStr, escape) ==
            var ch := text[i];
            var rest := text[i + 1..];
            if inStr then Close(rest, o, c, depth, escape || ch != '"', !escape && ch == '\\')
            else if ch == '"' then Close(rest, o, c, depth, true, false)
            else if ch == o then Close(rest, o, c, depth + 1, false, false)
            else if ch == c then if depth == 1 then Some(rest) else Close(rest, o, c, depth - 1, false, false)
            else Close(rest, o, c, depth, false, false)
  {
    assert text[i..][1..] == text[i + 1..];
  }

  lemma CloseAtEnd(text: string, o: char, c: char, depth: int, inStr: bool, escape: bool)
    ensures Close(text[|text|..], o, c, depth, inStr, escape) == None
  {
  }

  lemma BalancedEndsAt(text: string, o: char, c: char, start: nat, i: nat)
    requires start == Find(text, o) <= i < |text|
    requires Close(text[start..], o, c, 0, false, false) == Some(text[i + 1..])
    ensures Balanced(text, o, c) == Some(text[start..i + 1])
  {
  }

  lemma NeverBalanced(text: string, o: char, c: char, start: nat)
    requires start == Find(text, o) < |text|
    requires Close(text[start..], o, c, 0, false, false) == None
    ensures Balanced(text, o, c) == None
  {
  }

  /** The scan for `[...]` in an answer that lists facts. */
  method ExtractJsonArray(text: string) returns (r: Option<string>)
    ensures r == Balanced(text, '[', ']')
  {
    r := ExtractBalanced(text, '[', ']');
  }

  method ExtractJsonObject(text: string) returns (r: Option<string>)
    ensures r == Balanced(text, '{', '}')
  {
    r := ExtractBalanced(text, '{', '}');
  }

  // ------------------------------------------------------------------
  // The scan follows the parser
  // ------------------------------------------------------------------

  predicate Brackets(o: char, c: char) {
    (o == '[' && c == ']') || (o == '{' && c == '}')
  }

  predicate Plain(ch: char) {
    ch != '"' && ch != '\\' && ch != '[' && ch != ']' && ch != '{' && ch != '}'
  }

  lemma {:induction false} SkipPlain(s: string, k: nat, o: char, c: char, depth: int)
    requires Brackets(o, c) && k <= |s| && forall i :: 0 <= i < k ==> Plain(s[i])
    ensures Close(s, o, c, depth, false, false) == Close(s[k..], o, c, depth, false, false)
  {
    if k > 0 {
      SkipPlain(s[1..], k - 1, o, c, depth);
      assert s[1..][k - 1..] == s[k..];
    } else {
      assert s[0..] == s;
    }
  }

  lemma {:induction false} SkipBlank(s: string, o: char, c: char, depth: int)
    requires Brackets(o, c)
    ensures Close(s, o, c, depth, false, false) == Close(SkipBlanks(s), o, c, depth, false, false)
  {
    if s != "" && IsBlank(s[0]) {
      SkipBlank(s[1..], o, c, depth);
    }
  }

  lemma {:induction false} SkipInString(s: string, k: nat, o: char, c: char, depth: int)
    requires k <= |s| && forall i :: 0 <= i < k ==> s[i] != '"' && s[i] != '\\'
    ensures Close(s, o, c, depth, true, false) == Close(s[k..], o, c, depth, true, false)
  {
    if k > 0 {
      SkipInString(s[1..], k - 1, o, c, depth);
      assert s[1..][k - 1..] == s[k..];
    } else {
      assert s[0..] == s;
    }
  }

  /** s starts after a backslash. */
  lemma SkipEscape(s: string, o: char, c: char, depth: int)
    requires Unescape(s).Some?
    ensures Close(s, o, c, depth, true, true) == Close(Unescape(s).value.1, o, c, depth, true, false)
  {
    hide UnescapeHex;
    if s[0] == 'u' {
      SkipHex(s[1..], o, c, depth);
    }
  }

  /** s starts after `\u`. */
  lemma SkipHex(s: string, o: char, c: char, depth: int)
    requires UnescapeHex(s).Some?
    ensures Close(s, o, c, depth, true, false) == Close(UnescapeHex(s).value.1, o, c, depth, true, false)
  {
    hide Close, HexValue;
    SkipInString(s, 4, o, c, depth);
    if !(Hex4(s).value < 0xD800 || 0xE000 <= Hex4(s).value) {
      SkipInString(s[6..], 4, o, c, depth);
      SkipBackslashU(s[4..], o, c, depth);
      DropTwice(s, 4, 2);
      DropTwice(s, 6, 4);
    }
  }

  lemma SkipBackslashU(s: string, o: char, c: char, depth: int)
    requires |s| >= 2 && s[0] == '\\'
    ensures Close(s, o, c, depth, true, false) == Close(s[2..], o, c, depth, true, false)
  {
    DropTwice(s, 1, 1);
  }

  lemma {:induction false} SkipString(s: string, o: char, c: char, depth: int)
    requires ParseString(s).Some?
    ensures Close(s, o, c, depth, true, false) == Close(ParseString(s).value.1, o, c, depth, false, false)
    decreases |s|
  {
    if s[0] == '\\' {
      SkipEscape(s[1..], o, c, depth);
      SkipString(Unescape(s[1..]).value.1, o, c, depth);
    } else if s[0] != '"' {
      SkipString(s[1..], o, c, depth);
    }
  }

  lemma NumberChars(s: string) returns (m: nat)
    requires ParseNumber(s).Some?
    ensures m <= |s| && ParseNumber(s).value.1 == s[m..] && forall k :: 0 <= k < m ==> IsNumberChar(s[k])
  {
    hide IntLen, FracLen, ExpLen, IsNumberChar, DigitsValue;
    var n := IntLen(s);
    var f := FracLen(s[n..]);
    var e := ExpLen(s[n + f..]);
    m := n + f + e;
    forall k | 0 <= k < m
      ensures IsNumberChar(s[k])
    {
      if n + f <= k {
        assert s[k] == s[n + f..][k - n - f];
      } else if n <= k {
        assert s[k] == s[n..][k - n];
      }
    }
  }

  lemma SkipNumber(s: string, o: char, c: char, depth: int)
    requires Brackets(o, c) && ParseNumber(s).Some?
    ensures Close(s, o, c, depth, false, false) == Close(ParseNumber(s).value.1, o, c, depth, false, false)
  {
    hide Close, ParseNumber;
    var m := NumberChars(s);
    SkipPlain(s, m, o, c, depth);
  }

  lemma SkipQuoted(s: string, o: char, c: char, depth: int)
    requires Brackets(o, c) && s != "" && s[0] == '"' && ParseString(s[1..]).Some?
    ensures Close(s, o, c, depth, false, false) == Close(ParseString(s[1..]).value.1, o, c, depth, false, false)
  {
    SkipString(s[1..], o, c, depth);
  }

  /** Scanning a parsed value from inside brackets comes out after it at the same depth. */
  lemma {:induction false} SkipValue(s: string, o: char, c: char, depth: int)
    requires Brackets(o, c) && depth > 0 && ParseValue(s).Some?
    ensures Close(s, o, c, depth, false, false) == Close(ParseValue(s).value.1, o, c, depth, false, false)
    decreases |s|, 2
  {
    hide Close, ParseString, ParseItems, ParseFields, ParseNumber, SkipBlanks;
    if s[0] == '"' {
      SkipQuoted(s, o, c, depth);
    } else if s[0] == '[' {
      SkipArray(s, o, c, depth);
    } else if s[0] == '{' {
      SkipObject(s, o, c, depth);
    } else if "null" <= s || "true" <= s {
      SkipPlain(s, 4, o, c, depth);
    } else if "false" <= s {
      SkipPlain(s, 5, o, c, depth);
    } else {
      SkipNumber(s, o, c, depth);
    }
  }

  /** The depth inside a bracket, if it is one the scan counts. */
  function Inside(depth: int, bracket: char, o: char): int {
    if bracket == o then depth + 1 else depth
  }

  /** The scan at a closing bracket and what follows it. */
  function AtClosing(bracket: char, rest: string, o: char, c: char, depth: int): Option<string> {
    Close([bracket] + rest, o, c, depth, false, false)
  }

  lemma SkipArray(s: string, o: char, c: char, depth: int)
    requires Brackets(o, c) && depth > 0 && s != "" && s[0] == '[' && ParseValue(s).Some?
    ensures Close(s, o, c, depth, false, false) == Close(ParseValue(s).value.1, o, c, depth, false, false)
    decreases |s|, 0
  {
    var d := Inside(depth, '[', o);
    var t := SkipBlanks(s[1..]);
    var rest := ParseValue(s).value.1;
    SkipBlank(s[1..], o, c, d);
    if t != "" && t[0] == ']' {
      assert t == [']'] + rest;
    } else {
      SkipItems(t, [], o, c, d);
    }
    LeaveBracket(']', rest, o, c, d, depth);
  }

  lemma SkipObject(s: string, o: char, c: char, depth: int)
    requires Brackets(o, c) && depth > 0 && s != "" && s[0] == '{' && ParseValue(s).Some?
    ensures Close(s, o, c, depth, false, false) == Close(ParseValue(s).value.1, o, c, depth, false, false)
    decreases |s|, 0
  {
    var d := Inside(depth, '{', o);
    var t := SkipBlanks(s[1..]);
    var rest := ParseValue(s).value.1;
    SkipBlank(s[1..], o, c, d);
    if t != "" && t[0] == '}' {
      assert t == ['}'] + rest;
    } else {
      SkipFields(t, [], o, c, d);
    }
    LeaveBracket('}', rest, o, c, d, depth);
  }

  lemma LeaveBracket(bracket: char, rest: string, o: char, c: char, inside: int, depth: int)
    requires Brackets(o, c) && depth > 0 && (bracket == ']' || bracket == '}')
    requires inside == if bracket == c then depth + 1 else depth
    ensures AtClosing(bracket, rest, o, c, inside) == Close(rest, o, c, depth, false, false)
  {
    assert ([bracket] + rest)[1..] == rest;
  }

  lemma {:induction false} SkipItems(s: string, done: seq<Json>, o: char, c: char, depth: int)
    requires Brackets(o, c) && depth > 0 && ParseItems(s, done).Some?
    ensures Close(s, o, c, depth, false, false) == AtClosing(']', ParseItems(s, done).value.1, o, c, depth)
    decreases |s|, 3
  {
    hide Close, ParseValue, SkipBlanks, ParseFields;
    SkipValue(s, o, c, depth);
    var (v, after) := ParseValue(s).value;
    SkipBlank(after, o, c, depth);
    var t := SkipBlanks(after);
    if t[0] == ',' {
      SkipPlain(t, 1, o, c, depth);
      SkipBlank(t[1..], o, c, depth);
      SkipItems(SkipBlanks(t[1..]), done + [v], o, c, depth);
    } else {
      assert t == [']'] + t[1..];
    }
  }

  lemma {:induction false} SkipField(s: string, o: char, c: char, depth: int)
    requires Brackets(o, c) && depth > 0 && ParseField(s).Some?
    ensures Close(s, o, c, depth, false, false) == Close(ParseField(s).value.2, o, c, depth, false, false)
    decreases |s|, 0
  {
    SkipString(s[1..], o, c, depth);
    var after := ParseString(s[1..]).value.1;
    SkipBlank(after, o, c, depth);
    var t := SkipBlanks(after);
    SkipBlank(t[1..], o, c, depth);
    SkipValue(SkipBlanks(t[1..]), o, c, depth);
  }

  lemma {:induction false} SkipFields(s: string, done: Fields, o: char, c: char, depth: int)
    requires Brackets(o, c) && depth > 0 && ParseFields(s, done).Some?
    ensures Close(s, o, c, depth, false, false) == AtClosing('}', ParseFields(s, done).value.1, o, c, depth)
    decreases |s|, 3
  {
    hide Close, ParseField, ParseValue, SkipBlanks, Insert;
    SkipField(s, o, c, depth);
    var (key, v, after) := ParseField(s).value;
    SkipBlank(after, o, c, depth);
    var t := SkipBlanks(after);
    if t[0] == ',' {
      SkipPlain(t, 1, o, c, depth);
      SkipBlank(t[1..], o, c, depth);
      SkipFields(SkipBlanks(t[1..]), Insert(done, key, v).value, o, c, depth);
    } else {
      assert t == ['}'] + t[1..];
    }
  }

  // ------------------------------------------------------------------
  // Recovery
  // ------------------------------------------------------------------

  lemma {:induction false} CloseExtends(s: string, suffix: string, o: char, c: char, depth: int, inStr: bool, escape: bool)
    requires Close(s, o, c, depth, inStr, escape).Some?
    ensures Close(s + suffix, o, c, depth, inStr, escape) == Some(Close(s, o, c, depth, inStr, escape).value + suffix)
    decreases |s|
  {
    assert (s + suffix)[1..] == s[1..] + suffix;
    if inStr {
      CloseExtends(s[1..], suffix, o, c, depth, escape || s[0] != '"', !escape && s[0] == '\\');
    } else if s[0] == '"' {
      CloseExtends(s[1..], suffix, o, c, depth, true, escape);
    } else if s[0] == o {
      CloseExtends(s[1..], suffix, o, c, depth + 1, false, escape);
    } else if s[0] != c {
      CloseExtends(s[1..], suffix, o, c, depth, false, escape);
    } else if depth != 1 {
      CloseExtends(s[1..], suffix, o, c, depth - 1, false, escape);
    }
  }

  lemma {:induction false} FindInCat(prefix: string, t: string, o: char)
    requires o !in prefix && t != "" && t[0] == o
    ensures Find(prefix + t, o) == |prefix|
  {
    if prefix == "" {
      assert prefix + t == t;
    } else {
      assert (prefix + t)[1..] == prefix[1..] + t;
      FindInCat(prefix[1..], t, o);
    }
  }

  /** A text that parses as one array or object closes where it ends. */
  lemma WholeTextCloses(t: string, o: char, c: char)
    requires Brackets(o, c) && t != "" && t[0] == o
    requires ParseValue(t).Some? && ParseValue(t).value.1 == ""
    ensures Close(t, o, c, 0, false, false) == Some("")
  {
    var u := SkipBlanks(t[1..]);
    SkipBlank(t[1..], o, c, 1);
    if u != "" && u[0] == c {
      assert u == [c];
    } else if o == '[' {
      SkipItems(u, [], o, c, 1);
    } else {
      SkipFields(u, [], o, c, 1);
    }
    assert [c] + "" == [c] && AtClosing(c, "", o, c, 1) == Some("");
  }

  /** Whatever prose without the opening bracket comes before and whatever comes
      after, the scan returns exactly the JSON text, however it is laid out and
      whatever brackets, quotes and backslashes its strings hold. */
  lemma ScannerRecovers(prefix: string, t: string, suffix: string, o: char, c: char)
    requires Brackets(o, c) && o !in prefix && t != "" && t[0] == o
    requires ParseValue(t).Some? && ParseValue(t).value.1 == ""
    ensures Balanced(prefix + t + suffix, o, c) == Some(t)
  {
    var text := prefix + (t + suffix);
    hide Close, ParseValue, Find;
    FindInCat(prefix, t + suffix, o);
    WholeTextCloses(t, o, c);
    CloseExtends(t, suffix, o, c, 0, false, false);
    assert "" + suffix == suffix;
    Cat(prefix, t, suffix);
    Cut(prefix, t + suffix);
    assert text[|prefix|..|text| - |suffix|] == (t + suffix)[..|t|];
    Cut(t, suffix);
  }

  /** In particular for everything the printer writes. */
  lemma PrintedArrayIsRecovered(prefix: string, items: seq<Json>, suffix: string)
    requires Canonical(Arr(items)) && '[' !in prefix
    ensures Balanced(prefix + Print(Arr(items)) + suffix, '[', ']') == Some(Print(Arr(items)))
  {
    var t := Print(Arr(items));
    JsonRoundTrip.ValueRoundTrip(Arr(items), "");
    assert t + "" == t;
    ScannerRecovers(prefix, t, suffix, '[', ']');
  }

  lemma PrintedObjectIsRecovered(prefix: string, fields: Fields, suffix: string)
    requires Canonical(Obj(fields)) && '{' !in prefix
    ensures Balanced(prefix + Print(Obj(fields)) + suffix, '{', '}') == Some(Print(Obj(fields)))
  {
    var t := Print(Obj(fields));
    JsonRoundTrip.ValueRoundTrip(Obj(fields), "");
    assert t + "" == t;
    ScannerRecovers(prefix, t, suffix, '{', '}');
  }

  /** A bracketed word in the prose is found first, so the prefix must not
      hold the opening bracket. */
  lemma BracketedWordWins(prefix: string, word: string, suffix: string)
    requires '[' !in prefix && forall i :: 0 <= i < |word| ==> Plain(word[i])
    ensures Balanced(prefix + ("[" + word + "]" + suffix), '[', ']') == Some("[" + word + "]")
  {
    var t := "[" + word + "]";
    assert t[1..] == word + "]";
    SkipPlain(t[1..], |word|, '[', ']', 1);
    Cut(word, "]");
    assert Close(t, '[', ']', 0, false, false) == Some("");
    CloseExtends(t, suffix, '[', ']', 0, false, false);
    assert "" + suffix == suffix;
    hide Close, Find;
    FindInCat(prefix, t + suffix, '[');
    var text := prefix + (t + suffix);
    Cut(prefix, t + suffix);
    assert text[|prefix|..|text| - |suffix|] == (t + suffix)[..|t|];
    Cut(t, suffix);
  }
}
