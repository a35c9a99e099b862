/** What the strict parser returns is canonical: printing it and parsing again
    changes nothing. */
module JsonStrict {
  import opened Common
  import opened Dictionary
  import opened Json
  import opened Text

  // ------------------------------------------------------------------
  // Objects
  // ------------------------------------------------------------------

  /** A member is refused exactly when its key is already there. */
  lemma {:induction false} InsertRefusesRepeats(fields: Fields, key: string, v: Json)
    requires Sorted(fields)
    ensures Insert(fields, key, v).None? <==> exists k :: 0 <= k < |fields| && fields[k].key == key
  {
    hide Less;
    if fields != [] {
      LessTotal(fields[0].key, key);
      InsertRefusesRepeats(fields[1..], key, v);
      assert forall k :: 0 <= k < |fields[1..]| ==> fields[1..][k] == fields[k + 1];
      if Less(key, fields[0].key) {
        forall k | 0 <= k < |fields|
          ensures fields[k].key != key
        {
          LessIsStrict(key, fields[0].key);
          if k > 0 {
            LessTransitive(key, fields[0].key, fields[k].key);
            LessIsStrict(key, fields[k].key);
          }
        }
      } else if fields[0].key != key {
        if exists k :: 0 <= k < |fields| && fields[k].key == key {
          var k :| 0 <= k < |fields| && fields[k].key == key;
          assert fields[1..][k - 1].key == key;
        }
      }
    }
  }

  ghost predicate CanonicalFields(fields: Fields) {
    forall k :: 0 <= k < |fields| ==> Canonical(fields[k].value)
  }

  lemma {:induction false} InsertKeepsOrder(fields: Fields, key: string, v: Json)
    requires Sorted(fields) && CanonicalFields(fields) && Canonical(v) && Insert(fields, key, v).Some?
    ensures Sorted(Insert(fields, key, v).value) && CanonicalFields(Insert(fields, key, v).value)
    ensures forall f :: f in Insert(fields, key, v).value ==> f in fields || f == Field(key, v)
  {
    hide Less, Canonical;
    if fields == [] {
    } else if Less(key, fields[0].key) {
      forall k | 0 <= k < |fields|
        ensures Less(key, fields[k].key)
      {
        if k > 0 { LessTransitive(key, fields[0].key, fields[k].key); }
      }
    } else {
      LessTotal(fields[0].key, key);
      InsertKeepsOrder(fields[1..], key, v);
      var rest := Insert(fields[1..], key, v).value;
      forall k | 0 <= k < |rest|
        ensures Less(fields[0].key, rest[k].key)
      {
        assert rest[k] in rest;
        assert rest[k] in fields[1..] || rest[k] == Field(key, v);
      }
    }
  }

  // ------------------------------------------------------------------
  // Numbers
  // ------------------------------------------------------------------

  lemma {:induction false} DigitsCut(s: string, m: nat)
    requires m <= |s|
    ensures DigitsLen(s[..m]) == if DigitsLen(s) <= m then DigitsLen(s) else m
  {
    if m > 0 {
      DigitsCut(s[1..], m - 1);
      assert s[..m][1..] == s[1..][..m - 1];
    }
  }

  lemma IntCut(s: string, m: nat)
    requires 0 < IntLen(s) <= m <= |s|
    ensures IntLen(s[..m]) == IntLen(s)
  {
    var sign := if s[0] == '-' then 1 else 0;
    DigitsCut(s[sign..], m - sign);
    assert s[..m][sign..] == s[sign..][..m - sign];
  }

  lemma FracCut(s: string, m: nat)
    requires FracLen(s) <= m <= |s| && (FracLen(s) == 0 ==> m == 0 || s[0] != '.')
    ensures FracLen(s[..m]) == FracLen(s)
  {
    if s != "" && s[0] == '.' && m > 0 {
      DigitsCut(s[1..], m - 1);
      assert s[..m][1..] == s[1..][..m - 1];
    }
  }

  lemma ExpCut(s: string)
    ensures ExpLen(s[..ExpLen(s)]) == ExpLen(s)
  {
    var e := ExpLen(s);
    if e > 0 {
      var sign := if s[1] == '+' || s[1] == '-' then 1 else 0;
      DigitsCut(s[1 + sign..], e - 1 - sign);
      assert s[..e][1 + sign..] == s[1 + sign..][..e - 1 - sign];
    }
  }

  lemma ParsedFloat(s: string) returns (n: nat, f: nat, e: nat)
    requires ParseNumber(s).Some? && ParseNumber(s).value.0.Float?
    ensures 0 < n == IntLen(s) <= |s| && f == FracLen(s[n..]) && n + f <= |s| && e == ExpLen(s[n + f..]) && f + e > 0
    ensures n + f + e <= |s| && ParseNumber(s).value.0.token == s[..n + f + e]
  {
    n := IntLen(s);
    f := FracLen(s[n..]);
    e := ExpLen(s[n + f..]);
  }

  lemma WholeFloat(t: string, n: nat, f: nat, e: nat)
    requires 0 < n == IntLen(t) && n + f + e == |t| && f == FracLen(t[n..]) && e == ExpLen(t[n + f..]) && f + e > 0
    ensures IsFloatToken(t)
  {
    assert t[..n + f + e] == t && t[n + f + e..] == "";
  }

  lemma FloatIsCanonical(s: string)
    requires ParseNumber(s).Some? && ParseNumber(s).value.0.Float?
    ensures IsFloatToken(ParseNumber(s).value.0.token)
  {
    hide IsFloatToken;
    var n, f, e := ParsedFloat(s);
    TokenIsWhole(s, n, f, e);
  }

  lemma TokenIsWhole(s: string, n: nat, f: nat, e: nat)
    requires 0 < n == IntLen(s) && n + f + e <= |s| && f == FracLen(s[n..]) && e == ExpLen(s[n + f..]) && f + e > 0
    ensures IsFloatToken(s[..n + f + e])
  {
    hide IntLen, FracLen, ExpLen, IsFloatToken;
    var m := n + f + e;
    IntCut(s, m);
    assert ExpLen(s[..m][n + f..]) == e by {
      ExpCut(s[n + f..]);
      SliceOfCut(s, n + f, m);
    }
    assert FracLen(s[..m][n..]) == f by {
      DropTwice(s, n, f);
      FracOfCut(s[n..], f, e);
      SliceOfCut(s, n, m);
    }
    WholeFloat(s[..m], n, f, e);
  }

  lemma FracOfCut(s: string, f: nat, e: nat)
    requires f == FracLen(s) && e == ExpLen(s[f..]) && f + e > 0 && f + e <= |s|
    ensures FracLen(s[..f + e]) == f
  {
    FracBeforeExp(s, f, e);
    FracCut(s, f + e);
  }

  lemma SliceOfCut(s: string, j: nat, m: nat)
    requires j <= m <= |s|
    ensures s[..m][j..] == s[j..][..m - j]
  {
  }

  lemma FracBeforeExp(s: string, f: nat, e: nat)
    requires f == FracLen(s) && e == ExpLen(s[f..])
    ensures f == 0 && e > 0 ==> s != "" && s[0] != '.'
  {
    assert f == 0 ==> s[f..] == s;
  }

  // ------------------------------------------------------------------
  // Values
  // ------------------------------------------------------------------

  lemma {:induction false} ParsedIsCanonical(s: string)
    requires ParseValue(s).Some?
    ensures Canonical(ParseValue(s).value.0)
    decreases |s|, 0
  {
    if s[0] == '[' {
      var t := SkipBlanks(s[1..]);
      if !(t != "" && t[0] == ']') {
        ParsedItemsAreCanonical(t, []);
      }
    } else if s[0] == '{' {
      var t := SkipBlanks(s[1..]);
      if !(t != "" && t[0] == '}') {
        ParsedFieldsAreCanonical(t, []);
      }
    } else if s[0] != '"' && !("null" <= s) && !("true" <= s) && !("false" <= s) {
      if ParseNumber(s).value.0.Float? {
        FloatIsCanonical(s);
      }
    }
  }

  lemma {:induction false} ParsedItemsAreCanonical(s: string, done: seq<Json>)
    requires ParseItems(s, done).Some? && forall k :: 0 <= k < |done| ==> Canonical(done[k])
    ensures Canonical(ParseItems(s, done).value.0)
    decreases |s|, 1
  {
    hide ParseValue, SkipBlanks;
    ParsedIsCanonical(s);
    var (v, rest) := ParseValue(s).value;
    var t := SkipBlanks(rest);
    if t[0] == ',' {
      ParsedItemsAreCanonical(SkipBlanks(t[1..]), done + [v]);
    }
  }

  lemma {:induction false} ParsedFieldsAreCanonical(s: string, done: Fields)
    requires ParseFields(s, done).Some? && Sorted(done) && CanonicalFields(done)
    ensures Canonical(ParseFields(s, done).value.0)
    decreases |s|, 1
  {
    hide SkipBlanks, ParseValue, ParseString, Insert;
    var (key, v, rest) := ParseField(s).value;
    var value := SkipBlanks(SkipBlanks(ParseString(s[1..]).value.1)[1..]);
    ParsedIsCanonical(value);
    InsertKeepsOrder(done, key, v);
    var t := SkipBlanks(rest);
    if t[0] == ',' {
      ParsedFieldsAreCanonical(SkipBlanks(t[1..]), Insert(done, key, v).value);
    }
  }
}
