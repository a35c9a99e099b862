/** Parsing undoes printing. */
module JsonRoundTrip {
  import opened Common
  import Dictionary
  import opened Json
  import opened Text

  // ------------------------------------------------------------------
  // Strings
  // ------------------------------------------------------------------

  lemma HexRoundTrip(n: nat)
    requires n < 16
    ensures IsHex(HexDigit(n)) && HexValue(HexDigit(n)) == n
  {
  }

  lemma ControlRoundTrip(c: char, rest: string)
    requires c as int < 32
    ensures Unescape("u00" + [HexDigit(c as int / 16), HexDigit(c as int % 16)] + rest) == Some((c, rest))
  {
    var n := c as int;
    HexRoundTrip(n / 16);
    HexRoundTrip(n % 16);
    var s := "00" + [HexDigit(n / 16), HexDigit(n % 16)] + rest;
    assert s[4..] == rest;
    assert Hex4(s) == Some(n);
    assert ("u" + s)[1..] == s;
    assert "u00" + [HexDigit(n / 16), HexDigit(n % 16)] + rest == "u" + s;
  }

  lemma EscapeRoundTrip(c: char, rest: string)
    ensures Escaped(c)[0] == '\\' ==> Unescape(Escaped(c)[1..] + rest) == Some((c, rest))
    ensures Escaped(c)[0] != '\\' ==> Escaped(c) == [c] && c != '"' && c as int >= 32
  {
    if c as int < 32 && c !in "\n\r\t" && c as int != 8 && c as int != 12 {
      ControlRoundTrip(c, rest);
      assert Escaped(c)[1..] == "u00" + [HexDigit(c as int / 16), HexDigit(c as int % 16)];
    } else if Escaped(c)[0] == '\\' {
      assert (Escaped(c)[1..] + rest)[1..] == rest;
    }
  }

  lemma ReadPlain(c: char, tail: string, t: string, rest: string)
    requires c as int >= 32 && c != '"' && c != '\\' && ParseString(tail) == Some((t, rest))
    ensures ParseString([c] + tail) == Some(([c] + t, rest))
  {
    assert ([c] + tail)[1..] == tail;
  }

  lemma ReadEscape(escape: string, c: char, tail: string, t: string, rest: string)
    requires Unescape(escape + tail) == Some((c, tail)) && ParseString(tail) == Some((t, rest))
    ensures ParseString("\\" + escape + tail) == Some(([c] + t, rest))
  {
    assert ("\\" + escape + tail)[1..] == escape + tail;
  }

  /** One printed character is read back before the rest of the string. */
  lemma CharRoundTrip(c: char, tail: string, t: string, rest: string)
    requires ParseString(tail) == Some((t, rest))
    ensures ParseString(Escaped(c) + tail) == Some(([c] + t, rest))
  {
    hide ParseString, Unescape;
    EscapeRoundTrip(c, tail);
    var escape := Escaped(c)[1..];
    if Escaped(c)[0] == '\\' {
      ReadEscape(escape, c, tail, t, rest);
      assert "\\" + escape == Escaped(c);
    } else {
      ReadPlain(c, tail, t, rest);
    }
  }

  lemma StringTailUnfolds(s: string, rest: string)
    requires s != ""
    ensures StringTail(s) + rest == Escaped(s[0]) + (StringTail(s[1..]) + rest)
  {
    hide Escaped;
    Cat(Escaped(s[0]), StringTail(s[1..]), rest);
  }

  lemma {:induction false} StringRoundTrip(s: string, rest: string)
    ensures ParseString(StringTail(s) + rest) == Some((s, rest))
  {
    if s == "" {
      Cut("\"", rest);
    } else {
      hide ParseString, Escaped, StringTail;
      StringRoundTrip(s[1..], rest);
      CharRoundTrip(s[0], StringTail(s[1..]) + rest, s[1..], rest);
      StringTailUnfolds(s, rest);
      assert [s[0]] + s[1..] == s;
    }
  }

  // ------------------------------------------------------------------
  // Numbers
  // ------------------------------------------------------------------

  /** What may follow a number without being read as part of it. */
  predicate Delimited(rest: string) {
    rest == "" || !(IsDigit(rest[0]) || rest[0] in ".eE")
  }

  lemma {:induction false} DigitsStop(s: string, rest: string)
    requires Delimited(rest)
    ensures DigitsLen(s + rest) == DigitsLen(s)
  {
    if s == "" {
      assert s + rest == rest;
    } else {
      assert (s + rest)[1..] == s[1..] + rest;
      DigitsStop(s[1..], rest);
    }
  }

  lemma IntStops(s: string, rest: string)
    requires s != "" && Delimited(rest)
    ensures IntLen(s + rest) == IntLen(s)
  {
    var sign := if s[0] == '-' then 1 else 0;
    assert (s + rest)[sign..] == s[sign..] + rest;
    DigitsStop(s[sign..], rest);
  }

  lemma FracStops(s: string, rest: string)
    requires Delimited(rest)
    ensures FracLen(s + rest) == FracLen(s)
  {
    if s == "" {
      assert s + rest == rest;
    } else {
      assert (s + rest)[1..] == s[1..] + rest;
      DigitsStop(s[1..], rest);
    }
  }

  /** An exponent that stops at the end of s is not revived by what follows,
      unless s breaks off inside one. */
  lemma ExpStops(s: string, rest: string)
    requires Delimited(rest) && (s == "" || ExpLen(s) == |s|)
    ensures ExpLen(s + rest) == ExpLen(s)
  {
    if s == "" {
      assert s + rest == rest;
    } else {
      var sign := if |s| > 1 && (s[1] == '+' || s[1] == '-') then 1 else 0;
      assert (s + rest)[1] == s[1];
      assert (s + rest)[1 + sign..] == s[1 + sign..] + rest;
      DigitsStop(s[1 + sign..], rest);
    }
  }

  lemma FloatShape(t: string) returns (n: nat, f: nat, e: nat)
    requires IsFloatToken(t)
    ensures 0 < n == IntLen(t) && f == FracLen(t[n..]) && n + f + e == |t| && e == ExpLen(t[n + f..]) && f + e > 0
  {
    n := IntLen(t);
    f := FracLen(t[n..]);
    e := ExpLen(t[n + f..]);
    assert t[n + f + e..] == "";
  }

  lemma ReadFloat(s: string, n: nat, f: nat, e: nat)
    requires 0 < n == IntLen(s) && f == FracLen(s[n..]) && e == ExpLen(s[n + f..]) && f + e > 0
    ensures n + f + e <= |s| && ParseNumber(s) == Some((Float(s[..n + f + e]), s[n + f + e..]))
  {
  }

  /** The three parts of the token are read as they were, whatever delimits it. */
  lemma PartsStop(t: string, rest: string, n: nat, f: nat, e: nat)
    requires 0 < n == IntLen(t) && f == FracLen(t[n..]) && n + f + e == |t| && e == ExpLen(t[n + f..])
    requires Delimited(rest)
    ensures IntLen(t + rest) == n && FracLen((t + rest)[n..]) == f && ExpLen((t + rest)[n + f..]) == e
  {
    hide IntLen, FracLen, ExpLen, Delimited;
    IntStops(t, rest);
    CutInFirst(t, rest, n);
    FracStops(t[n..], rest);
    CutInFirst(t, rest, n + f);
    ExpStops(t[n + f..], rest);
  }

  lemma FloatRoundTrip(t: string, rest: string)
    requires IsFloatToken(t) && Delimited(rest)
    ensures ParseNumber(t + rest) == Some((Float(t), rest))
  {
    var n, f, e := FloatShape(t);
    hide IntLen, FracLen, ExpLen, ParseNumber, IsFloatToken, Delimited;
    PartsStop(t, rest, n, f, e);
    Cut(t, rest);
    ReadFloat(t + rest, n, f, e);
  }

  predicate AllDigits(s: string) {
    forall k :: 0 <= k < |s| ==> IsDigit(s[k])
  }

  lemma {:induction false} NatTextDigits(n: nat)
    ensures AllDigits(NatText(n)) && NatText(n) != "" && DigitsValue(NatText(n)) == n
    ensures NatText(n)[0] == '0' <==> n == 0
  {
    if n < 10 {
      assert [Digit(n)][..0] == "";
    } else {
      NatTextDigits(n / 10);
      var s := NatText(n);
      assert s[..|s| - 1] == NatText(n / 10);
    }
  }

  lemma {:induction false} AllDigitsLen(s: string)
    requires AllDigits(s)
    ensures DigitsLen(s) == |s|
  {
    if s != "" {
      AllDigitsLen(s[1..]);
    }
  }

  lemma ReadInt(s: string, n: nat)
    requires 0 < n == IntLen(s) && FracLen(s[n..]) == 0 && ExpLen(s[n..]) == 0
    ensures ParseNumber(s) == Some((Int(if s[0] == '-' then 0 - DigitsValue(s[1..n]) else DigitsValue(s[..n])), s[n..]))
  {
  }

  lemma NoFraction(rest: string)
    requires Delimited(rest)
    ensures FracLen(rest) == 0 && ExpLen(rest) == 0
  {
  }

  lemma IntTextLen(i: int)
    ensures IntLen(IntText(i)) == |IntText(i)| > 0
    ensures i < 0 ==> IntText(i)[0] == '-' && AllDigits(IntText(i)[1..]) && DigitsValue(IntText(i)[1..]) == -i
    ensures i >= 0 ==> IsDigit(IntText(i)[0]) && AllDigits(IntText(i)) && DigitsValue(IntText(i)) == i
  {
    var n := if i < 0 then -i else i;
    var digits := NatText(n);
    NatTextDigits(n);
    AllDigitsLen(digits);
    ZeroAlone(n);
    var t := IntText(i);
    if i < 0 {
      assert t[1..] == digits;
    } else {
      assert t[0..] == digits;
    }
  }

  lemma ZeroAlone(n: nat)
    ensures NatText(n)[0] == '0' ==> |NatText(n)| == 1
  {
    NatTextDigits(n);
  }

  lemma IntRoundTrip(i: int, rest: string)
    requires Delimited(rest)
    ensures ParseNumber(IntText(i) + rest) == Some((Int(i), rest))
  {
    var t := IntText(i);
    var s := t + rest;
    IntTextLen(i);
    IntStops(t, rest);
    NoFraction(rest);
    assert s[|t|..] == rest && s[..|t|] == t && s[1..|t|] == t[1..] && s[0] == t[0];
    ReadInt(s, |t|);
  }

  // ------------------------------------------------------------------
  // Values
  // ------------------------------------------------------------------

  /** How the text of a value may start. */
  predicate StartsValue(s: string) {
    s != "" && !IsBlank(s[0]) && s[0] != ']' && s[0] != '}'
  }

  lemma PrintStartsValue(v: Json)
    requires Canonical(v)
    ensures StartsValue(Print(v))
  {
    if v.Int? {
      NatTextDigits(if v.i < 0 then -v.i else v.i);
    }
  }

  lemma ReadStr(body: string, t: string, rest: string)
    requires ParseString(body) == Some((t, rest))
    ensures ParseValue("\"" + body) == Some((Str(t), rest))
  {
    assert ("\"" + body)[1..] == body;
  }

  lemma ReadArr(body: string, v: Json, rest: string)
    requires StartsValue(body) && ParseItems(body, []) == Some((v, rest))
    ensures ParseValue("[" + body) == Some((v, rest))
  {
    assert ("[" + body)[1..] == body;
  }

  lemma ReadObj(body: string, v: Json, rest: string)
    requires StartsValue(body) && ParseFields(body, []) == Some((v, rest))
    ensures ParseValue("{" + body) == Some((v, rest))
  {
    assert ("{" + body)[1..] == body;
  }

  lemma ReadEmpty(rest: string)
    ensures ParseValue("[]" + rest) == Some((Arr([]), rest)) && ParseValue("{}" + rest) == Some((Obj([]), rest))
  {
    assert ("[]" + rest)[1..] == "]" + rest && ("]" + rest)[1..] == rest;
    assert ("{}" + rest)[1..] == "}" + rest && ("}" + rest)[1..] == rest;
  }

  lemma ReadNumber(s: string, v: Json, rest: string)
    requires ParseNumber(s) == Some((v, rest))
    ensures ParseValue(s) == Some((v, rest))
  {
    assert IntLen(s) > 0;
  }

  lemma ReadWord(rest: string)
    ensures ParseValue("null" + rest) == Some((Null, rest))
    ensures ParseValue("true" + rest) == Some((Bool(true), rest))
    ensures ParseValue("false" + rest) == Some((Bool(false), rest))
  {
    assert ("null" + rest)[4..] == rest && ("true" + rest)[4..] == rest && ("false" + rest)[5..] == rest;
  }

  lemma {:induction false} ValueRoundTrip(v: Json, rest: string)
    requires Canonical(v) && Delimited(rest)
    ensures ParseValue(Print(v) + rest) == Some((v, rest))
    decreases v, 0
  {
    hide ParseFields, ParseField, ParseValue, ParseItems, ParseNumber, ParseString, IsFloatToken;
    match v {
      case Null => ReadWord(rest);
      case Bool(_) => ReadWord(rest);
      case Int(i) =>
        IntRoundTrip(i, rest);
        ReadNumber(IntText(i) + rest, v, rest);
      case Float(t) =>
        FloatRoundTrip(t, rest);
        ReadNumber(t + rest, v, rest);
      case Str(t) =>
        StringRoundTrip(t, rest);
        ReadStr(StringTail(t) + rest, t, rest);
        assert Print(v) + rest == "\"" + (StringTail(t) + rest);
      case Arr(items) => ArrRoundTrip(items, rest);
      case Obj(fields) => ObjRoundTrip(fields, rest);
    }
  }

  lemma {:induction false} ArrRoundTrip(items: seq<Json>, rest: string)
    requires (forall k :: 0 <= k < |items| ==> Canonical(items[k])) && Delimited(rest)
    ensures ParseValue(Print(Arr(items)) + rest) == Some((Arr(items), rest))
    decreases items, 2
  {
    if items == [] {
      ReadEmpty(rest);
      assert Print(Arr(items)) == "[]";
    } else {
      var body := ItemsTail(items) + rest;
      ItemsRoundTrip(items, [], rest);
      ItemsStart(items, rest);
      assert [] + items == items;
      ReadArr(body, Arr(items), rest);
      assert Print(Arr(items)) + rest == "[" + body;
    }
  }

  lemma {:induction false} ObjRoundTrip(fields: Fields, rest: string)
    requires Sorted(fields) && (forall k :: 0 <= k < |fields| ==> Canonical(fields[k].value)) && Delimited(rest)
    ensures ParseValue(Print(Obj(fields)) + rest) == Some((Obj(fields), rest))
    decreases fields, 2
  {
    hide ParseFields, ParseField, ParseValue, ParseItems, StringTail;
    if fields == [] {
      ReadEmpty(rest);
      assert Print(Obj(fields)) == "{}";
    } else {
      var body := FieldsTail(fields) + rest;
      assert [] + fields == fields;
      FieldsRoundTrip(fields, [], rest);
      FieldsStart(fields, rest);
      ReadObj(body, Obj(fields), rest);
      assert Print(Obj(fields)) + rest == "{" + body;
    }
  }

  lemma ItemsStart(items: seq<Json>, rest: string)
    requires items != [] && Canonical(items[0])
    ensures StartsValue(ItemsTail(items) + rest)
  {
    PrintStartsValue(items[0]);
  }

  lemma ReadLastItem(s: string, done: seq<Json>, v: Json, rest: string)
    requires ParseValue(s) == Some((v, "]" + rest))
    ensures ParseItems(s, done) == Some((Arr(done + [v]), rest))
  {
    assert ("]" + rest)[1..] == rest;
  }

  lemma ReadItem(s: string, done: seq<Json>, v: Json, more: string)
    requires ParseValue(s) == Some((v, "," + more)) && StartsValue(more)
    ensures ParseItems(s, done) == ParseItems(more, done + [v])
  {
    assert ("," + more)[1..] == more;
  }

  lemma {:induction false} ItemsRoundTrip(items: seq<Json>, done: seq<Json>, rest: string)
    requires items != [] && (forall k :: 0 <= k < |items| ==> Canonical(items[k]))
    ensures ParseItems(ItemsTail(items) + rest, done) == Some((Arr(done + items), rest))
    decreases items, 1
  {
    hide ParseFields, ParseField, ParseValue, ParseItems, Print;
    var v, s := items[0], ItemsTail(items) + rest;
    var after := MoreItems(items[1..]) + rest;
    assert s == Print(v) + after;
    if |items| == 1 {
      assert after == "]" + rest;
      ValueRoundTrip(v, after);
      ReadLastItem(s, done, v, rest);
      assert done + [v] == done + items;
    } else {
      var more := ItemsTail(items[1..]) + rest;
      ItemsStart(items[1..], rest);
      assert after == "," + more;
      ValueRoundTrip(v, after);
      ReadItem(s, done, v, more);
      ItemsRoundTrip(items[1..], done + [v], rest);
      assert done + [v] + items[1..] == done + items;
    }
  }

  lemma {:induction false} InsertLast(fields: Fields, key: string, v: Json)
    requires forall k :: 0 <= k < |fields| ==> Less(fields[k].key, key)
    ensures Insert(fields, key, v) == Some(fields + [Field(key, v)])
  {
    hide Less;
    assert [Field(key, v)] + [] == [Field(key, v)] == [] + [Field(key, v)];
    if fields != [] {
      Dictionary.LessIsStrict(fields[0].key, key);
      assert forall k :: 0 <= k < |fields[1..]| ==> fields[1..][k] == fields[k + 1];
      InsertLast(fields[1..], key, v);
      assert [fields[0]] + (fields[1..] + [Field(key, v)]) == fields + [Field(key, v)];
    }
  }

  lemma FieldRoundTrip(f: Field, rest: string)
    requires Canonical(f.value) && Delimited(rest)
    requires ParseValue(Print(f.value) + rest) == Some((f.value, rest))
    ensures ParseField(FieldText(f) + rest) == Some((f.key, f.value, rest))
  {
    hide ParseFields, ParseValue, ParseItems, ParseString, StringTail, Print;
    var value := Print(f.value) + rest;
    assert (FieldText(f) + rest)[1..] == StringTail(f.key) + (":" + value);
    StringRoundTrip(f.key, ":" + value);
    assert (":" + value)[1..] == value;
    PrintStartsValue(f.value);
  }

  lemma FieldsStart(fields: Fields, rest: string)
    requires fields != []
    ensures StartsValue(FieldsTail(fields) + rest)
  {
    assert FieldText(fields[0])[0] == '"';
  }

  lemma ReadLastField(s: string, done: Fields, f: Field, rest: string)
    requires ParseField(s) == Some((f.key, f.value, "}" + rest)) && Insert(done, f.key, f.value) == Some(done + [f])
    ensures ParseFields(s, done) == Some((Obj(done + [f]), rest))
  {
    assert ("}" + rest)[1..] == rest;
  }

  lemma ReadMoreFields(s: string, done: Fields, f: Field, more: string)
    requires ParseField(s) == Some((f.key, f.value, "," + more)) && Insert(done, f.key, f.value) == Some(done + [f])
    requires StartsValue(more)
    ensures ParseFields(s, done) == ParseFields(more, done + [f])
  {
    assert ("," + more)[1..] == more;
  }

  lemma FieldsUnfold(fields: Fields, rest: string)
    ensures fields == [] ==> MoreFields(fields) + rest == "}" + rest
    ensures fields != [] ==> FieldsTail(fields) + rest == FieldText(fields[0]) + (MoreFields(fields[1..]) + rest)
    ensures fields != [] ==> MoreFields(fields) + rest == "," + (FieldsTail(fields) + rest)
    ensures Delimited(MoreFields(fields) + rest)
  {
    hide FieldText;
    if fields != [] {
      Cat(FieldText(fields[0]), MoreFields(fields[1..]), rest);
      Cat(",", FieldsTail(fields), rest);
    }
  }

  lemma {:induction false} FieldsRoundTrip(fields: Fields, done: Fields, rest: string)
    requires fields != [] && Sorted(done + fields) && (forall k :: 0 <= k < |fields| ==> Canonical(fields[k].value))
    ensures ParseFields(FieldsTail(fields) + rest, done) == Some((Obj(done + fields), rest))
    decreases fields, 1
  {
    hide *;
    var f, others := fields[0], fields[1..];
    FirstFieldRead(fields, done, rest);
    FieldsUnfold(others, rest);
    if others == [] {
      ReadLastField(FieldsTail(fields) + rest, done, f, rest);
      assert done + [f] == done + fields;
    } else {
      assert done + [f] + others == done + fields;
      FieldsRoundTrip(others, done + [f], rest);
      FieldsStart(others, rest);
      ReadMoreFields(FieldsTail(fields) + rest, done, f, FieldsTail(others) + rest);
    }
  }

  lemma {:induction false} FirstFieldRead(fields: Fields, done: Fields, rest: string)
    requires fields != [] && Sorted(done + fields) && Canonical(fields[0].value)
    ensures ParseField(FieldsTail(fields) + rest) == Some((fields[0].key, fields[0].value, MoreFields(fields[1..]) + rest))
    ensures Insert(done, fields[0].key, fields[0].value) == Some(done + [fields[0]])
    decreases fields, 0
  {
    var after := MoreFields(fields[1..]) + rest;
    InsertNext(done, fields);
    FieldsUnfold(fields, rest);
    FieldsUnfold(fields[1..], rest);
    hide *;
    ValueRoundTrip(fields[0].value, after);
    FieldRoundTrip(fields[0], after);
  }

  lemma InsertNext(done: Fields, fields: Fields)
    requires fields != [] && Sorted(done + fields)
    ensures Insert(done, fields[0].key, fields[0].value) == Some(done + [fields[0]])
  {
    forall k | 0 <= k < |done|
      ensures Less(done[k].key, fields[0].key)
    {
      assert (done + fields)[k] == done[k] && (done + fields)[|done|] == fields[0];
    }
    InsertLast(done, fields[0].key, fields[0].value);
  }

  /** The whole text of a canonical value parses back to it. */
  lemma TextRoundTrip(v: Json)
    requires Canonical(v)
    ensures ParseText(Print(v)) == Some(v)
  {
    ValueRoundTrip(v, "");
    PrintStartsValue(v);
    assert Print(v) + "" == Print(v);
  }

  // ------------------------------------------------------------------
  // One line
  // ------------------------------------------------------------------

  predicate NoControls(s: string) {
    forall k :: 0 <= k < |s| ==> s[k] as int >= 32
  }

  lemma {:induction false} StringTailNoControls(s: string)
    ensures NoControls(StringTail(s))
  {
    if s != "" {
      StringTailNoControls(s[1..]);
    }
  }

  /** Printing leaves no control character raw, so a value is one line of text. */
  lemma {:induction false} PrintNoControls(v: Json)
    requires Canonical(v)
    ensures NoControls(Print(v))
    decreases v, 0
  {
    match v {
      case Null =>
      case Bool(_) =>
      case Int(i) => NatTextDigits(if i < 0 then -i else i);
      case Float(t) => FloatNoControls(t);
      case Str(s) => StringTailNoControls(s);
      case Arr(items) => ItemsNoControls(items);
      case Obj(fields) => FieldsNoControls(fields);
    }
  }

  lemma FloatNoControls(t: string)
    requires IsFloatToken(t)
    ensures NoControls(t)
  {
    var n := IntLen(t);
    var f := FracLen(t[n..]);
    var e := ExpLen(t[n + f..]);
    assert t[n + f + e..] == "";
    forall k | 0 <= k < |t|
      ensures t[k] as int >= 32
    {
      if k >= n + f {
        assert t[k] == t[n + f..][k - n - f];
      } else if k >= n {
        assert t[k] == t[n..][k - n];
      }
    }
  }

  lemma {:induction false} ItemsNoControls(items: seq<Json>)
    requires forall k :: 0 <= k < |items| ==> Canonical(items[k])
    ensures NoControls(ItemsTail(items)) && NoControls(MoreItems(items))
    decreases items, 1
  {
    if items != [] {
      PrintNoControls(items[0]);
      ItemsNoControls(items[1..]);
    }
  }

  lemma {:induction false} FieldsNoControls(fields: Fields)
    requires forall k :: 0 <= k < |fields| ==> Canonical(fields[k].value)
    ensures NoControls(FieldsTail(fields)) && NoControls(MoreFields(fields))
    decreases fields, 1
  {
    if fields != [] {
      PrintNoControls(fields[0].value);
      StringTailNoControls(fields[0].key);
      FieldsNoControls(fields[1..]);
    }
  }
}
