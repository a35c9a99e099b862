/** Whatever the decoder accepts is a frame the constructors leave unchanged,
    and a fixed point of encoding and decoding. */
module ProtocolStrict {
  import opened Common
  import opened Dictionary
  import opened Json
  import opened Protocol
  import opened ProtocolRoundTrip
  import JsonRoundTrip
  import JsonStrict
  import Text

  // ------------------------------------------------------------------
  // Field by field
  // ------------------------------------------------------------------

  lemma TextReadIsValid(v: Json)
    ensures ReadText(v).Some? ==> ValidText(ReadText(v).value)
    ensures ReadToken(v).Some? ==> ValidToken(ReadToken(v).value)
  {
    if v.Str? {
      Text.StripTwice(v.s);
    }
  }

  lemma OptionalReadIsValid(v: Json)
    ensures ReadOptional(v).Some? ==> ValidOptional(ReadOptional(v).value)
  {
    TextReadIsValid(v);
  }

  lemma {:induction false} EachReadIsValid(items: seq<Json>)
    ensures ReadEach(items).Some? ==> |ReadEach(items).value| == |items| && forall k :: 0 <= k < |items| ==> ValidToken(ReadEach(items).value[k])
  {
    hide ReadToken, ValidToken;
    if items != [] {
      TextReadIsValid(items[0]);
      EachReadIsValid(items[1..]);
    }
  }

  lemma TokensReadAreValid(v: Json, allowEmpty: bool)
    ensures ReadTokens(v, allowEmpty).Some? ==> ValidTokens(ReadTokens(v, allowEmpty).value) && (allowEmpty || ReadTokens(v, allowEmpty).value != [])
  {
    if v.Arr? {
      EachReadIsValid(v.items);
    }
  }

  lemma ContextReadIsValid(d: Dict)
    ensures ContextOf(d).Some? ==> ValidContext(ContextOf(d).value)
  {
    hide ReadToken, ReadOptional, ReadTokens, ValidToken, ValidOptional, ValidTokens;
    if REQUIRED_CONTEXT_FIELDS <= d.Keys <= IMMUTABLE_CONTEXT_FIELDS {
      TextReadIsValid(d["client_id"]);
      TextReadIsValid(d["surface"]);
      TextReadIsValid(d["agent_id"]);
      TextReadIsValid(d["session_id"]);
      OptionalReadIsValid(GetOrNull(d, "parent_agent_id"));
      OptionalReadIsValid(GetOrNull(d, "project_root"));
      OptionalReadIsValid(GetOrNull(d, "repository"));
      OptionalReadIsValid(GetOrNull(d, "branch"));
      OptionalReadIsValid(GetOrNull(d, "commit_sha"));
      TokensReadAreValid(d["access_scopes"], false);
    }
  }

  /** Canonical values, nested at most n deep. */
  ghost predicate AllFit(d: Dict, n: int) {
    forall k :: k in d ==> Canonical(d[k]) && Within(d[k], n)
  }

  lemma {:induction false} ParsedDictFits(fields: Fields, n: int)
    requires forall k :: 0 <= k < |fields| ==> Canonical(fields[k].value) && Within(fields[k].value, n)
    ensures AllFit(DictOf(fields), n)
  {
    if fields != [] {
      ParsedDictFits(fields[1..], n);
    }
  }

  ghost predicate ErrorFits(e: Option<ErrorInfo>, n: int) {
    e.Some? ==> ValidError(e.value) && Within(Obj(e.value.details), n)
  }

  lemma ErrorReadFits(v: Json, n: int)
    requires Canonical(v) && Within(v, n) && n <= MAX_JSON_DEPTH
    ensures ReadOptionalError(v).Some? ==> ErrorFits(ReadOptionalError(v).value, n - 1)
  {
    if v.Obj? {
      var d := DictOf(v.fields);
      ParsedDictFits(v.fields, n - 1);
      hide Canonical, Within, ReadText, ReadToken, ValidText, ValidToken, DictOf;
      if d.Keys == {"code", "message", "retryable", "details"} {
        TextReadIsValid(d["code"]);
        TextReadIsValid(d["message"]);
        assert Canonical(d["details"]) && Within(d["details"], n - 1);
      }
    }
  }

  // ------------------------------------------------------------------
  // Frame by frame
  // ------------------------------------------------------------------

  lemma HandshakeReadIsValid(d: Dict)
    ensures ReadHandshake(d).Some? ==> ValidFrame(ReadHandshake(d).value) && FitsInFrame(ReadHandshake(d).value)
  {
    hide ContextOf, ReadTokens, ReadVersion, ValidContext, ValidTokens, DictOf;
    if d.Keys == {"type", "protocol", "schema_version", "capabilities", "context"} {
      TokensReadAreValid(d["capabilities"], true);
      if d["context"].Obj? {
        ContextReadIsValid(DictOf(d["context"].fields));
      }
    }
  }

  lemma HandshakeResponseReadIsValid(d: Dict)
    requires AllFit(d, MAX_JSON_DEPTH - 1)
    ensures ReadHandshakeResponse(d).Some? ==> ValidFrame(ReadHandshakeResponse(d).value) && FitsInFrame(ReadHandshakeResponse(d).value)
  {
    hide ReadTokens, ReadText, ReadVersion, ReadOptionalError, ValidTokens, ValidText, ValidError, Canonical, Within;
    if d.Keys == {"type", "protocol", "schema_version", "capabilities", "service_version", "accepted", "error"} {
      TokensReadAreValid(d["capabilities"], true);
      TextReadIsValid(d["service_version"]);
      ErrorReadFits(d["error"], MAX_JSON_DEPTH - 1);
    }
  }

  lemma RequestReadIsValid(d: Dict)
    requires AllFit(d, MAX_JSON_DEPTH - 1)
    ensures ReadRequest(d).Some? ==> ValidFrame(ReadRequest(d).value) && FitsInFrame(ReadRequest(d).value)
  {
    hide ReadToken, ReadVersion, ValidToken, Canonical, Within, METHOD_CAPABILITIES, OverridesContext, DictOf;
    if d.Keys == {"type", "protocol", "schema_version", "request_id", "method", "params"} {
      TextReadIsValid(d["request_id"]);
      TextReadIsValid(d["method"]);
      assert Canonical(d["params"]) && Within(d["params"], MAX_JSON_DEPTH - 1);
    }
  }

  lemma ResponseReadIsValid(d: Dict)
    requires AllFit(d, MAX_JSON_DEPTH - 1)
    ensures ReadResponse(d).Some? ==> ValidFrame(ReadResponse(d).value) && FitsInFrame(ReadResponse(d).value)
  {
    hide ReadToken, ReadVersion, ReadOptionalError, ValidToken, ValidError, Canonical, Within;
    if d.Keys == {"type", "protocol", "schema_version", "request_id", "ok", "result", "error"} {
      TextReadIsValid(d["request_id"]);
      ErrorReadFits(d["error"], MAX_JSON_DEPTH - 1);
      assert Canonical(d["result"]) && Within(d["result"], MAX_JSON_DEPTH - 1);
    }
  }

  lemma FrameReadIsValid(d: Dict)
    requires AllFit(d, MAX_JSON_DEPTH - 1)
    ensures ReadFrame(d).Ok? ==> ValidFrame(ReadFrame(d).value) && FitsInFrame(ReadFrame(d).value)
  {
    hide ReadHandshake, ReadHandshakeResponse, ReadRequest, ReadResponse, ValidFrame, FitsInFrame, AllFit;
    HandshakeReadIsValid(d);
    HandshakeResponseReadIsValid(d);
    RequestReadIsValid(d);
    ResponseReadIsValid(d);
  }

  lemma ParsedTextFits(line: string)
    requires ParseText(line).Some? && ParseText(line).value.Obj? && Within(ParseText(line).value, MAX_JSON_DEPTH)
    ensures AllFit(DictOf(ParseText(line).value.fields), MAX_JSON_DEPTH - 1)
  {
    var v := ParseText(line).value;
    hide ParseValue, SkipBlanks, DictOf;
    JsonStrict.ParsedIsCanonical(SkipBlanks(line));
    ParsedDictFits(v.fields, MAX_JSON_DEPTH - 1);
  }

  // ------------------------------------------------------------------
  // Theorems
  // ------------------------------------------------------------------

  /** A decoded frame is valid, of the supported major version unless that check
      is off, and shallow enough to be sent on. */
  lemma DecodedIsValid(text: string, limit: int, refuse: bool)
    requires Decode(text, limit, refuse).Ok?
    ensures var f := Decode(text, limit, refuse).value;
            ValidFrame(f) && FitsInFrame(f) && (refuse ==> f.protocol.major == PROTOCOL_MAJOR)
  {
    var line := TrimNewline(text);
    var v := ParseText(line).value;
    hide ParseText, ReadFrame, Within, DictOf, TrimNewline, Utf8Size, ValidFrame, FitsInFrame;
    ParsedTextFits(line);
    FrameReadIsValid(DictOf(v.fields));
  }

  /** However the text was laid out, the frame it decodes to survives being
      encoded and decoded again. */
  lemma DecodedSurvivesRoundTrip(text: string, limit: int, limit2: int)
    requires Decode(text, limit, true).Ok? && Encode(Decode(text, limit, true).value, limit2).Ok?
    ensures var f := Decode(text, limit, true).value;
            Decode(Encode(f, limit2).value, limit2, true) == Ok(f)
  {
    hide Decode, Encode, ValidFrame, FitsInFrame;
    DecodedIsValid(text, limit, true);
    RoundTripIff(Decode(text, limit, true).value, limit2);
  }

  /** The decoder raises its undeclared exception exactly for a well-formed
      object, shallow enough, whose type field is an array or an object. */
  lemma UnhashableIff(text: string, limit: int, refuse: bool)
    requires limit > 0 && Utf8Size(text) <= limit
    ensures Decode(text, limit, refuse) == Err(Unhashable) <==>
              var line := TrimNewline(text);
              && line != "" && '\n' !in line && '\r' !in line && ParseText(line).Some?
              && var v := ParseText(line).value;
                 && v.Obj? && Within(v, MAX_JSON_DEPTH)
                 && var d := DictOf(v.fields); "type" in d && (d["type"].Arr? || d["type"].Obj?)
  {
    hide ParseText, Within, DictOf, TrimNewline, Utf8Size, ReadHandshake, ReadHandshakeResponse, ReadRequest, ReadResponse;
  }

  /** Every printed object with such a type field is a text that raises it. */
  lemma PrintedUnhashable(v: Json, limit: int, refuse: bool)
    requires Canonical(v) && v.Obj? && Within(v, MAX_JSON_DEPTH) && limit > 0 && Utf8Size(Print(v)) <= limit
    requires var d := DictOf(v.fields); "type" in d && (d["type"].Arr? || d["type"].Obj?)
    ensures Decode(Print(v), limit, refuse) == Err(Unhashable)
  {
    hide *;
    JsonRoundTrip.TextRoundTrip(v);
    JsonRoundTrip.PrintNoControls(v);
    JsonRoundTrip.PrintStartsValue(v);
    Untrimmed(Print(v));
    UnhashableIff(Print(v), limit, refuse);
  }

  lemma Untrimmed(line: string)
    requires JsonRoundTrip.NoControls(line)
    ensures TrimNewline(line) == line && '\n' !in line && '\r' !in line
  {
    if |line| >= 2 {
      assert line[|line| - 2..][1] == line[|line| - 1];
    }
  }

  lemma {:induction false} LettersPrintThemselves(s: string)
    requires forall k :: 0 <= k < |s| ==> 'a' <= s[k] <= 'z'
    ensures StringTail(s) == s + "\""
  {
    if s != "" {
      LettersPrintThemselves(s[1..]);
      assert s == [s[0]] + s[1..];
    }
  }

  lemma {:induction false} AsciiSize(s: string)
    requires forall k :: 0 <= k < |s| ==> s[k] as int < 128
    ensures Utf8Size(s) == |s|
  {
    if s != "" {
      AsciiSize(s[1..]);
    }
  }

  lemma PrintedEmptyArray(key: string)
    requires StringTail(key) == key + "\""
    ensures Print(Obj([Field(key, Arr([]))])) == "{\"" + key + "\":[]}"
  {
    hide StringTail;
    var f := Field(key, Arr([]));
    assert [f][1..] == [];
    assert Print(f.value) == "[]";
    assert FieldText(f) == "\"" + key + "\":[]";
    assert FieldsTail([f]) == FieldText(f) + "}";
  }

  lemma EmptyArrayShape(key: string)
    ensures var v := Obj([Field(key, Arr([]))]);
            Canonical(v) && Within(v, MAX_JSON_DEPTH) && DictOf(v.fields) == map[key := Arr([])]
  {
    var v := Obj([Field(key, Arr([]))]);
    assert v.fields[1..] == [];
    assert DictOf(v.fields[1..]) == map[];
  }

  /** For instance `{"type":[]}`, whenever its eleven bytes are within the limit. */
  lemma UnhashableText(limit: int, refuse: bool)
    requires limit >= 11
    ensures Decode("{\"" + "type" + "\":[]}", limit, refuse) == Err(Unhashable)
  {
    hide *;
    var text := "{\"" + "type" + "\":[]}";
    LettersPrintThemselves("type");
    PrintedEmptyArray("type");
    AsciiSize(text);
    EmptyArrayShape("type");
    PrintedUnhashable(Obj([Field("type", Arr([]))]), limit, refuse);
  }
}
