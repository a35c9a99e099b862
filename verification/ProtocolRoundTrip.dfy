/** Decoding undoes encoding, exactly as far as the depth limit and the major
    version allow. */
module ProtocolRoundTrip {
  import opened Common
  import opened Dictionary
  import opened Json
  import opened JsonRoundTrip
  import opened Protocol
  import opened Text

  // ------------------------------------------------------------------
  // Field by field
  // ------------------------------------------------------------------

  lemma ReadBackText(s: string)
    ensures ValidText(s) ==> ReadText(Str(s)) == Some(s)
    ensures ValidToken(s) ==> ReadToken(Str(s)) == Some(s)
  {
  }

  lemma ReadBackOptional(s: Option<string>)
    requires ValidOptional(s)
    ensures ReadOptional(OptionalText(s)) == Some(s)
  {
  }

  lemma {:induction false} ReadBackEach(ts: seq<string>)
    requires forall k :: 0 <= k < |ts| ==> ValidToken(ts[k])
    ensures ReadEach(Strings(ts).items) == Some(ts)
  {
    hide ReadToken, ValidToken;
    if ts != [] {
      ReadBackText(ts[0]);
      ReadBackEach(ts[1..]);
      assert Strings(ts).items[1..] == Strings(ts[1..]).items;
      assert [ts[0]] + ts[1..] == ts;
    }
  }

  lemma ReadBackTokens(ts: seq<string>, allowEmpty: bool)
    requires ValidTokens(ts) && (allowEmpty || ts != [])
    ensures ReadTokens(Strings(ts), allowEmpty) == Some(ts)
  {
    ReadBackEach(ts);
    assert |Strings(ts).items| == |ts|;
  }

  lemma ReadBackVersion(v: Version)
    ensures ReadVersion(ObjOf(VersionDict(v))) == Some(v)
  {
    DictOfFieldsOf(VersionDict(v));
  }

  lemma ContextKeys(c: Context)
    ensures ContextDict(c).Keys == IMMUTABLE_CONTEXT_FIELDS && REQUIRED_CONTEXT_FIELDS <= IMMUTABLE_CONTEXT_FIELDS
  {
    hide OptionalText, Strings;
  }

  lemma ReadBackContext(c: Context)
    requires ValidContext(c)
    ensures ReadContext(ObjOf(ContextDict(c))) == Some(c)
  {
    DictOfFieldsOf(ContextDict(c));
    ReadBackContextDict(c);
  }

  lemma ReadBackContextDict(c: Context)
    requires ValidContext(c)
    ensures ContextOf(ContextDict(c)) == Some(c)
  {
    hide ReadToken, ReadOptional, ReadTokens, ValidToken, ValidOptional, ValidTokens, Strings, OptionalText,
         IMMUTABLE_CONTEXT_FIELDS, REQUIRED_CONTEXT_FIELDS;
    ContextKeys(c);
    ReadBackText(c.clientId);
    ReadBackText(c.surface);
    ReadBackText(c.agentId);
    ReadBackText(c.sessionId);
    ReadBackOptional(c.parentAgentId);
    ReadBackOptional(c.projectRoot);
    ReadBackOptional(c.repository);
    ReadBackOptional(c.branch);
    ReadBackOptional(c.commitSha);
    ReadBackTokens(c.accessScopes, false);
  }

  lemma ReadBackError(e: Option<ErrorInfo>)
    requires e.Some? ==> ValidError(e.value)
    ensures ReadOptionalError(ErrorJson(e)) == Some(e)
  {
    hide FieldsOf, DictOf, ReadText, ReadToken, ValidText, ValidToken, Canonical, Within;
    if e.Some? {
      DictOfFieldsOf(ErrorDict(e.value));
      ReadBackText(e.value.code);
      ReadBackText(e.value.message);
    }
  }

  lemma ReadBackHandshake(f: Frame)
    requires f.Handshake? && ValidContext(f.context) && ValidTokens(f.capabilities)
    ensures ReadHandshake(FrameDict(f)) == Some(f)
  {
    hide ReadTokens, ReadContext, ReadVersion, ValidTokens, ValidContext, ContextDict, VersionDict, Strings, ObjOf;
    ReadBackVersion(f.protocol);
    ReadBackContext(f.context);
    ReadBackTokens(f.capabilities, true);
  }

  lemma ReadBackHandshakeResponse(f: Frame)
    requires f.HandshakeResponse? && ValidFrame(f)
    ensures ReadHandshakeResponse(FrameDict(f)) == Some(f)
  {
    hide ReadTokens, ReadText, ReadVersion, ReadOptionalError, ValidTokens, ValidText, ValidError, VersionDict, ErrorJson, Strings, ObjOf;
    ReadBackVersion(f.protocol);
    ReadBackTokens(f.capabilities, true);
    ReadBackText(f.serviceVersion);
    ReadBackError(f.error);
  }

  lemma ReadBackRequest(f: Frame)
    requires f.Request? && ValidFrame(f)
    ensures ReadRequest(FrameDict(f)) == Some(f)
  {
    hide ReadToken, ReadVersion, ValidToken, Canonical, Within, VersionDict, ObjOf, OverridesContext, METHOD_CAPABILITIES, DictOf;
    ReadBackVersion(f.protocol);
    ReadBackText(f.requestId);
    ReadBackText(f.method_);
  }

  lemma ReadBackResponse(f: Frame)
    requires f.Response? && ValidFrame(f)
    ensures ReadResponse(FrameDict(f)) == Some(f)
  {
    hide ReadToken, ReadVersion, ReadOptionalError, ValidToken, ValidError, Canonical, Within, VersionDict, ErrorJson, ObjOf;
    ReadBackVersion(f.protocol);
    ReadBackText(f.requestId);
    ReadBackError(f.error);
  }

  lemma FrameType(f: Frame)
    ensures "type" in FrameDict(f)
    ensures FrameDict(f)["type"] == Str(match f case Handshake(_, _, _, _) => "handshake"
                                                case HandshakeResponse(_, _, _, _, _, _) => "handshake_response"
                                                case Request(_, _, _, _, _) => "request"
                                                case Response(_, _, _, _, _, _) => "response")
  {
  }

  /** What a frame's dictionary says, its reader hears. */
  lemma ReadBackFrame(f: Frame)
    requires ValidFrame(f)
    ensures ReadFrame(FrameDict(f)) == Ok(f)
  {
    FrameType(f);
    hide FrameDict, ReadHandshake, ReadHandshakeResponse, ReadRequest, ReadResponse;
    match f {
      case Handshake(_, _, _, _) => ReadBackHandshake(f);
      case HandshakeResponse(_, _, _, _, _, _) => ReadBackHandshakeResponse(f);
      case Request(_, _, _, _, _) => ReadBackRequest(f);
      case Response(_, _, _, _, _, _) => ReadBackResponse(f);
    }
  }

  // ------------------------------------------------------------------
  // Canonical, and not too deep
  // ------------------------------------------------------------------

  lemma StringsShape(ts: seq<string>)
    ensures Canonical(Strings(ts)) && Within(Strings(ts), 1)
  {
  }

  lemma VersionShape(v: Version)
    ensures Canonical(ObjOf(VersionDict(v))) && Within(ObjOf(VersionDict(v)), 1)
  {
    ObjOfCanonical(VersionDict(v));
    ObjOfWithin(VersionDict(v), 1);
  }

  lemma ContextShape(c: Context)
    ensures Canonical(ObjOf(ContextDict(c))) && Within(ObjOf(ContextDict(c)), 2)
  {
    var d := ContextDict(c);
    StringsShape(c.accessScopes);
    hide FieldsOf;
    forall k | k in d
      ensures Canonical(d[k]) && Within(d[k], 1)
    {
    }
    ObjOfCanonical(d);
    ObjOfWithin(d, 2);
  }

  /** An error object nests as deep as its details and one level more. */
  lemma ErrorShape(e: Option<ErrorInfo>, n: int)
    requires n >= 1 && (e.Some? ==> ValidError(e.value))
    ensures Canonical(ErrorJson(e))
    ensures Within(ErrorJson(e), n) <==> (e.Some? ==> Within(Obj(e.value.details), n - 1))
  {
    if e.Some? {
      var d := ErrorDict(e.value);
      ObjOfCanonical(d);
      ObjOfWithin(d, n);
      assert d["details"] == Obj(e.value.details);
    }
  }

  /** The values a caller supplies still fit the depth limit inside the frame. */
  predicate FitsInFrame(f: Frame) {
    match f
    case Handshake(_, _, _, _) => true
    case HandshakeResponse(_, _, _, error, _, _) => error.Some? ==> Within(Obj(error.value.details), MAX_JSON_DEPTH - 2)
    case Request(_, _, params, _, _) => Within(Obj(params), MAX_JSON_DEPTH - 1)
    case Response(_, _, result, error, _, _) =>
      Within(result, MAX_JSON_DEPTH - 1) && (error.Some? ==> Within(Obj(error.value.details), MAX_JSON_DEPTH - 2))
  }

  ghost predicate AllCanonical(d: Dict) {
    forall k :: k in d ==> Canonical(d[k])
  }

  ghost predicate AllWithin(d: Dict, n: int) {
    forall k :: k in d ==> Within(d[k], n)
  }

  lemma ScalarShape(v: Json, n: nat)
    requires v.Null? || v.Bool? || v.Int? || v.Str?
    ensures Canonical(v) && Within(v, n)
  {
  }

  lemma HandshakeShape(f: Frame)
    requires f.Handshake?
    ensures AllCanonical(FrameDict(f)) && AllWithin(FrameDict(f), MAX_JSON_DEPTH - 1)
  {
    VersionShape(f.protocol);
    WithinMore(ObjOf(VersionDict(f.protocol)), 1, MAX_JSON_DEPTH - 1);
    ContextShape(f.context);
    StringsShape(f.capabilities);
    WithinMore(ObjOf(ContextDict(f.context)), 2, MAX_JSON_DEPTH - 1);
    WithinMore(Strings(f.capabilities), 1, MAX_JSON_DEPTH - 1);
    ScalarShape(Str("handshake"), MAX_JSON_DEPTH - 1);
    ScalarShape(Int(f.schemaVersion), MAX_JSON_DEPTH - 1);
    hide Canonical, Within, ObjOf, VersionDict, ContextDict, Strings;
  }

  lemma HandshakeResponseShape(f: Frame)
    requires f.HandshakeResponse? && (f.error.Some? ==> ValidError(f.error.value))
    ensures AllCanonical(FrameDict(f))
    ensures AllWithin(FrameDict(f), MAX_JSON_DEPTH - 1) <==> Within(ErrorJson(f.error), MAX_JSON_DEPTH - 1)
  {
    VersionShape(f.protocol);
    WithinMore(ObjOf(VersionDict(f.protocol)), 1, MAX_JSON_DEPTH - 1);
    StringsShape(f.capabilities);
    WithinMore(Strings(f.capabilities), 1, MAX_JSON_DEPTH - 1);
    ErrorShape(f.error, MAX_JSON_DEPTH - 1);
    ScalarShape(Str("handshake_response"), MAX_JSON_DEPTH - 1);
    ScalarShape(Int(f.schemaVersion), MAX_JSON_DEPTH - 1);
    ScalarShape(Str(f.serviceVersion), MAX_JSON_DEPTH - 1);
    ScalarShape(Bool(f.accepted), MAX_JSON_DEPTH - 1);
    hide Canonical, Within, ObjOf, VersionDict, ErrorJson, Strings;
    assert FrameDict(f)["error"] == ErrorJson(f.error);
  }

  lemma RequestShape(f: Frame)
    requires f.Request? && Canonical(Obj(f.params))
    ensures AllCanonical(FrameDict(f))
    ensures AllWithin(FrameDict(f), MAX_JSON_DEPTH - 1) <==> Within(Obj(f.params), MAX_JSON_DEPTH - 1)
  {
    VersionShape(f.protocol);
    WithinMore(ObjOf(VersionDict(f.protocol)), 1, MAX_JSON_DEPTH - 1);
    ScalarShape(Str("request"), MAX_JSON_DEPTH - 1);
    ScalarShape(Int(f.schemaVersion), MAX_JSON_DEPTH - 1);
    ScalarShape(Str(f.requestId), MAX_JSON_DEPTH - 1);
    ScalarShape(Str(f.method_), MAX_JSON_DEPTH - 1);
    hide Canonical, Within, ObjOf, VersionDict;
    assert FrameDict(f)["params"] == Obj(f.params);
  }

  lemma ResponseShape(f: Frame)
    requires f.Response? && Canonical(f.result) && (f.error.Some? ==> ValidError(f.error.value))
    ensures AllCanonical(FrameDict(f))
    ensures AllWithin(FrameDict(f), MAX_JSON_DEPTH - 1) <==>
              Within(f.result, MAX_JSON_DEPTH - 1) && Within(ErrorJson(f.error), MAX_JSON_DEPTH - 1)
  {
    hide Canonical, Within, ObjOf, VersionDict, ErrorJson, ValidError;
    VersionShape(f.protocol);
    WithinMore(ObjOf(VersionDict(f.protocol)), 1, MAX_JSON_DEPTH - 1);
    ErrorShape(f.error, MAX_JSON_DEPTH - 1);
    ScalarShape(Str("response"), MAX_JSON_DEPTH - 1);
    ScalarShape(Int(f.schemaVersion), MAX_JSON_DEPTH - 1);
    ScalarShape(Str(f.requestId), MAX_JSON_DEPTH - 1);
    ScalarShape(Bool(f.ok), MAX_JSON_DEPTH - 1);
    assert FrameDict(f)["error"] == ErrorJson(f.error) && FrameDict(f)["result"] == f.result;
  }

  /** The printed frame is canonical, and it is within the depth limit exactly
      when the caller's values fit. */
  lemma FrameShape(f: Frame)
    requires ValidFrame(f)
    ensures Canonical(ObjOf(FrameDict(f)))
    ensures Within(ObjOf(FrameDict(f)), MAX_JSON_DEPTH) <==> FitsInFrame(f)
  {
    hide FrameDict, ValidToken, ValidText, ValidTokens, ValidContext, METHOD_CAPABILITIES, OverridesContext, Canonical;
    match f {
      case Handshake(_, _, _, _) => HandshakeShape(f);
      case HandshakeResponse(_, _, _, error, _, _) =>
        HandshakeResponseShape(f);
        ErrorShape(error, MAX_JSON_DEPTH - 1);
      case Request(_, _, _, _, _) => RequestShape(f);
      case Response(_, _, _, error, _, _) =>
        ResponseShape(f);
        ErrorShape(error, MAX_JSON_DEPTH - 1);
    }
    ObjOfCanonical(FrameDict(f));
    ObjOfWithin(FrameDict(f), MAX_JSON_DEPTH);
  }

  // ------------------------------------------------------------------
  // Theorems
  // ------------------------------------------------------------------

  lemma OneLine(s: string)
    requires NoControls(s) && s != ""
    ensures TrimNewline(s + "\n") == s && '\n' !in s && '\r' !in s
  {
    var t := s + "\n";
    assert |t| >= 2 ==> t[|t| - 2..][0] == s[|s| - 1];
    assert t[..|t| - 1] == s;
  }

  /** Every encoding is one line: its last character is the only raw newline. */
  lemma EncodingIsOneLine(f: Frame, limit: int)
    requires ValidFrame(f) && Encode(f, limit).Ok?
    ensures var text := Encode(f, limit).value;
            && text != "" && text[|text| - 1] == '\n'
            && (forall k :: 0 <= k < |text| - 1 ==> text[k] != '\n' && text[k] != '\r')
            && Utf8Size(text) <= limit
  {
    FrameShape(f);
    PrintNoControls(ObjOf(FrameDict(f)));
  }

  /** Decoding one line that parses to an object. */
  lemma DecodeLine(line: string, fields: Fields, limit: int, refuse: bool)
    requires NoControls(line) && line != "" && ParseText(line) == Some(Obj(fields))
    requires limit > 0 && Utf8Size(line + "\n") <= limit
    ensures Decode(line + "\n", limit, refuse) ==
            if !Within(Obj(fields), MAX_JSON_DEPTH) then Err(Invalid)
            else
              match ReadFrame(DictOf(fields))
              case Err(fault) => Err(fault)
              case Ok(f) => if refuse && f.protocol.major != PROTOCOL_MAJOR then Err(MajorMismatch) else Ok(f)
  {
    hide ParseText, Within, ReadFrame, DictOf, TrimNewline, Utf8Size;
    OneLine(line);
  }

  lemma FrameLine(f: Frame)
    requires ValidFrame(f)
    ensures var line := FrameText(f);
            && NoControls(line) && line != "" && ParseText(line) == Some(ObjOf(FrameDict(f)))
            && DictOf(FieldsOf(FrameDict(f))) == FrameDict(f)
  {
    hide FrameDict, FieldsOf, DictOf, Print, ParseText, Canonical, ValidFrame;
    var v := ObjOf(FrameDict(f));
    FrameShape(f);
    PrintNoControls(v);
    TextRoundTrip(v);
    PrintStartsValue(v);
    DictOfFieldsOf(FrameDict(f));
  }

  lemma LineDecodes(f: Frame, limit: int, refuse: bool)
    requires ValidFrame(f) && Encode(f, limit).Ok?
    ensures Decode(Encode(f, limit).value, limit, refuse) ==
            if !FitsInFrame(f) then Err(Invalid)
            else if refuse && f.protocol.major != PROTOCOL_MAJOR then Err(MajorMismatch)
            else Ok(f)
  {
    hide FrameDict, FieldsOf, DictOf, ReadFrame, Within, FitsInFrame, ValidFrame, Utf8Size, Decode, FrameText, ParseText;
    FrameLine(f);
    FrameShape(f);
    ReadBackFrame(f);
    DecodeLine(FrameText(f), FieldsOf(FrameDict(f)), limit, refuse);
  }

  /** The round trip holds exactly for frames of the supported major version
      whose values still fit the depth limit once they sit inside the frame. */
  lemma RoundTripIff(f: Frame, limit: int)
    requires ValidFrame(f) && Encode(f, limit).Ok?
    ensures Decode(Encode(f, limit).value, limit, true) == Ok(f) <==>
              f.protocol.major == PROTOCOL_MAJOR && FitsInFrame(f)
  {
    LineDecodes(f, limit, true);
  }

  function Nested(n: nat): Json {
    if n == 0 then Null else Arr([Nested(n - 1)])
  }

  lemma {:induction false} NestedWithin(n: nat, d: int)
    ensures Canonical(Nested(n)) && (Within(Nested(n), d) <==> n <= d)
    decreases n
  {
    if n > 0 {
      NestedWithin(n - 1, d - 1);
      assert Nested(n).items[0] == Nested(n - 1);
    }
  }

  function DeepRequest(): Frame {
    Request("r", "health", [Field("x", Nested(31))], Version(1, 0), 1)
  }

  /** Parameters nested exactly 32 deep are accepted by the constructor and the
      encoder, and refused by the decoder. */
  lemma DeepestParamsDoNotDecode(limit: int)
    ensures ValidFrame(DeepRequest())
    ensures limit == Utf8Size(FrameText(DeepRequest()) + "\n") + 1 ==> Encode(DeepRequest(), limit).Ok?
    ensures Encode(DeepRequest(), limit).Ok? ==> Decode(Encode(DeepRequest(), limit).value, limit, true) == Err(Invalid)
  {
    hide Nested, FrameDict, Utf8Size, FrameText, Decode;
    NestedWithin(31, 31);
    NestedWithin(31, 30);
    DeepRequestIsValid();
    DeepRequestDoesNotFit();
    if Encode(DeepRequest(), limit).Ok? {
      LineDecodes(DeepRequest(), limit, true);
    }
  }

  lemma DeepRequestDoesNotFit()
    requires !Within(Nested(31), 30)
    ensures !FitsInFrame(DeepRequest())
  {
    hide Nested;
    assert DeepRequest().params[0].value == Nested(31);
  }

  lemma DeepRequestIsValid()
    requires Canonical(Nested(31)) && Within(Nested(31), 31)
    ensures ValidFrame(DeepRequest())
  {
    hide Nested;
    var params := DeepRequest().params;
    assert DictOf(params) == map["x" := Nested(31)] by {
      assert params[1..] == [];
    }
    assert Strip("r") == "r" && Strip("health") == "health" by {
      TrimmedStays("r");
      TrimmedStays("health");
    }
  }
}
