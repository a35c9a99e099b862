/** The four frames of the wire protocol, their validation, and their
    one-line encoding. */
module Protocol {
  import opened Common
  import opened Dictionary
  import opened Json
  import opened JsonRoundTrip
  import opened Text

  const MAX_JSON_DEPTH := 32
  const PROTOCOL_MAJOR := 1

  /** The capability each supported method needs. */
  const METHOD_CAPABILITIES: map<string, string> := map[
    "health" := "health",
    "memory.write" := "memory.write",
    "memory.search" := "memory.search",
    "memory.context" := "memory.context",
    "memory.evidence" := "memory.evidence",
    "memory.history" := "memory.history",
    "memory.changes" := "memory.search",
    "memory.timeline" := "memory.search",
    "memory.entities" := "memory.search",
    "memory.entity" := "memory.search",
    "memory.conflicts" := "memory.conflicts",
    "memory.resolve_conflict" := "memory.resolve_conflict",
    "memory.extraction.enqueue" := "memory.extraction.enqueue"]

  const IMMUTABLE_CONTEXT_FIELDS: set<string> := {
    "client_id", "surface", "agent_id", "session_id", "parent_agent_id", "project_root", "repository",
    "branch", "commit_sha", "access_scopes"}

  /** A malformed frame, an oversized one, an incompatible major version, and
      the exception that a frame type which is no string can raise. */
  datatype Fault = Invalid | TooLarge | MajorMismatch | Unhashable

  datatype Version = Version(major: nat, minor: nat)

  datatype Context = Context(
    clientId: string, surface: string, agentId: string, sessionId: string,
    parentAgentId: Option<string>, projectRoot: Option<string>, repository: Option<string>,
    branch: Option<string>, commitSha: Option<string>, accessScopes: seq<string>)

  datatype ErrorInfo = ErrorInfo(code: string, message: string, retryable: bool, details: Fields)

  datatype Frame =
    | Handshake(context: Context, capabilities: seq<string>, protocol: Version, schemaVersion: nat)
    | HandshakeResponse(accepted: bool, capabilities: seq<string>, serviceVersion: string, error: Option<ErrorInfo>,
                        protocol: Version, schemaVersion: nat)
    | Request(requestId: string, method_: string, params: Fields, protocol: Version, schemaVersion: nat)
    | Response(requestId: string, ok: bool, result: Json, error: Option<ErrorInfo>, protocol: Version, schemaVersion: nat)

  // ------------------------------------------------------------------
  // What the constructors accept, and the values they leave unchanged
  // ------------------------------------------------------------------

  predicate IsAlnum(c: char) {
    'a' <= c <= 'z' || 'A' <= c <= 'Z' || '0' <= c <= '9'
  }

  predicate IsToken(s: string) {
    && 1 <= |s| <= 128 && IsAlnum(s[0])
    && forall k :: 0 <= k < |s| ==> IsAlnum(s[k]) || s[k] == '.' || s[k] == '_' || s[k] == ':' || s[k] == '/' || s[k] == '-'
  }

  predicate ValidText(s: string) {
    s != "" && Strip(s) == s
  }

  predicate ValidToken(s: string) {
    ValidText(s) && IsToken(s)
  }

  predicate ValidOptional(s: Option<string>) {
    s.Some? ==> ValidText(s.value)
  }

  ghost predicate ValidTokens(ts: seq<string>) {
    && (forall k :: 0 <= k < |ts| ==> ValidToken(ts[k]))
    && (forall j, k :: 0 <= j < k < |ts| ==> ts[j] != ts[k])
  }

  ghost predicate ValidContext(c: Context) {
    && ValidToken(c.clientId) && ValidToken(c.surface) && ValidToken(c.agentId) && ValidToken(c.sessionId)
    && ValidOptional(c.parentAgentId) && ValidOptional(c.projectRoot) && ValidOptional(c.repository)
    && ValidOptional(c.branch) && ValidOptional(c.commitSha)
    && c.accessScopes != [] && ValidTokens(c.accessScopes)
  }

  ghost predicate ValidError(e: ErrorInfo) {
    ValidToken(e.code) && ValidText(e.message) && Canonical(Obj(e.details)) && Within(Obj(e.details), MAX_JSON_DEPTH)
  }

  predicate OverridesContext(params: Dict) {
    params.Keys * IMMUTABLE_CONTEXT_FIELDS != {}
  }

  ghost predicate ValidFrame(f: Frame) {
    match f
    case Handshake(c, caps, _, _) => ValidContext(c) && ValidTokens(caps)
    case HandshakeResponse(accepted, caps, service, error, _, _) =>
      ValidTokens(caps) && ValidText(service) && accepted == error.None? && (error.Some? ==> ValidError(error.value))
    case Request(id, m, params, _, _) =>
      && ValidToken(id) && ValidToken(m) && m in METHOD_CAPABILITIES
      && Canonical(Obj(params)) && Within(Obj(params), MAX_JSON_DEPTH) && !OverridesContext(DictOf(params))
    case Response(id, ok, result, error, _, _) =>
      && ValidToken(id) && Canonical(result) && Within(result, MAX_JSON_DEPTH)
      && ok == error.None? && (error.Some? ==> ValidError(error.value) && result == Null)
  }

  // ------------------------------------------------------------------
  // Frames as dictionaries
  // ------------------------------------------------------------------

  function Strings(ts: seq<string>): Json {
    Arr(seq(|ts|, k requires 0 <= k < |ts| => Str(ts[k])))
  }

  function OptionalText(s: Option<string>): Json {
    if s.Some? then Str(s.value) else Null
  }

  function VersionDict(v: Version): Dict {
    map["major" := Int(v.major), "minor" := Int(v.minor)]
  }

  function ContextDict(c: Context): Dict {
    map["client_id" := Str(c.clientId), "surface" := Str(c.surface), "agent_id" := Str(c.agentId),
        "session_id" := Str(c.sessionId), "parent_agent_id" := OptionalText(c.parentAgentId),
        "project_root" := OptionalText(c.projectRoot), "repository" := OptionalText(c.repository),
        "branch" := OptionalText(c.branch), "commit_sha" := OptionalText(c.commitSha),
        "access_scopes" := Strings(c.accessScopes)]
  }

  function ErrorDict(e: ErrorInfo): Dict {
    map["code" := Str(e.code), "message" := Str(e.message), "retryable" := Bool(e.retryable), "details" := Obj(e.details)]
  }

  ghost function ErrorJson(e: Option<ErrorInfo>): Json {
    if e.Some? then ObjOf(ErrorDict(e.value)) else Null
  }

  ghost function FrameDict(f: Frame): Dict {
    match f
    case Handshake(c, caps, v, schema) =>
      map["type" := Str("handshake"), "protocol" := ObjOf(VersionDict(v)), "schema_version" := Int(schema),
          "capabilities" := Strings(caps), "context" := ObjOf(ContextDict(c))]
    case HandshakeResponse(accepted, caps, service, error, v, schema) =>
      map["type" := Str("handshake_response"), "protocol" := ObjOf(VersionDict(v)), "schema_version" := Int(schema),
          "capabilities" := Strings(caps), "service_version" := Str(service), "accepted" := Bool(accepted),
          "error" := ErrorJson(error)]
    case Request(id, m, params, v, schema) =>
      map["type" := Str("request"), "protocol" := ObjOf(VersionDict(v)), "schema_version" := Int(schema),
          "request_id" := Str(id), "method" := Str(m), "params" := Obj(params)]
    case Response(id, ok, result, error, v, schema) =>
      map["type" := Str("response"), "protocol" := ObjOf(VersionDict(v)), "schema_version" := Int(schema),
          "request_id" := Str(id), "ok" := Bool(ok), "result" := result, "error" := ErrorJson(error)]
  }

  // ------------------------------------------------------------------
  // Reading dictionaries back
  // ------------------------------------------------------------------

  function ReadText(v: Json): Option<string> {
    if v.Str? && Strip(v.s) != "" then Some(Strip(v.s)) else None
  }

  function ReadToken(v: Json): Option<string> {
    if ReadText(v).Some? && IsToken(ReadText(v).value) then ReadText(v) else None
  }

  /** None is a fault; Some(None) is an absent or null field. */
  function ReadOptional(v: Json): Option<Option<string>> {
    if v.Null? then Some(None)
    else if ReadText(v).Some? then Some(Some(ReadText(v).value))
    else None
  }

  function ReadNat(v: Json): Option<nat> {
    if v.Int? && v.i >= 0 then Some(v.i) else None
  }

  function ReadEach(items: seq<Json>): Option<seq<string>> {
    if items == [] then Some([])
    else if ReadToken(items[0]).Some? && ReadEach(items[1..]).Some? then
      Some([ReadToken(items[0]).value] + ReadEach(items[1..]).value)
    else None
  }

  predicate NoRepeats(ts: seq<string>) {
    forall j, k :: 0 <= j < k < |ts| ==> ts[j] != ts[k]
  }

  function ReadTokens(v: Json, allowEmpty: bool): Option<seq<string>> {
    if v.Arr? && ReadEach(v.items).Some? && NoRepeats(ReadEach(v.items).value) && (allowEmpty || v.items != [])
    then ReadEach(v.items) else None
  }

  function ReadVersion(v: Json): Option<Version> {
    if !v.Obj? then None
    else
      var d := DictOf(v.fields);
      if d.Keys != {"major", "minor"} || ReadNat(d["major"]).None? || ReadNat(d["minor"]).None? then None
      else Some(Version(ReadNat(d["major"]).value, ReadNat(d["minor"]).value))
  }

  function GetOrNull(d: Dict, key: string): Json {
    if key in d then d[key] else Null
  }

  const REQUIRED_CONTEXT_FIELDS: set<string> := {"client_id", "surface", "agent_id", "session_id", "access_scopes"}

  function ReadContext(v: Json): Option<Context> {
    if v.Obj? then ContextOf(DictOf(v.fields)) else None
  }

  function ContextOf(d: Dict): Option<Context> {
    if !(REQUIRED_CONTEXT_FIELDS <= d.Keys <= IMMUTABLE_CONTEXT_FIELDS) then None
    else
      var client, surface := ReadToken(d["client_id"]), ReadToken(d["surface"]);
      var agent, session := ReadToken(d["agent_id"]), ReadToken(d["session_id"]);
      var parent, root := ReadOptional(GetOrNull(d, "parent_agent_id")), ReadOptional(GetOrNull(d, "project_root"));
      var repository, branch := ReadOptional(GetOrNull(d, "repository")), ReadOptional(GetOrNull(d, "branch"));
      var commit, scopes := ReadOptional(GetOrNull(d, "commit_sha")), ReadTokens(d["access_scopes"], false);
      if client.Some? && surface.Some? && agent.Some? && session.Some? && parent.Some? && root.Some?
         && repository.Some? && branch.Some? && commit.Some? && scopes.Some? then
        Some(Context(client.value, surface.value, agent.value, session.value, parent.value, root.value,
                     repository.value, branch.value, commit.value, scopes.value))
      else None
  }

  function ReadError(v: Json): Option<ErrorInfo> {
    if !v.Obj? then None
    else
      var d := DictOf(v.fields);
      if d.Keys != {"code", "message", "retryable", "details"} then None
      else
        var code, message := ReadToken(d["code"]), ReadText(d["message"]);
        if code.Some? && message.Some? && d["retryable"].Bool? && d["details"].Obj? && Within(d["details"], MAX_JSON_DEPTH) then
          Some(ErrorInfo(code.value, message.value, d["retryable"].b, d["details"].fields))
        else None
  }

  function ReadOptionalError(v: Json): Option<Option<ErrorInfo>> {
    if v.Null? then Some(None)
    else if ReadError(v).Some? then Some(ReadError(v))
    else None
  }

  function ReadHandshake(d: Dict): Option<Frame> {
    if d.Keys != {"type", "protocol", "schema_version", "capabilities", "context"} then None
    else
      var context, caps := ReadContext(d["context"]), ReadTokens(d["capabilities"], true);
      var version, schema := ReadVersion(d["protocol"]), ReadNat(d["schema_version"]);
      if context.Some? && caps.Some? && version.Some? && schema.Some? then
        Some(Handshake(context.value, caps.value, version.value, schema.value))
      else None
  }

  function ReadHandshakeResponse(d: Dict): Option<Frame> {
    if d.Keys != {"type", "protocol", "schema_version", "capabilities", "service_version", "accepted", "error"} then None
    else
      var caps, service, error := ReadTokens(d["capabilities"], true), ReadText(d["service_version"]), ReadOptionalError(d["error"]);
      var version, schema := ReadVersion(d["protocol"]), ReadNat(d["schema_version"]);
      if caps.Some? && service.Some? && error.Some? && version.Some? && schema.Some? && d["accepted"].Bool?
         && d["accepted"].b == error.value.None? then
        Some(HandshakeResponse(d["accepted"].b, caps.value, service.value, error.value, version.value, schema.value))
      else None
  }

  function ReadRequest(d: Dict): Option<Frame> {
    if d.Keys != {"type", "protocol", "schema_version", "request_id", "method", "params"} then None
    else
      var id, m := ReadToken(d["request_id"]), ReadToken(d["method"]);
      var version, schema := ReadVersion(d["protocol"]), ReadNat(d["schema_version"]);
      if id.Some? && m.Some? && m.value in METHOD_CAPABILITIES && version.Some? && schema.Some?
         && d["params"].Obj? && Within(d["params"], MAX_JSON_DEPTH) && !OverridesContext(DictOf(d["params"].fields)) then
        Some(Request(id.value, m.value, d["params"].fields, version.value, schema.value))
      else None
  }

  function ReadResponse(d: Dict): Option<Frame> {
    if d.Keys != {"type", "protocol", "schema_version", "request_id", "ok", "result", "error"} then None
    else
      var id, error := ReadToken(d["request_id"]), ReadOptionalError(d["error"]);
      var version, schema := ReadVersion(d["protocol"]), ReadNat(d["schema_version"]);
      if id.Some? && error.Some? && version.Some? && schema.Some? && d["ok"].Bool? && Within(d["result"], MAX_JSON_DEPTH)
         && d["ok"].b == error.value.None? && (!d["ok"].b ==> d["result"].Null?) then
        Some(Response(id.value, d["ok"].b, d["result"], error.value, version.value, schema.value))
      else None
  }

  function ReadFrame(d: Dict): Result<Frame, Fault> {
    if "type" !in d then Err(Invalid)
    else if d["type"].Arr? || d["type"].Obj? then Err(Unhashable)
    else if !d["type"].Str? then Err(Invalid)
    else
      var read :=
        if d["type"].s == "handshake" then ReadHandshake(d)
        else if d["type"].s == "handshake_response" then ReadHandshakeResponse(d)
        else if d["type"].s == "request" then ReadRequest(d)
        else if d["type"].s == "response" then ReadResponse(d)
        else None;
      if read.Some? then Ok(read.value) else Err(Invalid)
  }

  // ------------------------------------------------------------------
  // One line of text
  // ------------------------------------------------------------------

  function Utf8Size(s: string): nat {
    if s == "" then 0
    else
      var n := s[0] as int;
      (if n < 0x80 then 1 else if n < 0x800 then 2 else if n < 0x10000 then 3 else 4) + Utf8Size(s[1..])
  }

  ghost function FrameText(f: Frame): string {
    Print(ObjOf(FrameDict(f)))
  }

  ghost function Encode(f: Frame, limit: int): Result<string, Fault> {
    if limit <= 0 then Err(Invalid)
    else if Utf8Size(FrameText(f) + "\n") > limit then Err(TooLarge)
    else Ok(FrameText(f) + "\n")
  }

  function TrimNewline(text: string): string {
    if |text| >= 2 && text[|text| - 2..] == "\r\n" then text[..|text| - 2]
    else if |text| >= 1 && text[|text| - 1] == '\n' then text[..|text| - 1]
    else text
  }

  function Decode(text: string, limit: int, refuseMajorMismatch: bool): Result<Frame, Fault> {
    if limit <= 0 then Err(Invalid)
    else if Utf8Size(text) > limit then Err(TooLarge)
    else
      var line := TrimNewline(text);
      if line == "" || '\n' in line || '\r' in line then Err(Invalid)
      else
        match ParseText(line)
        case None => Err(Invalid)
        case Some(v) =>
          if !Within(v, MAX_JSON_DEPTH) || !v.Obj? then Err(Invalid)
          else
            match ReadFrame(DictOf(v.fields)) {
              case Err(fault) => Err(fault)
              case Ok(f) => if refuseMajorMismatch && f.protocol.major != PROTOCOL_MAJOR then Err(MajorMismatch) else Ok(f)
            }
  }
}
