/** The daemon's frame handler: a handshake first, then requests for negotiated
    capabilities; and what the transport delivers of encoded frames. */
module Connection {
  import opened Common
  import opened Framing
  import opened Protocol
  import ProtocolRoundTrip

  const PROTOCOL_MINOR := 0

  datatype Config = Config(serverCapabilities: seq<string>, schemaVersion: nat)

  datatype Negotiated = Negotiated(context: Context, capabilities: seq<string>, protocol: Version, schemaVersion: nat)

  /** What the handler of an application request returns, or how it fails. */
  datatype Answer = Succeeded | Failed(code: string)

  datatype Event =
    | HandshakeAccepted(connection: Negotiated)
    | HandshakeRefused(code: string)
    | ProtocolErrorSent(code: string)
    | RequestRefused(requestId: string, code: string)
    | HandlerCalled(context: Context, request: Frame)
    | Answered(requestId: string, answer: Answer)
    | ConnectionBroken

  /** The negotiated connection, if any, and how many frames came before. */
  datatype State = State(connection: Option<Negotiated>, handled: nat)

  /** The world outside: the decoder, the application, and whether a reply could
      be sent. The last two may decide differently at every frame. */
  datatype World = World(
    decode: Bytes -> Result<Frame, Fault>,
    application: (nat, Context, Frame) -> Answer,
    sent: (nat, Event) -> bool)

  function Shared(server: seq<string>, client: seq<string>): (r: seq<string>)
    ensures forall c :: c in r <==> c in server && c in client
  {
    if server == [] then []
    else (if server[0] in client then [server[0]] else []) + Shared(server[1..], client)
  }

  /** Accepts or refuses a handshake. */
  function Negotiate(cfg: Config, h: Frame): Result<Negotiated, string>
    requires h.Handshake?
  {
    if h.protocol.major != PROTOCOL_MAJOR then Err("incompatible_protocol_major")
    else if h.protocol.minor > PROTOCOL_MINOR then Err("incompatible_protocol_minor")
    else if h.schemaVersion != cfg.schemaVersion then Err("incompatible_schema")
    else Ok(Negotiated(h.context, Shared(cfg.serverCapabilities, h.capabilities), h.protocol, h.schemaVersion))
  }

  function ProtocolError(connection: Option<Negotiated>, code: string): Event {
    if connection.None? then HandshakeRefused(code) else ProtocolErrorSent(code)
  }

  function HandleFirst(cfg: Config, world: World, at: nat, f: Frame): Step<State, Event> {
    var refused := State(None, at + 1);
    if !f.Handshake? then Step(false, refused, [HandshakeRefused("handshake_required")])
    else
      match Negotiate(cfg, f)
      case Err(code) => Step(false, refused, [HandshakeRefused(code)])
      case Ok(connection) =>
        Step(world.sent(at, HandshakeAccepted(connection)), State(Some(connection), at + 1), [HandshakeAccepted(connection)])
  }

  function HandleRequest(world: World, at: nat, connection: Negotiated, f: Frame): Step<State, Event> {
    var state := State(Some(connection), at + 1);
    if !f.Request? then Step(false, state, [ProtocolErrorSent("request_required")])
    else if f.protocol != connection.protocol then Step(false, state, [RequestRefused(f.requestId, "connection_protocol_changed")])
    else if f.schemaVersion != connection.schemaVersion then Step(false, state, [RequestRefused(f.requestId, "connection_schema_changed")])
    else if f.method_ !in METHOD_CAPABILITIES || METHOD_CAPABILITIES[f.method_] !in connection.capabilities then
      Step(true, state, [RequestRefused(f.requestId, "capability_not_negotiated")])
    else
      var answer := Answered(f.requestId, world.application(at, connection.context, f));
      Step(world.sent(at, answer), state, [HandlerCalled(connection.context, f), answer])
  }

  function HandleFrame(cfg: Config, world: World, state: State, frame: Bytes): Step<State, Event> {
    var next := state.(handled := state.handled + 1);
    match world.decode(frame)
    case Err(Unhashable) => Step(false, next, [ConnectionBroken])
    case Err(_) => Step(false, next, [ProtocolError(state.connection, "invalid_frame")])
    case Ok(f) =>
      if state.connection.None? then HandleFirst(cfg, world, state.handled, f)
      else HandleRequest(world, state.handled, state.connection.value, f)
  }

  function Handler(cfg: Config, world: World): (State, Bytes) -> Step<State, Event> {
    (state, frame) => HandleFrame(cfg, world, state, frame)
  }

  // ------------------------------------------------------------------
  // Handshake first
  // ------------------------------------------------------------------

  /** What an accepted handshake allows. */
  predicate Allowed(cfg: Config, connection: Negotiated, context: Context, request: Frame) {
    && request.Request? && context == connection.context
    && request.protocol == connection.protocol && request.schemaVersion == connection.schemaVersion
    && connection.protocol.major == PROTOCOL_MAJOR && connection.protocol.minor <= PROTOCOL_MINOR
    && connection.schemaVersion == cfg.schemaVersion
    && request.method_ in METHOD_CAPABILITIES
    && METHOD_CAPABILITIES[request.method_] in connection.capabilities
    && METHOD_CAPABILITIES[request.method_] in cfg.serverCapabilities
  }

  ghost predicate Compatible(cfg: Config, connection: Option<Negotiated>) {
    connection.Some? ==>
      && connection.value.protocol.major == PROTOCOL_MAJOR && connection.value.protocol.minor <= PROTOCOL_MINOR
      && connection.value.schemaVersion == cfg.schemaVersion
      && forall c :: c in connection.value.capabilities ==> c in cfg.serverCapabilities
  }

  /** The connection in force before event i: the accepted handshake, if any. */
  function InForce(events: seq<Loop<Event>>, i: nat, before: Option<Negotiated>): Option<Negotiated>
    requires i <= |events|
  {
    if i == 0 then before
    else if events[i - 1].Handler? && events[i - 1].event.HandshakeAccepted? then Some(events[i - 1].event.connection)
    else InForce(events, i - 1, before)
  }

  ghost predicate Guarded(cfg: Config, events: seq<Loop<Event>>, before: Option<Negotiated>, i: nat)
    requires i < |events|
  {
    events[i].Handler? ==>
      && (events[i].event.HandlerCalled? ==>
            && InForce(events, i, before).Some?
            && Allowed(cfg, InForce(events, i, before).value, events[i].event.context, events[i].event.request))
      && (events[i].event.HandshakeAccepted? ==> InForce(events, i, before).None?)
  }

  lemma {:induction false} InForceAcross(a: seq<Loop<Event>>, b: seq<Loop<Event>>, i: nat, before: Option<Negotiated>)
    requires i <= |a| + |b|
    ensures InForce(a + b, i, before) == if i <= |a| then InForce(a, i, before) else InForce(b, i - |a|, InForce(a, |a|, before))
  {
    if i > 0 {
      InForceAcross(a, b, i - 1, before);
      if i - 1 < |a| {
        assert (a + b)[i - 1] == a[i - 1];
      } else {
        assert (a + b)[i - 1] == b[i - 1 - |a|];
      }
    }
  }

  /** One frame keeps the connection compatible and calls the application only
      as the connection in force allows. */
  lemma StepIsGuarded(cfg: Config, world: World, state: State, frame: Bytes)
    requires Compatible(cfg, state.connection)
    ensures var step := HandleFrame(cfg, world, state, frame);
            var events := Wrapped(step.events);
            && Compatible(cfg, step.state.connection)
            && InForce(events, |events|, state.connection) == step.state.connection
            && forall i :: 0 <= i < |events| ==> Guarded(cfg, events, state.connection, i)
  {
    var step := HandleFrame(cfg, world, state, frame);
    var events := Wrapped(step.events);
    assert |events| <= 2;
    assert |events| == 2 ==> InForce(events, 1, state.connection) == state.connection;
    assert |events| >= 1 ==> InForce(events, 0, state.connection) == state.connection;
  }

  lemma {:induction false} StreamIsGuarded(cfg: Config, world: World, stream: Bytes, limit: nat, state: State, end: End, i: nat)
    requires Compatible(cfg, state.connection) && i < |Served(stream, limit, Handler(cfg, world), state, end)|
    ensures Guarded(cfg, Served(stream, limit, Handler(cfg, world), state, end), state.connection, i)
    decreases |stream|
  {
    hide HandleFrame, Compatible, InForce;
    var n := FindNewline(stream);
    if n < |stream| && n <= limit {
      var step := HandleFrame(cfg, world, state, stream[..n]);
      var head := Wrapped(step.events);
      var tail := if step.keepOpen then Served(stream[n + 1..], limit, Handler(cfg, world), step.state, end) else [];
      assert Served(stream, limit, Handler(cfg, world), state, end) == head + tail;
      StepIsGuarded(cfg, world, state, stream[..n]);
      if i >= |head| {
        StreamIsGuarded(cfg, world, stream[n + 1..], limit, step.state, end, i - |head|);
      }
      GuardedAcross(cfg, head, tail, state.connection, i);
    }
  }

  lemma GuardedAcross(cfg: Config, a: seq<Loop<Event>>, b: seq<Loop<Event>>, before: Option<Negotiated>, i: nat)
    requires i < |a| + |b|
    requires if i < |a| then Guarded(cfg, a, before, i) else Guarded(cfg, b, InForce(a, |a|, before), i - |a|)
    ensures Guarded(cfg, a + b, before, i)
  {
    InForceAcross(a, b, i, before);
    assert i < |a| ==> (a + b)[i] == a[i];
    assert i >= |a| ==> (a + b)[i] == b[i - |a|];
  }

  /** On every byte stream the application is called only after an accepted
      handshake, under its context, protocol and schema, for a method whose
      capability both sides offered; and a connection is negotiated once. */
  lemma HandshakeComesFirst(cfg: Config, world: World, stream: Bytes, limit: nat, end: End, i: nat)
    requires i < |Served(stream, limit, Handler(cfg, world), State(None, 0), end)|
    ensures Guarded(cfg, Served(stream, limit, Handler(cfg, world), State(None, 0), end), None, i)
  {
    StreamIsGuarded(cfg, world, stream, limit, State(None, 0), end, i);
  }

  // ------------------------------------------------------------------
  // Encoded frames on the wire
  // ------------------------------------------------------------------

  function Utf8Char(c: char): Bytes {
    var n := c as int;
    if n < 0x80 then [n]
    else if n < 0x800 then [0xC0 + n / 64, 0x80 + n % 64]
    else if n < 0x10000 then [0xE0 + n / 4096, 0x80 + n / 64 % 64, 0x80 + n % 64]
    else [0xF0 + n / 262144, 0x80 + n / 4096 % 64, 0x80 + n / 64 % 64, 0x80 + n % 64]
  }

  function Utf8(s: string): Bytes {
    if s == "" then [] else Utf8Char(s[0]) + Utf8(s[1..])
  }

  lemma {:induction false} Utf8Length(s: string)
    ensures |Utf8(s)| == Utf8Size(s)
  {
    if s != "" {
      Utf8Length(s[1..]);
    }
  }

  lemma {:induction false} Utf8OneLine(s: string)
    requires forall k :: 0 <= k < |s| ==> s[k] != '\n'
    ensures NEWLINE !in Utf8(s) && Utf8(s + "\n") == Utf8(s) + [NEWLINE]
  {
    if s == "" {
      assert ("" + "\n")[1..] == "";
    } else {
      Utf8OneLine(s[1..]);
      assert (s + "\n")[1..] == s[1..] + "\n";
    }
  }

  /** The bytes of an encoded frame are one line within the limit. */
  lemma EncodedBytes(f: Frame, limit: int) returns (line: Bytes)
    requires ValidFrame(f) && Encode(f, limit).Ok?
    ensures Utf8(Encode(f, limit).value) == line + [NEWLINE] && NEWLINE !in line && |line| + 1 <= limit
  {
    hide *;
    var text := Encode(f, limit).value;
    ProtocolRoundTrip.EncodingIsOneLine(f, limit);
    Utf8Length(text);
    var init := text[..|text| - 1];
    assert init + "\n" == text;
    Utf8OneLine(init);
    line := Utf8(init);
  }

  /** The client receives every frame the encoder emits under the same limit,
      for every way the bytes are split. */
  lemma ClientReceivesEveryFrame(f: Frame, limit: nat, chunks: seq<Bytes>)
    requires ValidFrame(f) && Encode(f, limit).Ok? && Concat(chunks) == Utf8(Encode(f, limit).value)
    ensures ReceivedFrom([], chunks, limit) == Got(Utf8(Encode(f, limit).value))
  {
    var line := EncodedBytes(f, limit);
    assert [] + Concat(chunks) == Concat(chunks);
    LineIsReceived([], chunks, line, limit);
  }

  /** So does the daemon's loop: the frame reaches the handler without its newline. */
  lemma DaemonReceivesEveryFrame<S, E>(f: Frame, limit: nat, rest: Bytes, handle: (S, Bytes) -> Step<S, E>, state: S, end: End)
    requires ValidFrame(f) && Encode(f, limit).Ok?
    ensures exists line ::
              && Utf8(Encode(f, limit).value) == line + [NEWLINE]
              && Served(Utf8(Encode(f, limit).value) + rest, limit, handle, state, end) ==
                   Wrapped(handle(state, line).events)
                   + (if handle(state, line).keepOpen then Served(rest, limit, handle, handle(state, line).state, end) else [])
  {
    var line := EncodedBytes(f, limit);
    LineComesFirst(line, rest, limit, handle, state, end);
  }
}
