/** Cutting byte streams into lines: the daemon's connection loop, for any
    frame handler, and the client's receive loop. */
module Framing {
  import opened Common

  type Byte = b: int | 0 <= b < 256
  type Bytes = seq<Byte>

  const NEWLINE: Byte := 10

  /** The first newline, or the length. */
  function FindNewline(s: Bytes): (n: nat)
    ensures n <= |s| && NEWLINE !in s[..n] && (n < |s| ==> s[n] == NEWLINE)
  {
    if s == [] || s[0] == NEWLINE then 0
    else
      assert s[..1 + FindNewline(s[1..])] == [s[0]] + s[1..][..FindNewline(s[1..])];
      1 + FindNewline(s[1..])
  }

  function Concat(chunks: seq<Bytes>): Bytes {
    if chunks == [] then [] else chunks[0] + Concat(chunks[1..])
  }

  lemma {:induction false} NewlineAt(s: Bytes, n: nat)
    requires n < |s| && s[n] == NEWLINE && NEWLINE !in s[..n]
    ensures FindNewline(s) == n
  {
    if n > 0 {
      assert s[0] == s[..n][0];
      assert s[..n][1..] == s[1..][..n - 1];
      NewlineAt(s[1..], n - 1);
    }
  }

  lemma {:induction false} NoNewline(s: Bytes)
    requires NEWLINE !in s
    ensures FindNewline(s) == |s|
  {
    if s != [] {
      NoNewline(s[1..]);
    }
  }

  /** Text appended after the first newline does not move it; after none, it can
      only come later. */
  lemma {:induction false} NewlineInPrefix(s: Bytes, t: Bytes)
    ensures FindNewline(s) < |s| ==> FindNewline(s + t) == FindNewline(s)
    ensures FindNewline(s) == |s| ==> FindNewline(s + t) >= |s|
  {
    if s != [] {
      NewlineInPrefix(s[1..], t);
      assert (s + t)[1..] == s[1..] + t;
    }
  }

  // ------------------------------------------------------------------
  // The daemon's connection loop
  // ------------------------------------------------------------------

  /** How the byte stream ends: the peer hangs up, or a read times out. */
  datatype End = Closed | TimedOut

  datatype Step<S, E> = Step(keepOpen: bool, state: S, events: seq<E>)

  /** What the loop does by itself. */
  datatype Loop<E> = Handler(event: E) | FrameTooLarge | RequestTimeout

  function Wrapped<E>(events: seq<E>): seq<Loop<E>> {
    seq(|events|, k requires 0 <= k < |events| => Handler(events[k]))
  }

  /** The events of a connection, as a function of the bytes alone. */
  function Served<S, E>(stream: Bytes, limit: nat, handle: (S, Bytes) -> Step<S, E>, state: S, end: End): seq<Loop<E>>
    decreases |stream|
  {
    var n := FindNewline(stream);
    if n == |stream| then
      if |stream| > limit then [FrameTooLarge] else if end.TimedOut? then [RequestTimeout] else []
    else if n > limit then [FrameTooLarge]
    else
      var step := handle(state, stream[..n]);
      Wrapped(step.events) + (if step.keepOpen then Served(stream[n + 1..], limit, handle, step.state, end) else [])
  }

  /** The loop reads whatever pieces the socket delivers and cuts frames off the
      front of its buffer. */
  method ServeClient<S, E>(chunks: seq<Bytes>, limit: nat, handle: (S, Bytes) -> Step<S, E>, initial: S, end: End)
    returns (events: seq<Loop<E>>)
    ensures events == Served(Concat(chunks), limit, handle, initial, end)
  {
    var buffer: Bytes := [];
    var state := initial;
    events := [];
    ghost var all := Served(Concat(chunks), limit, handle, initial, end);
    Start(chunks);
    for i := 0 to |chunks|
      invariant FindNewline(buffer) == |buffer| <= limit
      invariant events + Served(buffer + Concat(chunks[i..]), limit, handle, state, end) == all
    {
      ghost var rest := Concat(chunks[i + 1..]);
      NextChunk(buffer, chunks, i);
      buffer := buffer + chunks[i];
      var open;
      events, buffer, state, open := DrainBuffer(events, buffer, rest, limit, handle, state, end);
      if !open {
        return;
      }
    }
    NoMoreChunks(buffer, chunks);
    if end.TimedOut? {
      events := events + [RequestTimeout];
    }
  }

  /** The inner loop: every complete frame in the buffer, until one closes the
      connection or is too large. */
  method DrainBuffer<S, E>(before: seq<Loop<E>>, bytes: Bytes, ghost rest: Bytes, limit: nat, handle: (S, Bytes) -> Step<S, E>, initial: S, end: End)
    returns (events: seq<Loop<E>>, buffer: Bytes, state: S, open: bool)
    ensures before + Served(bytes + rest, limit, handle, initial, end) ==
            if open then events + Served(buffer + rest, limit, handle, state, end) else events
    ensures open ==> FindNewline(buffer) == |buffer| <= limit
  {
    hide Served;
    events, buffer, state := before, bytes, initial;
    while true
      invariant events + Served(buffer + rest, limit, handle, state, end) == before + Served(bytes + rest, limit, handle, initial, end)
      decreases |buffer|
    {
      var newline := FindNewline(buffer);
      if newline == |buffer| {
        if |buffer| > limit {
          OversizedBuffer(buffer, rest, limit, handle, state, end);
          events := events + [FrameTooLarge];
          return events, buffer, state, false;
        }
        return events, buffer, state, true;
      }
      var frame := buffer[..newline];
      FirstFrame(buffer, rest, limit, handle, state, end);
      buffer := buffer[newline + 1..];
      if |frame| > limit {
        events := events + [FrameTooLarge];
        return events, buffer, state, false;
      }
      var step := handle(state, frame);
      ghost var later := if step.keepOpen then Served(buffer + rest, limit, handle, step.state, end) else [];
      Regroup(events, Wrapped(step.events), later);
      events := events + Wrapped(step.events);
      state := step.state;
      if !step.keepOpen {
        return events, buffer, state, false;
      }
    }
  }

  lemma Regroup<T>(a: seq<T>, b: seq<T>, c: seq<T>)
    ensures a + (b + c) == (a + b) + c && a + [] == a
  {
  }

  lemma Start(chunks: seq<Bytes>)
    ensures [] + Concat(chunks[0..]) == Concat(chunks)
  {
    assert chunks[0..] == chunks;
  }

  lemma NoMoreChunks(buffer: Bytes, chunks: seq<Bytes>)
    ensures buffer + Concat(chunks[|chunks|..]) == buffer
  {
    assert Concat(chunks[|chunks|..]) == [];
  }

  lemma NextChunk(buffer: Bytes, chunks: seq<Bytes>, i: nat)
    requires i < |chunks|
    ensures buffer + Concat(chunks[i..]) == (buffer + chunks[i]) + Concat(chunks[i + 1..])
  {
    assert chunks[i..][1..] == chunks[i + 1..];
  }

  lemma OversizedBuffer<S, E>(buffer: Bytes, rest: Bytes, limit: nat, handle: (S, Bytes) -> Step<S, E>, state: S, end: End)
    requires FindNewline(buffer) == |buffer| > limit
    ensures Served(buffer + rest, limit, handle, state, end) == [FrameTooLarge]
  {
    NewlineInPrefix(buffer, rest);
  }

  lemma FirstFrame<S, E>(buffer: Bytes, rest: Bytes, limit: nat, handle: (S, Bytes) -> Step<S, E>, state: S, end: End)
    requires FindNewline(buffer) < |buffer|
    ensures var n := FindNewline(buffer);
            var step := handle(state, buffer[..n]);
            Served(buffer + rest, limit, handle, state, end) ==
              if n > limit then [FrameTooLarge]
              else Wrapped(step.events) + (if step.keepOpen then Served(buffer[n + 1..] + rest, limit, handle, step.state, end) else [])
  {
    var n := FindNewline(buffer);
    NewlineInPrefix(buffer, rest);
    assert (buffer + rest)[..n] == buffer[..n];
    assert (buffer + rest)[n + 1..] == buffer[n + 1..] + rest;
  }

  // ------------------------------------------------------------------
  // What the daemon sees
  // ------------------------------------------------------------------

  function Lines(frames: seq<Bytes>): Bytes {
    if frames == [] then [] else frames[0] + [NEWLINE] + Lines(frames[1..])
  }

  /** Handing over the frames one after the other, until the handler closes. */
  function Handled<S, E>(frames: seq<Bytes>, handle: (S, Bytes) -> Step<S, E>, state: S): Step<S, Loop<E>>
    decreases |frames|
  {
    if frames == [] then Step(true, state, [])
    else
      var step := handle(state, frames[0]);
      if !step.keepOpen then Step(false, step.state, Wrapped(step.events))
      else
        var later := Handled(frames[1..], handle, step.state);
        Step(later.keepOpen, later.state, Wrapped(step.events) + later.events)
  }

  /** Every complete frame within the limit reaches the handler, in order and
      unchanged; the loop then goes on with what is left. */
  lemma {:induction false} FramesReachTheHandler<S, E>(frames: seq<Bytes>, tail: Bytes, limit: nat, handle: (S, Bytes) -> Step<S, E>, state: S, end: End)
    requires forall k :: 0 <= k < |frames| ==> NEWLINE !in frames[k] && |frames[k]| <= limit
    ensures var done := Handled(frames, handle, state);
            Served(Lines(frames) + tail, limit, handle, state, end) ==
              done.events + (if done.keepOpen then Served(tail, limit, handle, done.state, end) else [])
    decreases |frames|
  {
    if frames == [] {
      assert Lines(frames) + tail == tail;
    } else {
      var head := frames[0] + [NEWLINE];
      var rest := Lines(frames[1..]) + tail;
      var step := handle(state, frames[0]);
      FramesReachTheHandler(frames[1..], tail, limit, handle, step.state, end);
      hide Served;
      LineComesFirst(frames[0], rest, limit, handle, state, end);
      assert Lines(frames) + tail == head + rest;
      var later := Handled(frames[1..], handle, step.state);
      Regroup(Wrapped(step.events), later.events, if later.keepOpen then Served(tail, limit, handle, later.state, end) else []);
    }
  }

  lemma LineComesFirst<S, E>(line: Bytes, rest: Bytes, limit: nat, handle: (S, Bytes) -> Step<S, E>, state: S, end: End)
    requires NEWLINE !in line && |line| <= limit
    ensures var step := handle(state, line);
            Served(line + [NEWLINE] + rest, limit, handle, state, end) ==
              Wrapped(step.events) + (if step.keepOpen then Served(rest, limit, handle, step.state, end) else [])
  {
    hide Served;
    var head := line + [NEWLINE];
    assert head[..|line|] == line;
    NewlineAt(head, |line|);
    FirstFrame(head, rest, limit, handle, state, end);
    assert head[|line| + 1..] + rest == rest;
  }

  /** The too-large error is raised for exactly the first line longer than the
      limit, finished or not, if the handler has not closed before it. */
  lemma LongLineIsRefused<S, E>(frames: seq<Bytes>, line: Bytes, limit: nat, handle: (S, Bytes) -> Step<S, E>, state: S, end: End)
    requires forall k :: 0 <= k < |frames| ==> NEWLINE !in frames[k] && |frames[k]| <= limit
    requires FindNewline(line) > limit && Handled(frames, handle, state).keepOpen
    ensures Served(Lines(frames) + line, limit, handle, state, end) == Handled(frames, handle, state).events + [FrameTooLarge]
  {
    FramesReachTheHandler(frames, line, limit, handle, state, end);
  }

  // ------------------------------------------------------------------
  // The client's receive loop
  // ------------------------------------------------------------------

  datatype Received = Got(data: Bytes) | ClosedEarly | MultipleFrames | LimitExceeded

  /** Pieces as the socket delivers them; when they run out the peer has closed. */
  method Receive(chunks: seq<Bytes>, limit: nat) returns (r: Received)
    requires forall k :: 0 <= k < |chunks| ==> chunks[k] != []
    ensures r == ReceivedFrom([], chunks, limit)
  {
    var data: Bytes := [];
    for i := 0 to |chunks|
      invariant ReceivedFrom(data, chunks[i..], limit) == ReceivedFrom([], chunks, limit)
    {
      assert chunks[i..][1..] == chunks[i + 1..];
      data := data + chunks[i];
      var newline := FindNewline(data);
      if newline < |data| {
        if newline + 1 != |data| {
          return MultipleFrames;
        }
        return Got(data);
      }
      if |data| >= limit {
        return LimitExceeded;
      }
    }
    return ClosedEarly;
  }

  function ReceivedFrom(data: Bytes, chunks: seq<Bytes>, limit: nat): Received
    decreases |chunks|
  {
    if chunks == [] then ClosedEarly
    else
      var more := data + chunks[0];
      var n := FindNewline(more);
      if n < |more| then (if n + 1 == |more| then Got(more) else MultipleFrames)
      else if |more| >= limit then LimitExceeded
      else ReceivedFrom(more, chunks[1..], limit)
  }

  /** One line within the limit is received whole, however it is split. */
  lemma {:induction false} LineIsReceived(data: Bytes, chunks: seq<Bytes>, line: Bytes, limit: nat)
    requires data + Concat(chunks) == line + [NEWLINE] && NEWLINE !in line && |line| + 1 <= limit
    requires |data| <= |line|
    ensures ReceivedFrom(data, chunks, limit) == Got(line + [NEWLINE])
    decreases |chunks|
  {
    var whole := line + [NEWLINE];
    assert whole[..|line|] == line;
    if chunks != [] {
      var more, later := data + chunks[0], Concat(chunks[1..]);
      assert more + later == whole;
      assert more == whole[..|more|];
      if |more| == |whole| {
        assert more == whole;
        NewlineAt(more, |line|);
      } else {
        assert more == line[..|more|];
        assert NEWLINE !in more;
        NoNewline(more);
        LineIsReceived(more, chunks[1..], line, limit);
      }
    }
  }

  /** Where the split does matter: a second frame that arrives in the same piece
      is an error, in a later piece it is left alone. */
  lemma SecondFrameInTheSamePiece(line: Bytes, other: Bytes, limit: nat)
    requires NEWLINE !in line && |line| + 1 <= limit && other != []
    ensures ReceivedFrom([], [line + [NEWLINE] + other], limit) == MultipleFrames
    ensures ReceivedFrom([], [line + [NEWLINE], other], limit) == Got(line + [NEWLINE])
  {
    var whole := line + [NEWLINE];
    assert (whole + other)[..|line|] == line && whole[..|line|] == line;
    NewlineAt(whole + other, |line|);
    NewlineAt(whole, |line|);
    assert [] + (whole + other) == whole + other && [] + whole == whole;
  }
}
