/** The session-aware relay route (src/app/api/chat/route.ts): it forwards
    the prompt and the session cookie upstream, rewrites every upstream
    `data:` line that carries text into a `{text}` frame, stores every
    upstream session id in the `dashscope_session_id` cookie, and closes or
    aborts its writer when the upstream ends or fails. It keeps no buffer
    between chunks. */
module ChatRoute {
  import opened Text
  import opened EventStream
  import DS = DashScopeService

  const SessionCookieName: string := "dashscope_session_id"

  datatype CookieOptions = CookieOptions(httpOnly: bool, secure: bool, sameSite: string, path: string)
  datatype Cookie = Cookie(value: string, options: CookieOptions)

  /** The options the route sets the session cookie with. */
  function SessionCookieOptions(production: bool): (o: CookieOptions)
    ensures o.httpOnly && o.sameSite == "strict" && o.path == "/"
    ensures o.secure <==> production
  {
    CookieOptions(true, production, "strict", "/")
  }

  /** The state of the writer of the response stream. */
  datatype WriterState = Open | Closed | Aborted

  // ---------------------------------------------------------------------
  // per-chunk behaviour

  /** Texts wrapped as frames, in order. */
  function TextFrames(texts: seq<string>): (r: seq<Frame>)
    ensures |r| == |texts|
    ensures forall i :: 0 <= i < |texts| ==> r[i] == TextFrame(texts[i])
  {
    seq(|texts|, i requires 0 <= i < |texts| => TextFrame(texts[i]))
  }

  /** The frames written for one chunk: one per line of the chunk that
      carries text, while the writer is open; none once it is not (the
      write is rejected). */
  function ChunkFrames(chunk: string, parse: Parser, open: bool): seq<Frame> {
    if open then TextFrames(DS.LineTexts(Lines(chunk), parse)) else []
  }

  /** The session id of a line that reaches the cookie update: when the
      writer is not open, a line with text throws at its rejected write
      before its session id is looked at. */
  function StoredSessionOf(parse: Parser, open: bool): string -> Option<string> {
    line => if !open && LineText(line, parse).Some? then None else LineSession(line, parse)
  }

  /** The session cookie after one chunk: the last session id stored by its
      lines, or the previous cookie when none is. */
  function ChunkCookie(chunk: string, parse: Parser, open: bool, production: bool, before: Option<Cookie>): Option<Cookie> {
    var last := LastOf(Lines(chunk), StoredSessionOf(parse, open));
    if last.Some? then Some(Cookie(last.value, SessionCookieOptions(production))) else before
  }

  // ---------------------------------------------------------------------
  // the relay

  /** The state the route's handlers share: the frames written to the
      response, the session cookie in the cookie store, and the writer. */
  class ChatRelay {
    const parse: Parser
    const production: bool
    var frames: seq<Frame>
    var sessionCookie: Option<Cookie>
    var state: WriterState

    constructor (parse: Parser, production: bool, cookie: Option<Cookie>)
      ensures this.parse == parse && this.production == production
      ensures frames == [] && sessionCookie == cookie && state == Open
    {
      this.parse := parse;
      this.production := production;
      frames := [];
      sessionCookie := cookie;
      state := Open;
    }

    /** The `data` handler: the chunk's lines, with no buffer carried from
        earlier chunks. */
    method OnData(chunk: string)
      modifies this
      ensures state == old(state)
      ensures frames == old(frames) + ChunkFrames(chunk, parse, old(state) == Open)
      ensures sessionCookie == ChunkCookie(chunk, parse, old(state) == Open, production, old(sessionCookie))
    {
      var texts, stored := ScanChunk(Lines(chunk), state == Open);
      frames := frames + (if state == Open then TextFrames(texts) else []);
      if stored.Some? {
        sessionCookie := Some(Cookie(stored.value, SessionCookieOptions(production)));
      }
    }

    /** The loop over the lines of one chunk: the texts written, in order,
        and the last session id stored. */
    method ScanChunk(lines: seq<string>, open: bool) returns (texts: seq<string>, stored: Option<string>)
      ensures open ==> texts == DS.LineTexts(lines, parse)
      ensures stored == LastOf(lines, StoredSessionOf(parse, open))
    {
      texts := [];
      stored := None;
      ghost var f := DS.LineTextOf(parse);
      ghost var g := StoredSessionOf(parse, open);
      var j := 0;
      while j < |lines|
        invariant 0 <= j <= |lines|
        invariant open ==> texts == Collect(lines[..j], f)
        invariant stored == LastOf(lines[..j], g)
      {
        var text, session := ScanLine(lines[j], open);
        if text.Some? {
          texts := texts + [text.value];
        }
        if session.Some? {
          stored := session;
        }
        CollectStep(lines, j, f);
        LastOfStep(lines, j, g);
        j := j + 1;
      }
      assert lines[..|lines|] == lines;
    }

    /** One line: its text is written when the writer is open; a rejected
        write throws inside the `try`, so the line's session id is then not
        stored. */
    method ScanLine(line: string, open: bool) returns (text: Option<string>, session: Option<string>)
      ensures text == (if open then LineText(line, parse) else None)
      ensures session == StoredSessionOf(parse, open)(line)
    {
      text := None;
      session := None;
      if StartsWith(line, DataPrefix) {
        var json := parse(Trim(line[|DataPrefix|..]));
        if json.Some? {
          var rejected := false;
          var t := TextOf(json.value);
          if t.Some? {
            if open {
              text := t;
            } else {
              rejected := true;
            }
          }
          if !rejected {
            session := SessionOf(json.value);
          }
        }
      }
    }

    /** The `end` handler: `writer.close()`; closing a writer that is no
        longer open is rejected and changes nothing. */
    method OnEnd()
      modifies this
      ensures frames == old(frames) && sessionCookie == old(sessionCookie)
      ensures state == if old(state) == Open then Closed else old(state)
    {
      if state == Open {
        state := Closed;
      }
    }

    /** The `error` handler: `writer.abort(error)`, with no error frame. */
    method OnError()
      modifies this
      ensures frames == old(frames) && sessionCookie == old(sessionCookie)
      ensures state == if old(state) == Open then Aborted else old(state)
    {
      if state == Open {
        state := Aborted;
      }
    }
  }

  // ---------------------------------------------------------------------
  // properties

  /** Chunks are handled independently: a `data:` line cut in two by a
      chunk boundary is lost. Its first half does not parse and its second
      half is not a `data:` line, so neither chunk yields a frame, although
      the whole line would have yielded one. */
  lemma StraddlingLineLost(a: string, b: string, parse: Parser, t: string)
    requires !Contains(DataPrefix + a, LineSep) && !Contains(b, LineSep) && !Contains(DataPrefix + a + b, LineSep)
    requires parse(Trim(a)).None? && !StartsWith(b, DataPrefix)
    requires LineText(DataPrefix + a + b, parse) == Some(t)
    ensures ChunkFrames(DataPrefix + a, parse, true) + ChunkFrames(b, parse, true) == []
    ensures ChunkFrames(DataPrefix + a + b, parse, true) == [TextFrame(t)]
  {
    var f := DS.LineTextOf(parse);
    var first := DataPrefix + a;
    SplitWithout(first, LineSep);
    SplitWithout(b, LineSep);
    SplitWithout(DataPrefix + a + b, LineSep);
    assert first[|DataPrefix|..] == a;
    assert Collect([first], f) == [] by {
      assert DropLast([first]) == [];
    }
    assert Collect([b], f) == [] by {
      assert DropLast([b]) == [];
    }
    assert Collect([DataPrefix + a + b], f) == [t] by {
      assert DropLast([DataPrefix + a + b]) == [];
    }
  }

  /** A session cookie the chunk sets holds the session id of one of its
      lines, with the route's cookie options. */
  lemma CookieFromChunk(chunk: string, parse: Parser, open: bool, production: bool, before: Option<Cookie>)
    ensures var c := ChunkCookie(chunk, parse, open, production, before);
      c != before ==>
        && c.Some?
        && c.value.options == SessionCookieOptions(production)
        && exists line :: line in Lines(chunk) && LineSession(line, parse) == Some(c.value.value)
  {
    LastOfSound(Lines(chunk), StoredSessionOf(parse, open));
  }

  // ---------------------------------------------------------------------
  // the handler

  /** The request body: `request.json()` fails, or yields an object whose
      `prompt` may be absent. */
  datatype Body = Malformed | Body(prompt: Option<string>)

  /** What `dashscope.sendMessage` receives. */
  datatype Forwarded = Forwarded(prompt: Option<string>, sessionId: Option<string>)

  /** What the upstream call does: it fails before answering, or answers
      with a stream that emits these events. */
  datatype UpstreamEvent = Data(chunk: string) | End | Failure(message: string)
  datatype Upstream = Unreachable | Streams(events: seq<UpstreamEvent>)

  /** What the handlers leave behind: the frames written, the session
      cookie, and the writer. */
  datatype Relayed = Relayed(frames: seq<Frame>, sessionCookie: Option<Cookie>, state: WriterState)

  /** One upstream event handled by its listener: `data` by OnData, `end`
      by OnEnd, `error` by OnError. */
  function Handle(s: Relayed, e: UpstreamEvent, parse: Parser, production: bool): Relayed {
    match e
    case Data(chunk) =>
      var open := s.state == Open;
      Relayed(s.frames + ChunkFrames(chunk, parse, open), ChunkCookie(chunk, parse, open, production, s.sessionCookie), s.state)
    case End => Relayed(s.frames, s.sessionCookie, if s.state == Open then Closed else s.state)
    case Failure(_) => Relayed(s.frames, s.sessionCookie, if s.state == Open then Aborted else s.state)
  }

  /** The events handled in the order they arrive, starting from `s`. */
  function HandleAll(s: Relayed, events: seq<UpstreamEvent>, parse: Parser, production: bool): Relayed
    decreases |events|
  {
    if events == [] then s
    else Handle(HandleAll(s, events[..|events| - 1], parse, production), events[|events| - 1], parse, production)
  }

  /** Handling two runs of events in turn is handling their concatenation. */
  lemma {:induction false} HandleAllAppend(s: Relayed, a: seq<UpstreamEvent>, b: seq<UpstreamEvent>, parse: Parser, production: bool)
    ensures HandleAll(s, a + b, parse, production) == HandleAll(HandleAll(s, a, parse, production), b, parse, production)
    decreases |b|
  {
    if b == [] {
      assert a + b == a;
    } else {
      assert (a + b)[..|a + b| - 1] == a + b[..|b| - 1];
      HandleAllAppend(s, a, b[..|b| - 1], parse, production);
    }
  }

  /** Once the writer is closed or aborted, no later event writes a frame
      or reopens it. */
  lemma {:induction false} StoppedWritesNothing(s: Relayed, events: seq<UpstreamEvent>, parse: Parser, production: bool)
    requires s.state != Open
    ensures HandleAll(s, events, parse, production).frames == s.frames
    ensures HandleAll(s, events, parse, production).state == s.state
    decreases |events|
  {
    if events != [] {
      StoppedWritesNothing(s, events[..|events| - 1], parse, production);
    }
  }

  /** Every frame is a text frame. */
  predicate AllText(frames: seq<Frame>) {
    forall k :: 0 <= k < |frames| ==> frames[k].TextFrame?
  }

  /** Every frame the relay writes is a text frame: an upstream failure
      aborts the writer without an error frame. */
  lemma {:induction false} OnlyTextFrames(s: Relayed, events: seq<UpstreamEvent>, parse: Parser, production: bool)
    requires AllText(s.frames)
    ensures AllText(HandleAll(s, events, parse, production).frames)
    decreases |events|
  {
    if events != [] {
      OnlyTextFrames(s, events[..|events| - 1], parse, production);
      var before := HandleAll(s, events[..|events| - 1], parse, production);
      var e := events[|events| - 1];
      var r := HandleAll(s, events, parse, production);
      assert r == Handle(before, e, parse, production);
      var added := if e.Data? then ChunkFrames(e.chunk, parse, before.state == Open) else [];
      assert r.frames == before.frames + added;
      forall k | 0 <= k < |r.frames| ensures r.frames[k].TextFrame? {
        if k < |before.frames| {
          assert before.frames[k].TextFrame?;
          assert r.frames[k] == before.frames[k];
        } else {
          assert r.frames[k] == added[k - |before.frames|];
        }
      }
    }
  }

  datatype Response =
    | EventStreamResponse(headers: seq<(string, string)>)
    | JsonResponse(status: int, error: string)

  const StreamHeaders: seq<(string, string)> :=
    [("Content-Type", "text/event-stream"), ("Cache-Control", "no-cache"), ("Connection", "keep-alive")]

  /** `POST(request)`: a malformed body or a failed upstream call gives 500
      with `{error: 'Internal server error'}`; otherwise the prompt (not
      validated) and the cookie's session id are forwarded unchanged and
      the response streams. The streamed events are then handled in order;
      the frames, cookie and writer state they leave are returned. */
  method Post(body: Body, cookie: Option<Cookie>, upstream: Upstream, parse: Parser, production: bool)
    returns (forwarded: Option<Forwarded>, response: Response, frames: seq<Frame>,
             sessionCookie: Option<Cookie>, state: WriterState)
    ensures body.Malformed? ==> forwarded.None?
    ensures body.Body? ==> forwarded == Some(Forwarded(body.prompt, if cookie.Some? then Some(cookie.value.value) else None))
    ensures body.Malformed? || upstream.Unreachable? ==> response == JsonResponse(500, "Internal server error")
    ensures body.Body? && upstream.Streams? ==> response == EventStreamResponse(StreamHeaders)
    ensures response.JsonResponse? ==> frames == [] && sessionCookie == cookie
    ensures body.Body? && upstream.Streams? ==>
      Relayed(frames, sessionCookie, state) == HandleAll(Relayed([], cookie, Open), upstream.events, parse, production)
    ensures forall k :: 0 <= k < |frames| ==> frames[k].TextFrame?
  {
    forwarded := None;
    frames := [];
    sessionCookie := cookie;
    state := Open;
    if body.Malformed? {
      response := JsonResponse(500, "Internal server error");
      return;
    }
    var sessionId := if cookie.Some? then Some(cookie.value.value) else None;
    forwarded := Some(Forwarded(body.prompt, sessionId));
    if upstream.Unreachable? {
      response := JsonResponse(500, "Internal server error");
      return;
    }
    response := EventStreamResponse(StreamHeaders);
    var relay := new ChatRelay(parse, production, cookie);
    var events := upstream.events;
    var i := 0;
    while i < |events|
      invariant 0 <= i <= |events|
      invariant relay.parse == parse && relay.production == production
      invariant Relayed(relay.frames, relay.sessionCookie, relay.state)
        == HandleAll(Relayed([], cookie, Open), events[..i], parse, production)
    {
      match events[i] {
        case Data(chunk) => relay.OnData(chunk);
        case End => relay.OnEnd();
        case Failure(_) => relay.OnError();
      }
      assert events[..i + 1][..i] == events[..i];
      i := i + 1;
    }
    assert events[..|events|] == events;
    OnlyTextFrames(Relayed([], cookie, Open), events, parse, production);
    frames := relay.frames;
    sessionCookie := relay.sessionCookie;
    state := relay.state;
  }
}
