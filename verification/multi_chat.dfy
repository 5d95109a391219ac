/** The multi-round command-line client (src/test/test_aliyun_api_multi_chat.ts):
    a variant of the stream transformer that also records the conversation's
    `session_id`, pushes each block's text followed by a newline, and on
    flush pushes the raw leftover and a session trailer; the request with an
    optional session; and the two-round conversation that threads the
    session of the first answer into the second question. */
module MultiChat {
  import opened Text
  import opened EventStream
  import DS = DashScopeService

  // ---------------------------------------------------------------------
  // specification functions

  /** The session id of one line, as a function. */
  function LineSessionOf(parse: Parser): string -> Option<string> {
    line => LineSession(line, parse)
  }

  /** The last session id among the lines of one block. */
  function EventSession(parse: Parser): string -> Option<string> {
    event => LastOf(Lines(event), LineSessionOf(parse))
  }

  /** The recorded session id after a run of complete blocks, starting from
      `prior`: the last non-empty `output.session_id` of any `data:` line,
      or `prior` when there is none. */
  function SessionAfter(events: seq<string>, parse: Parser, prior: string): string {
    var last := LastOf(events, EventSession(parse));
    if last.Some? then last.value else prior
  }

  /** Each text followed by a newline, as `push(textContent + '\n')`. */
  function WithNewline(texts: seq<string>): (r: seq<string>)
    ensures |r| == |texts|
    ensures forall i :: 0 <= i < |texts| ==> r[i] == texts[i] + "\n"
  {
    seq(|texts|, i requires 0 <= i < |texts| => texts[i] + "\n")
  }

  /** What `_flush` pushes: the raw leftover and a newline when the
      leftover is non-empty, then the session trailer when a session id was
      recorded. */
  function FlushOutput(buffer: string, sessionId: string): seq<string> {
    (if buffer != "" then [buffer + "\n"] else [])
    + (if sessionId != "" then ["\nsession_id: " + sessionId + "\n"] else [])
  }

  /** Everything pushed for a whole response body, and the session id
      recorded at the end. */
  function StreamOutput(body: string, parse: Parser): seq<string> {
    var events := CompleteEvents(body);
    WithNewline(DS.EventTexts(events, parse)) + FlushOutput(Pending(body), SessionAfter(events, parse, ""))
  }

  // ---------------------------------------------------------------------
  // properties

  lemma WithNewlineAppend(a: seq<string>, b: seq<string>)
    ensures WithNewline(a + b) == WithNewline(a) + WithNewline(b)
  {
  }

  /** Recording sessions composes across a carried tail: the id after `s`
      and then after the tail of `s` followed by `c` is the id after
      `s + c`. */
  lemma SessionComposes(s: string, c: string, parse: Parser, prior: string)
    ensures SessionAfter(CompleteEvents(Pending(s) + c), parse, SessionAfter(CompleteEvents(s), parse, prior))
         == SessionAfter(CompleteEvents(s + c), parse, prior)
  {
    CarryPending(s, c);
    LastOfAppend(CompleteEvents(s), CompleteEvents(Pending(s) + c), EventSession(parse));
  }

  /** The recorded id is never cleared: once non-empty it stays non-empty,
      and a new one is always the non-empty id of some line. */
  lemma SessionNeverCleared(events: seq<string>, parse: Parser, prior: string)
    ensures prior != "" ==> SessionAfter(events, parse, prior) != ""
    ensures SessionAfter(events, parse, prior) != prior ==>
      exists e :: e in events && EventSession(parse)(e) == Some(SessionAfter(events, parse, prior))
  {
    var f := EventSession(parse);
    LastOfSound(events, f);
    if LastOf(events, f).Some? {
      var e :| e in events && f(e) == LastOf(events, f);
      LastOfSound(Lines(e), LineSessionOf(parse));
    }
  }

  /** One step of the block loop: the pushed texts and the recorded id. */
  lemma BlockStep(events: seq<string>, i: nat, parse: Parser, t: string, sid: string, prior: string)
    requires i < |events|
    requires t == DS.OrEmpty(DS.EventText(parse)(events[i])) && (t != "" <==> DS.EventText(parse)(events[i]).Some?)
    requires sid == (var s := EventSession(parse)(events[i]); if s.Some? then s.value else SessionAfter(events[..i], parse, prior))
    ensures WithNewline(DS.EventTexts(events[..i + 1], parse))
         == WithNewline(DS.EventTexts(events[..i], parse)) + (if t != "" then [t + "\n"] else [])
    ensures sid == SessionAfter(events[..i + 1], parse, prior)
  {
    DS.DeliverStep(events, i, DS.EventText(parse), t);
    WithNewlineAppend(DS.EventTexts(events[..i], parse), if t != "" then [t] else []);
    LastOfStep(events, i, EventSession(parse));
  }

  // ---------------------------------------------------------------------
  // the transformer

  /** The transformer of the multi-round client; what it pushes is recorded
      in `pushed`. */
  class SSETransformer {
    const parse: Parser
    var buffer: string
    var sessionId: string
    var pushed: seq<string>

    constructor (parse: Parser)
      ensures this.parse == parse && buffer == "" && sessionId == "" && pushed == []
    {
      this.parse := parse;
      buffer := "";
      sessionId := "";
      pushed := [];
    }

    /** The `lines.forEach` loop of one block: its text as in the service's
        transformer, and the session id after its lines, starting from
        `sid`. */
    method ScanBlock(event: string, sid: string) returns (textContent: string, sidOut: string)
      ensures textContent == DS.OrEmpty(DS.EventText(parse)(event))
      ensures textContent != "" <==> DS.EventText(parse)(event).Some?
      ensures sidOut == (var s := EventSession(parse)(event); if s.Some? then s.value else sid)
    {
      var lines := Lines(event);
      textContent := "";
      sidOut := sid;
      var j := 0;
      while j < |lines|
        invariant 0 <= j <= |lines|
        invariant textContent == DS.OrEmpty(LastOf(lines[..j], DS.LineTextOf(parse)))
        invariant sidOut == (var s := LastOf(lines[..j], LineSessionOf(parse)); if s.Some? then s.value else sid)
      {
        var line := lines[j];
        if StartsWith(line, DataPrefix) {
          var json := parse(Trim(line[|DataPrefix|..]));
          if json.Some? && json.value.output.Some? {
            if Truthy(json.value.output.value.text) {
              textContent := json.value.output.value.text.value;
            }
            if Truthy(json.value.output.value.sessionId) {
              sidOut := json.value.output.value.sessionId.value;
            }
          }
        }
        LastOfStep(lines, j, DS.LineTextOf(parse));
        LastOfStep(lines, j, LineSessionOf(parse));
        j := j + 1;
      }
      assert lines[..|lines|] == lines;
    }

    /** `_transform(chunk)` */
    method Transform(chunk: string)
      modifies this
      ensures buffer == Pending(old(buffer) + chunk)
      ensures !Contains(buffer, EventSep)
      ensures pushed == old(pushed) + WithNewline(DS.EventTexts(CompleteEvents(old(buffer) + chunk), parse))
      ensures sessionId == SessionAfter(CompleteEvents(old(buffer) + chunk), parse, old(sessionId))
    {
      buffer := buffer + chunk;
      var events := Split(buffer, EventSep);
      buffer := Last(events);
      events := DropLast(events);
      PendingIsIncomplete(old(buffer) + chunk);
      var out, sid := HandOn(events, sessionId);
      pushed := pushed + out;
      sessionId := sid;
    }

    /** The `events.forEach` loop: the pushes it makes and the session id
        it leaves, starting from `sid`. */
    method HandOn(events: seq<string>, sid: string) returns (out: seq<string>, sidOut: string)
      ensures out == WithNewline(DS.EventTexts(events, parse))
      ensures sidOut == SessionAfter(events, parse, sid)
    {
      out := [];
      sidOut := sid;
      var i := 0;
      while i < |events|
        invariant 0 <= i <= |events|
        invariant out == WithNewline(DS.EventTexts(events[..i], parse))
        invariant sidOut == SessionAfter(events[..i], parse, sid)
      {
        var textContent, s := ScanBlock(events[i], sidOut);
        BlockStep(events, i, parse, textContent, s, sid);
        if textContent != "" {
          out := out + [textContent + "\n"];
        }
        sidOut := s;
        i := i + 1;
      }
      assert events[..|events|] == events;
    }

    /** `_flush()` */
    method Flush()
      modifies this
      ensures buffer == old(buffer) && sessionId == old(sessionId)
      ensures pushed == old(pushed) + FlushOutput(buffer, sessionId)
    {
      if buffer != "" {
        pushed := pushed + [buffer + "\n"];
      }
      if sessionId != "" {
        pushed := pushed + ["\nsession_id: " + sessionId + "\n"];
      }
    }

    /** `getSessionId()` */
    function GetSessionId(): string
      reads this
    {
      sessionId
    }
  }

  /** `response.data.pipe(sseTransformer)` until `end`: what is pushed
      depends only on the concatenated body, and the id read by
      `getSessionId` is the last one of its complete blocks (the leftover
      is pushed raw and its ids are never recorded). */
  method Pipe(chunks: seq<string>, parse: Parser) returns (pushed: seq<string>, sessionId: string)
    ensures pushed == StreamOutput(Concat(chunks), parse)
    ensures sessionId == SessionAfter(CompleteEvents(Concat(chunks)), parse, "")
  {
    var t := new SSETransformer(parse);
    ghost var seen := "";
    var i := 0;
    while i < |chunks|
      invariant 0 <= i <= |chunks|
      invariant seen == Concat(chunks[..i])
      invariant t.parse == parse
      invariant t.buffer == Pending(seen)
      invariant t.pushed == WithNewline(DS.EventTexts(CompleteEvents(seen), parse))
      invariant t.sessionId == SessionAfter(CompleteEvents(seen), parse, "")
    {
      DS.TransformComposes(seen, chunks[i], parse);
      SessionComposes(seen, chunks[i], parse, "");
      WithNewlineAppend(DS.EventTexts(CompleteEvents(seen), parse),
                        DS.EventTexts(CompleteEvents(Pending(seen) + chunks[i]), parse));
      t.Transform(chunks[i]);
      ConcatPrefix(chunks, i);
      seen := seen + chunks[i];
      i := i + 1;
    }
    assert chunks[..|chunks|] == chunks;
    t.Flush();
    pushed := t.pushed;
    sessionId := t.GetSessionId();
  }

  // ---------------------------------------------------------------------
  // the request and the conversation

  /** The body `callDashScope(prompt, sessionId)` sends: the same body as
      the service, with `input.session_id` added exactly when the given id
      is truthy. */
  function CallRequest(prompt: string, sessionId: Option<string>): (r: DS.Request)
    ensures r.input.prompt == prompt
    ensures r.input.sessionId.Some? <==> Truthy(sessionId)
    ensures r.input.sessionId.Some? ==> r.input.sessionId == sessionId
    ensures r.parameters == DS.Parameters("true", "true", ["he9rcpebc3", "utmhvnxgey"])
  {
    var session := if Truthy(sessionId) then sessionId else None;
    DS.Request(DS.RequestInput(prompt, session), DS.Parameters("true", "true", ["he9rcpebc3", "utmhvnxgey"]))
  }

  /** Without a session the client sends exactly the body the service
      sends for the same prompt. */
  lemma FirstRoundMatchesService(svc: DS.Service, prompt: string)
    requires svc.pipelineIds == DS.PipelineIds
    ensures svc.PostFor(prompt).body == CallRequest(prompt, None)
  {
  }

  /** Why `callDashScope` rejects. */
  datatype Failure = BadStatus(status: int) | PipeError(message: string) | Thrown(message: string)

  /** How the promise of `callDashScope` settles. */
  datatype Settlement = Resolved(sessionId: string) | Rejected(failure: Failure) | Unsettled

  /** The listeners on the piped stream: the first `end` resolves with the
      recorded id, the first `error` rejects; `finish` and `close` are not
      listened to. */
  function Settle(signals: seq<DS.Signal>, sessionId: string): (r: Settlement)
    ensures r.Resolved? ==> r.sessionId == sessionId && DS.End in signals
    ensures r.Unsettled? <==> forall k :: 0 <= k < |signals| ==> signals[k] != DS.End && !signals[k].StreamFailure?
    ensures r.Resolved? <==> exists k :: 0 <= k < |signals| && signals[k] == DS.End && Quiet(signals, k)
    ensures r.Rejected? <==> exists k :: 0 <= k < |signals| && signals[k].StreamFailure? && Quiet(signals, k)
    ensures r.Rejected? ==> exists k :: 0 <= k < |signals| && signals[k].StreamFailure? && Quiet(signals, k) && r.failure == PipeError(signals[k].message)
    decreases |signals|
  {
    if signals == [] then Unsettled
    else
      var r := Settle(signals[1..], sessionId);
      assert Quiet(signals, 0);
      assert forall k :: 1 <= k <= |signals| && Quiet(signals[1..], k - 1) && signals[0] != DS.End && !signals[0].StreamFailure? ==> Quiet(signals, k) by {
        forall k | 1 <= k <= |signals| && Quiet(signals[1..], k - 1) && signals[0] != DS.End && !signals[0].StreamFailure?
          ensures Quiet(signals, k)
        {
          forall j | 0 <= j < k ensures signals[j] != DS.End && !signals[j].StreamFailure? {
            if j > 0 { assert signals[j] == signals[1..][j - 1]; }
          }
        }
      }
      match signals[0]
      case End => Resolved(sessionId)
      case StreamFailure(m) => Rejected(PipeError(m))
      case _ =>
        assert forall k :: 1 <= k < |signals| && Quiet(signals, k) ==> Quiet(signals[1..], k - 1);
        assert forall k :: 1 <= k < |signals| ==> signals[k] == signals[1..][k - 1];
        r
  }

  /** No signal before position `k` is an `End` or a stream failure: the
      listeners have not settled before it. */
  predicate Quiet(signals: seq<DS.Signal>, k: nat)
    requires k <= |signals|
  {
    forall j :: 0 <= j < k ==> signals[j] != DS.End && !signals[j].StreamFailure?
  }

  /** The settlement of `callDashScope` for a reply. */
  function CallSettlement(reply: DS.Reply, parse: Parser): Settlement {
    match reply
    case Answered(status, _, chunks, signals) =>
      if status == 200 then Settle(signals, SessionAfter(CompleteEvents(Concat(chunks)), parse, ""))
      else Rejected(BadStatus(status))
    case Threw(_, message, _) => Rejected(Thrown(message))
  }

  /** `callDashScope(prompt, sessionId)`: the body it sends, what it writes
      to standard output, and how it settles. */
  method CallDashScope(prompt: string, sessionId: Option<string>, reply: DS.Reply, parse: Parser)
    returns (request: DS.Request, output: seq<string>, result: Settlement)
    ensures request == CallRequest(prompt, sessionId)
    ensures result == CallSettlement(reply, parse)
    ensures output == if reply.Answered? && reply.status == 200 then StreamOutput(Concat(reply.chunks), parse) else []
  {
    request := CallRequest(prompt, sessionId);
    output := [];
    match reply {
      case Answered(status, _, chunks, signals) =>
        if status == 200 {
          var sid;
          output, sid := Pipe(chunks, parse);
          result := Settle(signals, sid);
        } else {
          result := Rejected(BadStatus(status));
        }
      case Threw(_, message, _) =>
        result := Rejected(Thrown(message));
    }
  }

  const FirstQuestion: string := "你是谁？"
  const SecondQuestion: string := "你有什么技能？"

  /** `runMultiRoundChat()`: the first question is sent without a session;
      when its call resolves, the second question is sent with the id it
      resolved with (included only if non-empty); when it rejects, the
      conversation stops. */
  method RunMultiRound(first: DS.Reply, second: DS.Reply, parse: Parser) returns (requests: seq<DS.Request>)
    ensures |requests| >= 1 && requests[0] == CallRequest(FirstQuestion, None)
    ensures |requests| == 2 <==> CallSettlement(first, parse).Resolved?
    ensures |requests| <= 2
    ensures |requests| == 2 ==>
      requests[1] == CallRequest(SecondQuestion, Some(CallSettlement(first, parse).sessionId))
  {
    var r1, out1, s1 := CallDashScope(FirstQuestion, None, first, parse);
    requests := [r1];
    if s1.Resolved? {
      var r2, out2, s2 := CallDashScope(SecondQuestion, Some(s1.sessionId), second, parse);
      requests := requests + [r2];
    }
  }
}
