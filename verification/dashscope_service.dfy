/** The upstream completion client (src/lib/dashscope/service.ts): the
    `SSETransformer` that reassembles the event stream and hands each
    block's text to `onData`, the `DashScopeService` singleton, the request
    it sends and the way it reports failures. */
module DashScopeService {
  import opened Text
  import opened EventStream

  // ---------------------------------------------------------------------
  // what the transformer hands on, as functions of the input

  /** `o ?? ''` for an optional text. */
  function OrEmpty(o: Option<string>): string {
    if o.Some? then o.value else ""
  }

  /** The optional text as a list of zero or one elements. */
  function AsList(o: Option<string>): (r: seq<string>)
    ensures |r| <= 1
  {
    if o.Some? then [o.value] else []
  }

  /** The text of the last `data:` line of a block whose payload carries a
      non-empty `output.text`. */
  function LastText(lines: seq<string>, parse: Parser): (r: Option<string>)
    ensures r.Some? ==> r.value != ""
  {
    LastOfSound(lines, LineTextOf(parse));
    LastOf(lines, LineTextOf(parse))
  }

  /** The text of one block: `LastText` of its lines. */
  function EventText(parse: Parser): string -> Option<string> {
    event => LastText(Lines(event), parse)
  }

  /** The text of one line, as a function. */
  function LineTextOf(parse: Parser): string -> Option<string> {
    line => LineText(line, parse)
  }

  /** The texts `_transform` hands to `onData` for a run of complete
      blocks: one per block that has text, in order. */
  function EventTexts(events: seq<string>, parse: Parser): (r: seq<string>)
    ensures |r| <= |events|
  {
    Collect(events, EventText(parse))
  }

  /** Every text carried by the given lines, in order (at most one per
      line). */
  function LineTexts(lines: seq<string>, parse: Parser): (r: seq<string>)
    ensures |r| <= |lines|
  {
    Collect(lines, LineTextOf(parse))
  }

  /** What `_flush` hands to `onData` for the leftover buffer. */
  function FlushTexts(buffer: string, parse: Parser): seq<string> {
    if buffer == "" then [] else LineTexts(Lines(buffer), parse)
  }

  /** Everything handed to `onData` for a whole response body. */
  function StreamTexts(body: string, parse: Parser): seq<string> {
    EventTexts(CompleteEvents(body), parse) + FlushTexts(Pending(body), parse)
  }

  // ---------------------------------------------------------------------
  // properties of the specification functions

  /** A block has no text exactly when none of its lines has one. */
  lemma LastTextAbsent(lines: seq<string>, parse: Parser)
    ensures LastText(lines, parse).None? <==> forall k :: 0 <= k < |lines| ==> LineText(lines[k], parse).None?
  {
    LastOfAbsent(lines, LineTextOf(parse));
  }

  /** When a block has text, it is the text of some line after which no
      line has text: the last one wins. */
  lemma LastTextIsLastDataLine(lines: seq<string>, parse: Parser)
    ensures LastText(lines, parse).Some? ==>
      exists k :: 0 <= k < |lines| && LineText(lines[k], parse) == LastText(lines, parse) &&
        forall j :: k < j < |lines| ==> LineText(lines[j], parse).None?
  {
    LastOfIsLast(lines, LineTextOf(parse));
  }

  /** A line without text (not `data:`, malformed JSON, no `output.text`)
      can be removed without changing the block's text: it does not stop
      the lines after it. */
  lemma LastTextSkipsLine(xs: seq<string>, line: string, ys: seq<string>, parse: Parser)
    requires LineText(line, parse).None?
    ensures LastText(xs + [line] + ys, parse) == LastText(xs + ys, parse)
  {
    LastOfSkips(xs, line, ys, LineTextOf(parse));
  }

  /** Every text handed to `onData` is non-empty and is the text of one of
      the lines of one of the body's blocks. */
  lemma StreamTextsSound(body: string, parse: Parser)
    ensures forall t :: t in StreamTexts(body, parse) ==>
      t != "" && exists block, line :: block in Split(body, EventSep) && line in Lines(block) && LineText(line, parse) == Some(t)
  {
    var blocks := Split(body, EventSep);
    var events := CompleteEvents(body);
    assert events + [Pending(body)] == blocks;
    CollectSound(events, EventText(parse));
    if Pending(body) != "" {
      CollectSound(Lines(Pending(body)), LineTextOf(parse));
    }
    forall t | t in StreamTexts(body, parse)
      ensures t != "" && exists block, line :: block in blocks && line in Lines(block) && LineText(line, parse) == Some(t)
    {
      if t in EventTexts(events, parse) {
        var e :| e in events && EventText(parse)(e) == Some(t);
        LastOfSound(Lines(e), LineTextOf(parse));
        var line :| line in Lines(e) && LineTextOf(parse)(line) == Some(t);
        assert e in blocks;
      } else {
        var line :| line in Lines(Pending(body)) && LineTextOf(parse)(line) == Some(t);
        assert Pending(body) in blocks;
      }
    }
  }

  /** One step of a loop that hands on the present, non-empty results of
      `f` in order. */
  lemma DeliverStep(xs: seq<string>, i: nat, f: string -> Option<string>, t: string)
    requires i < |xs|
    requires t == OrEmpty(f(xs[i])) && (t != "" <==> f(xs[i]).Some?)
    ensures Collect(xs[..i + 1], f) == Collect(xs[..i], f) + (if t != "" then [t] else [])
  {
    assert xs[..i + 1] == xs[..i] + [xs[i]];
    CollectSnoc(xs[..i], xs[i], f);
  }

  /** One `_transform` step composes: the texts handed on for `s` and then
      for the carried tail followed by `c` are the texts handed on for
      `s + c` at once, and the carried tail is the same. */
  lemma TransformComposes(s: string, c: string, parse: Parser)
    ensures EventTexts(CompleteEvents(s), parse) + EventTexts(CompleteEvents(Pending(s) + c), parse)
         == EventTexts(CompleteEvents(s + c), parse)
    ensures Pending(Pending(s) + c) == Pending(s + c)
  {
    CarryPending(s, c);
    CollectAppend(CompleteEvents(s), CompleteEvents(Pending(s) + c), EventText(parse));
  }

  // ---------------------------------------------------------------------
  // the transformer

  /** The stream transformer; the texts it hands to `onData` are recorded in
      `delivered`. */
  class SSETransformer {
    const parse: Parser
    var buffer: string
    var delivered: seq<string>

    constructor (parse: Parser)
      ensures this.parse == parse && buffer == "" && delivered == []
    {
      this.parse := parse;
      buffer := "";
      delivered := [];
    }

    /** The `lines.forEach` loop of one block: the text of its last `data:`
        line that carries one, or `''`. */
    method ScanBlock(event: string) returns (textContent: string)
      ensures textContent == OrEmpty(EventText(parse)(event))
      ensures textContent != "" <==> EventText(parse)(event).Some?
    {
      var lines := Lines(event);
      textContent := "";
      var j := 0;
      while j < |lines|
        invariant 0 <= j <= |lines|
        invariant textContent == OrEmpty(LastOf(lines[..j], LineTextOf(parse)))
      {
        var line := lines[j];
        if StartsWith(line, DataPrefix) {
          var json := parse(Trim(line[|DataPrefix|..]));
          if json.Some? && json.value.output.Some? && Truthy(json.value.output.value.text) {
            textContent := json.value.output.value.text.value;
          }
        }
        LastOfStep(lines, j, LineTextOf(parse));
        j := j + 1;
      }
      assert lines[..|lines|] == lines;
    }

    /** `_transform(chunk)` */
    method Transform(chunk: string)
      modifies this
      ensures buffer == Pending(old(buffer) + chunk)
      ensures !Contains(buffer, EventSep)
      ensures delivered == old(delivered) + EventTexts(CompleteEvents(old(buffer) + chunk), parse)
    {
      buffer := buffer + chunk;
      var events := Split(buffer, EventSep);
      buffer := Last(events);
      events := DropLast(events);
      PendingIsIncomplete(old(buffer) + chunk);
      HandOn(events);
    }

    /** The `events.forEach` loop: each block's text, when it has one, goes
        to `onData`. */
    method HandOn(events: seq<string>)
      modifies this
      ensures buffer == old(buffer)
      ensures delivered == old(delivered) + EventTexts(events, parse)
    {
      var log := delivered;
      var i := 0;
      while i < |events|
        invariant 0 <= i <= |events|
        invariant buffer == old(buffer) && delivered == old(delivered)
        invariant log == old(delivered) + Collect(events[..i], EventText(parse))
      {
        var textContent := ScanBlock(events[i]);
        DeliverStep(events, i, EventText(parse), textContent);
        if textContent != "" {
          log := log + [textContent];
        }
        i := i + 1;
      }
      assert events[..|events|] == events;
      delivered := log;
    }

    /** `_flush()` */
    method Flush()
      modifies this
      ensures buffer == old(buffer)
      ensures delivered == old(delivered) + FlushTexts(old(buffer), parse)
    {
      if buffer != "" {
        var lines := Lines(buffer);
        var j := 0;
        while j < |lines|
          invariant 0 <= j <= |lines|
          invariant buffer == old(buffer)
          invariant delivered == old(delivered) + LineTexts(lines[..j], parse)
        {
          var line := lines[j];
          if StartsWith(line, DataPrefix) {
            var json := parse(Trim(line[|DataPrefix|..]));
            if json.Some? && json.value.output.Some? && Truthy(json.value.output.value.text) {
              delivered := delivered + [json.value.output.value.text.value];
            }
          }
          assert lines[..j + 1] == lines[..j] + [line];
          CollectSnoc(lines[..j], line, LineTextOf(parse));
          j := j + 1;
        }
        assert lines[..|lines|] == lines;
      }
    }
  }

  /** `response.data.pipe(sseTransformer)`: every chunk goes through
      `_transform`, then `_flush` runs once. What reaches `onData` depends
      only on the concatenated body, not on where it was cut into chunks. */
  method Pipe(chunks: seq<string>, parse: Parser) returns (delivered: seq<string>)
    ensures delivered == StreamTexts(Concat(chunks), parse)
  {
    var t := new SSETransformer(parse);
    ghost var seen := "";
    var i := 0;
    while i < |chunks|
      invariant 0 <= i <= |chunks|
      invariant seen == Concat(chunks[..i])
      invariant t.parse == parse
      invariant t.buffer == Pending(seen)
      invariant t.delivered == EventTexts(CompleteEvents(seen), parse)
    {
      TransformComposes(seen, chunks[i], parse);
      t.Transform(chunks[i]);
      ConcatPrefix(chunks, i);
      seen := seen + chunks[i];
      i := i + 1;
    }
    assert chunks[..|chunks|] == chunks;
    t.Flush();
    delivered := t.delivered;
  }

  // ---------------------------------------------------------------------
  // the service

  datatype Config = Config(apiKey: string, appId: string)

  /** The JSON body of the completion request. */
  datatype RequestInput = RequestInput(prompt: string, sessionId: Option<string>)
  datatype Parameters = Parameters(incrementalOutput: string, hasThoughts: string, pipelineIds: seq<string>)
  datatype Request = Request(input: RequestInput, parameters: Parameters)

  /** The POST the service issues: URL, bearer credential, body, timeout in
      milliseconds (0 when none is set). */
  datatype Post = Post(url: string, authorization: string, body: Request, timeoutMs: nat)

  const PipelineIds: seq<string> := ["he9rcpebc3", "utmhvnxgey"]
  const TimeoutMs: nat := 30000

  const AppsBase: string := "https://dashscope.aliyuncs.com/api/v1/apps/"

  /** The completion endpoint of an application. */
  function CompletionUrl(appId: string): string {
    AppsBase + appId + "/completion"
  }

  class Service {
    const apiKey: string
    const appId: string
    const pipelineIds: seq<string>
    const timeout: nat

    constructor (config: Config)
      ensures apiKey == config.apiKey && appId == config.appId
      ensures pipelineIds == PipelineIds && timeout == TimeoutMs
    {
      apiKey := config.apiKey;
      appId := config.appId;
      pipelineIds := PipelineIds;
      timeout := TimeoutMs;
    }

    /** The request `askQuestion(prompt)` sends: the prompt alone, with no
        session, incremental output and thoughts on, and the two knowledge
        pipelines. */
    function PostFor(prompt: string): (r: Post)
      ensures r.body.input == RequestInput(prompt, None)
      ensures r.body.parameters == Parameters("true", "true", pipelineIds)
      ensures StartsWith(r.url, AppsBase) && r.url[|AppsBase|..] == appId + "/completion"
      ensures r.url[|AppsBase|..|r.url| - |"/completion"|] == appId
      ensures r.authorization == "Bearer " + apiKey && r.timeoutMs == timeout
    {
      Post(CompletionUrl(appId), "Bearer " + apiKey,
           Request(RequestInput(prompt, None), Parameters("true", "true", pipelineIds)), timeout)
    }
  }

  /** Holder of the static `DashScopeService.instance` field. */
  class Registry {
    var instance: Service?

    constructor ()
      ensures instance == null
    {
      instance := null;
    }

    /** `getInstance(config)`: the first call creates the service from its
        config; every later call returns that same object and ignores its
        config. */
    method GetInstance(config: Config) returns (s: Service)
      modifies this
      ensures old(instance) != null ==> s == old(instance)
      ensures old(instance) == null ==> fresh(s) && s.apiKey == config.apiKey && s.appId == config.appId
      ensures instance == s
    {
      if instance == null {
        instance := new Service(config);
      }
      s := instance;
    }
  }

  /** Two calls with different configs give the same object, built from the
      first config. */
  method GetInstanceTwice(r: Registry, first: Config, second: Config) returns (a: Service, b: Service)
    requires r.instance == null
    modifies r
    ensures a == b && a.apiKey == first.apiKey && a.appId == first.appId
  {
    a := r.GetInstance(first);
    b := r.GetInstance(second);
  }

  // ---------------------------------------------------------------------
  // outcomes of askQuestion

  datatype DashScopeError = DashScopeError(status: int, message: string, requestId: Option<string>)

  /** The callbacks of `DashScopeServiceOptions`, in the order they are
      invoked. */
  datatype Callback = OnStream(text: string) | OnError(error: DashScopeError) | OnComplete

  /** What the piped transformer emits after the body: `end`, `finish`,
      `error(err)` or `close`. */
  datatype Signal = End | Finish | StreamFailure(message: string) | Close

  /** How the POST ended: with a response (status, `request_id` of the
      body, the body's chunks and the signals that followed), or with a
      thrown value (whether it is an `Error`, its message, and the status
      of the attached response when there is one). */
  datatype Reply =
    | Answered(status: int, requestId: Option<string>, chunks: seq<string>, signals: seq<Signal>)
    | Threw(isError: bool, message: string, responseStatus: Option<int>)

  /** The handler registered for one signal: `end` and `finish` both
      call `onComplete`, `error` reports status 500, `close` only logs. */
  function SignalCallback(signal: Signal): (r: seq<Callback>)
    ensures |r| <= 1
  {
    match signal
    case End => [OnComplete]
    case Finish => [OnComplete]
    case StreamFailure(m) => [OnError(DashScopeError(500, "流处理错误: " + m, None))]
    case Close => []
  }

  /** The handlers' calls for a run of signals, in order. */
  function SignalCallbacks(signals: seq<Signal>): (r: seq<Callback>)
    ensures |r| <= |signals|
    decreases |signals|
  {
    if signals == [] then [] else SignalCallback(signals[0]) + SignalCallbacks(signals[1..])
  }

  /** The error reported for a thrown `Error`: the attached response's
      status when it is truthy, else 500. */
  function ThrownError(message: string, responseStatus: Option<int>): (e: DashScopeError)
    ensures e.status == 500 || (responseStatus.Some? && e.status == responseStatus.value != 0)
    ensures responseStatus.Some? && responseStatus.value != 0 ==> e.status == responseStatus.value
    ensures StartsWith(e.message, "API调用失败: ")
  {
    var status := if responseStatus.Some? && responseStatus.value != 0 then responseStatus.value else 500;
    DashScopeError(status, "API调用失败: " + message, None)
  }

  function StreamCallbacks(texts: seq<string>): (r: seq<Callback>)
    ensures |r| == |texts|
    ensures forall i :: 0 <= i < |r| ==> r[i] == OnStream(texts[i])
  {
    seq(|texts|, i requires 0 <= i < |texts| => OnStream(texts[i]))
  }

  /** `askQuestion(prompt, options)`: the POST it issues and the callbacks
      it makes for a given reply. A status-200 response streams the texts of
      the body and then reacts to the stream's signals; any other status
      reports that status with '请求失败'; a thrown `Error` reports the
      attached status or 500; a thrown non-`Error` reports nothing. */
  method AskQuestion(svc: Service, prompt: string, reply: Reply, parse: Parser)
    returns (post: Post, calls: seq<Callback>)
    ensures post == svc.PostFor(prompt)
    ensures reply.Answered? && reply.status == 200 ==>
      calls == StreamCallbacks(StreamTexts(Concat(reply.chunks), parse)) + SignalCallbacks(reply.signals)
    ensures reply.Answered? && reply.status != 200 ==>
      calls == [OnError(DashScopeError(reply.status, "请求失败", reply.requestId))]
    ensures reply.Threw? && reply.isError ==> calls == [OnError(ThrownError(reply.message, reply.responseStatus))]
    ensures reply.Threw? && !reply.isError ==> calls == []
  {
    post := svc.PostFor(prompt);
    match reply {
      case Answered(status, requestId, chunks, signals) =>
        if status == 200 {
          var texts := Pipe(chunks, parse);
          calls := StreamCallbacks(texts) + SignalCallbacks(signals);
        } else {
          calls := [OnError(DashScopeError(status, "请求失败", requestId))];
        }
      case Threw(isError, message, responseStatus) =>
        if isError {
          calls := [OnError(ThrownError(message, responseStatus))];
        } else {
          calls := [];
        }
    }
  }

  /** `onComplete` is called once for every `end` and every `finish` that
      the piped stream emits. Which of them it emits is an input. */
  lemma {:induction false} CompletionCount(signals: seq<Signal>)
    ensures Count(SignalCallbacks(signals), OnComplete) == Count(signals, End) + Count(signals, Finish)
    decreases |signals|
  {
    if signals != [] {
      var x := signals[0];
      CompletionCount(signals[1..]);
      CountAppend(SignalCallback(x), SignalCallbacks(signals[1..]), OnComplete);
      var one := SignalCallback(x);
      assert Count(one, OnComplete) == if x == End || x == Finish then 1 else 0 by {
        if one != [] {
          assert one[1..] == [];
        }
      }
    }
  }

  function Count<T(==)>(s: seq<T>, x: T): nat
    decreases |s|
  {
    if s == [] then 0 else (if s[0] == x then 1 else 0) + Count(s[1..], x)
  }

  lemma {:induction false} CountAppend<T>(a: seq<T>, b: seq<T>, x: T)
    ensures Count(a + b, x) == Count(a, x) + Count(b, x)
    decreases |a|
  {
    if a == [] {
      assert a + b == b;
    } else {
      assert (a + b)[0] == a[0];
      assert (a + b)[1..] == a[1..] + b;
      CountAppend(a[1..], b, x);
    }
  }
}
