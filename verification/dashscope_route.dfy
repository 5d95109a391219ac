/** The plain relay route (src/app/api/dashscope/route.ts): it reads the
    credentials from the environment, checks the prompt, and relays the
    service's callbacks to the response stream: each text as a `{text}`
    frame, an error as one `{error}` frame followed by closing, completion
    by closing. */
module DashScopeRoute {
  import opened Text
  import opened EventStream
  import DS = DashScopeService
  import CR = ChatRoute

  datatype Result<T> = Ok(value: T) | Err(message: string)

  /** `getEnvVar(name)`: the variable's value, or an error when it is unset
      or empty. */
  function GetEnvVar(env: map<string, string>, name: string): (r: Result<string>)
    ensures r.Ok? <==> name in env && env[name] != ""
    ensures r.Ok? ==> r.value == env[name]
    ensures r.Err? ==> r.message == "环境变量 " + name + " 未设置"
  {
    if name in env && env[name] != "" then Ok(env[name]) else Err("环境变量 " + name + " 未设置")
  }

  // ---------------------------------------------------------------------
  // the writer protocol

  /** What the response stream has received: the frames written and whether
      the writer is still open. */
  datatype Sink = Sink(frames: seq<Frame>, state: CR.WriterState)

  /** `writer.write(frame)`: a write to a writer that is no longer open is
      rejected and changes nothing. */
  function Write(s: Sink, f: Frame): Sink {
    if s.state == CR.Open then s.(frames := s.frames + [f]) else s
  }

  /** `writer.close()`: rejected, changing nothing, once not open. */
  function Close(s: Sink): Sink {
    if s.state == CR.Open then s.(state := CR.Closed) else s
  }

  /** The route's reaction to one callback of the service. */
  function React(s: Sink, c: DS.Callback): Sink {
    match c
    case OnStream(text) => Write(s, TextFrame(text))
    case OnError(error) => Close(Write(s, ErrorFrame(error.message)))
    case OnComplete => Close(s)
  }

  /** The reactions to a run of callbacks, in order. */
  function ReactAll(s: Sink, calls: seq<DS.Callback>): Sink
    decreases |calls|
  {
    if calls == [] then s else React(ReactAll(s, DropLast(calls)), Last(calls))
  }

  /** The callbacks of the route, on the writer they share. */
  class RouteWriter {
    var frames: seq<Frame>
    var state: CR.WriterState

    constructor ()
      ensures frames == [] && state == CR.Open
    {
      frames := [];
      state := CR.Open;
    }

    function Current(): Sink
      reads this
    {
      Sink(frames, state)
    }

    /** `onStream(text)` */
    method OnStream(text: string)
      modifies this
      ensures Current() == React(old(Current()), DS.OnStream(text))
    {
      if state == CR.Open {
        frames := frames + [TextFrame(text)];
      }
    }

    /** `onError(error)`: one `{error}` frame, then close. */
    method OnError(error: DS.DashScopeError)
      modifies this
      ensures Current() == React(old(Current()), DS.OnError(error))
    {
      if state == CR.Open {
        frames := frames + [ErrorFrame(error.message)];
        state := CR.Closed;
      }
    }

    /** `onComplete()` */
    method OnComplete()
      modifies this
      ensures Current() == React(old(Current()), DS.OnComplete)
    {
      if state == CR.Open {
        state := CR.Closed;
      }
    }

    /** The callbacks as the service makes them, one after another. */
    method Receive(calls: seq<DS.Callback>)
      modifies this
      ensures Current() == ReactAll(old(Current()), calls)
    {
      var i := 0;
      while i < |calls|
        invariant 0 <= i <= |calls|
        invariant Current() == ReactAll(old(Current()), calls[..i])
      {
        assert DropLast(calls[..i + 1]) == calls[..i];
        match calls[i] {
          case OnStream(text) => OnStream(text);
          case OnError(error) => OnError(error);
          case OnComplete => OnComplete();
        }
        i := i + 1;
      }
      assert calls[..|calls|] == calls;
    }
  }

  // ---------------------------------------------------------------------
  // properties of the protocol

  lemma {:induction false} ReactAllAppend(s: Sink, a: seq<DS.Callback>, b: seq<DS.Callback>)
    ensures ReactAll(s, a + b) == ReactAll(ReactAll(s, a), b)
    decreases |b|
  {
    if b != [] {
      assert DropLast(a + b) == a + DropLast(b);
      assert Last(a + b) == Last(b);
      ReactAllAppend(s, a, DropLast(b));
    } else {
      assert a + b == a;
    }
  }

  /** Once the writer is closed nothing more is written and it stays
      closed. */
  lemma {:induction false} ClosedStaysQuiet(s: Sink, calls: seq<DS.Callback>)
    requires s.state != CR.Open
    ensures ReactAll(s, calls) == s
    decreases |calls|
  {
    if calls != [] {
      ClosedStaysQuiet(s, DropLast(calls));
    }
  }

  /** Texts streamed to an open writer are written as `{text}` frames, in
      order, and leave it open. */
  lemma {:induction false} StreamedTexts(s: Sink, texts: seq<string>)
    requires s.state == CR.Open
    ensures ReactAll(s, DS.StreamCallbacks(texts)) == Sink(s.frames + CR.TextFrames(texts), CR.Open)
    decreases |texts|
  {
    if texts != [] {
      var init := DropLast(texts);
      assert DropLast(DS.StreamCallbacks(texts)) == DS.StreamCallbacks(init);
      StreamedTexts(s, init);
      assert CR.TextFrames(texts) == CR.TextFrames(init) + [TextFrame(Last(texts))];
    }
  }

  /** The whole relay: the streamed texts as `{text}` frames, then, at the
      first error or completion, exactly one `{error}` frame for an error
      and in both cases a closed writer; whatever follows is ignored. */
  lemma Relay(texts: seq<string>, last: DS.Callback, rest: seq<DS.Callback>)
    requires !last.OnStream?
    ensures ReactAll(Sink([], CR.Open), DS.StreamCallbacks(texts) + [last] + rest)
         == Sink(CR.TextFrames(texts) + (if last.OnError? then [ErrorFrame(last.error.message)] else []), CR.Closed)
  {
    var s := Sink([], CR.Open);
    var head := DS.StreamCallbacks(texts);
    ReactAllAppend(s, head + [last], rest);
    ReactAllAppend(s, head, [last]);
    StreamedTexts(s, texts);
    assert DropLast([last]) == [];
    ClosedStaysQuiet(ReactAll(s, head + [last]), rest);
  }

  /** At most one `{error}` frame is written, and only as the last frame. */
  lemma {:induction false} ErrorFrameLast(s: Sink, calls: seq<DS.Callback>)
    requires s.state == CR.Open && forall k :: 0 <= k < |s.frames| ==> s.frames[k].TextFrame?
    ensures var r := ReactAll(s, calls);
      forall k :: 0 <= k < |r.frames| - 1 ==> r.frames[k].TextFrame?
    ensures var r := ReactAll(s, calls);
      r.state == CR.Open ==> forall k :: 0 <= k < |r.frames| ==> r.frames[k].TextFrame?
    decreases |calls|
  {
    if calls != [] {
      ErrorFrameLast(s, DropLast(calls));
      var p := ReactAll(s, DropLast(calls));
      if p.state != CR.Open {
        assert React(p, Last(calls)) == p;
      }
    }
  }

  // ---------------------------------------------------------------------
  // the handler

  const ApiKeyVar: string := "DASHSCOPE_API_KEY"
  const AppIdVar: string := "DASHSCOPE_APP_ID"
  const MissingPrompt: string := "缺少必要的 prompt 参数"
  const InternalError: string := "服务器内部错误"

  /** The streaming part of `POST`: the service is asked the prompt and
      its callbacks are relayed to a fresh writer. */
  method Stream(service: DS.Service, prompt: string, reply: DS.Reply, parse: Parser)
    returns (post: DS.Post, sink: Sink)
    ensures post == service.PostFor(prompt)
    ensures reply.Answered? && reply.status == 200 ==>
      sink == ReactAll(Sink([], CR.Open),
                       DS.StreamCallbacks(DS.StreamTexts(Concat(reply.chunks), parse)) + DS.SignalCallbacks(reply.signals))
    ensures reply.Answered? && reply.status != 200 ==> sink == Sink([ErrorFrame("请求失败")], CR.Closed)
    ensures reply.Threw? && reply.isError ==>
      sink == Sink([ErrorFrame(DS.ThrownError(reply.message, reply.responseStatus).message)], CR.Closed)
    ensures reply.Threw? && !reply.isError ==> sink == Sink([], CR.Open)
  {
    var writer := new RouteWriter();
    var calls;
    post, calls := DS.AskQuestion(service, prompt, reply, parse);
    writer.Receive(calls);
    sink := writer.Current();
    if !(reply.Answered? && reply.status == 200) && calls != [] {
      assert DropLast(calls) == [];
    }
  }

  /** `POST(request)`: both credentials are read before the body; a missing
      credential or a malformed body gives 500, a falsy prompt gives 400 with
      no service call. Otherwise the service (the shared instance) is asked
      the prompt, as it is, and its callbacks are relayed to the stream. */
  method Post(env: map<string, string>, body: CR.Body, registry: DS.Registry, reply: DS.Reply, parse: Parser)
    returns (response: CR.Response, post: Option<DS.Post>, sink: Sink)
    modifies registry
    ensures GetEnvVar(env, ApiKeyVar).Err? || GetEnvVar(env, AppIdVar).Err? || body.Malformed? ==>
      response == CR.JsonResponse(500, InternalError) && post.None?
    ensures GetEnvVar(env, ApiKeyVar).Ok? && GetEnvVar(env, AppIdVar).Ok? && body.Body? && !Truthy(body.prompt) ==>
      response == CR.JsonResponse(400, MissingPrompt) && post.None?
    ensures response.JsonResponse? ==> sink == Sink([], CR.Open) && registry.instance == old(registry.instance)
    ensures GetEnvVar(env, ApiKeyVar).Ok? && GetEnvVar(env, AppIdVar).Ok? && body.Body? && Truthy(body.prompt) ==>
      && response == CR.EventStreamResponse(CR.StreamHeaders)
      && post.Some? && post.value.body.input.prompt == body.prompt.value
      && registry.instance != null && post == Some(registry.instance.PostFor(body.prompt.value))
      && (old(registry.instance) != null ==> registry.instance == old(registry.instance))
      && (old(registry.instance) == null ==> post.value.authorization == "Bearer " + env[ApiKeyVar])
      && (reply.Answered? && reply.status == 200 ==>
            sink == ReactAll(Sink([], CR.Open),
                             DS.StreamCallbacks(DS.StreamTexts(Concat(reply.chunks), parse)) + DS.SignalCallbacks(reply.signals)))
      && (reply.Answered? && reply.status != 200 ==> sink == Sink([ErrorFrame("请求失败")], CR.Closed))
      && (reply.Threw? && reply.isError ==>
            sink == Sink([ErrorFrame(DS.ThrownError(reply.message, reply.responseStatus).message)], CR.Closed))
      && (reply.Threw? && !reply.isError ==> sink == Sink([], CR.Open))
  {
    post := None;
    sink := Sink([], CR.Open);
    var apiKey := GetEnvVar(env, ApiKeyVar);
    if apiKey.Err? {
      response := CR.JsonResponse(500, InternalError);
      return;
    }
    var appId := GetEnvVar(env, AppIdVar);
    if appId.Err? {
      response := CR.JsonResponse(500, InternalError);
      return;
    }
    if body.Malformed? {
      response := CR.JsonResponse(500, InternalError);
      return;
    }
    if !Truthy(body.prompt) {
      response := CR.JsonResponse(400, MissingPrompt);
      return;
    }
    var service := registry.GetInstance(DS.Config(apiKey.value, appId.value));
    var sent;
    sent, sink := Stream(service, body.prompt.value, reply, parse);
    post := Some(sent);
    response := CR.EventStreamResponse(CR.StreamHeaders);
  }
}
