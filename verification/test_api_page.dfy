/** The multi-round test page (src/app/test-api/page.tsx): `handleSubmit`
    sends the trimmed prompt and the history, reads the relay's frames,
    accumulates the texts into one reply and appends it to the history;
    `clearConversation` forgets everything. */
module TestApiPage {
  import opened Text
  import opened EventStream
  import opened ClientStream

  /** A history entry; ids and timestamps are supplied by the caller. */
  datatype Message = Message(id: string, role: Role, content: string, timestamp: int)

  /** The body of the request: the prompt and the history as it was before
      the new user message. */
  datatype Request = Request(prompt: string, history: seq<Message>)

  /** The `text` a line adds to the reply: frames with a truthy `error`
      add nothing. */
  function ReplyText(line: string, parse: FrameParser): (r: Option<string>)
    ensures r.Some? ==> r.value != "" && StartsWith(line, SpacedPrefix)
    ensures r.Some? ==> ReplyError(line, parse).None?
  {
    var frame := SpacedFrame(line, parse);
    if frame.Some? && Truthy(frame.value.error) then None else FrameText(frame)
  }

  /** The `error` a line reports. */
  function ReplyError(line: string, parse: FrameParser): (r: Option<string>)
    ensures r.Some? ==> r.value != "" && StartsWith(line, SpacedPrefix)
  {
    var frame := SpacedFrame(line, parse);
    if frame.Some? && Truthy(frame.value.error) then frame.value.error else None
  }

  function ReplyTextOf(parse: FrameParser): string -> Option<string> {
    line => ReplyText(line, parse)
  }

  function ReplyErrorOf(parse: FrameParser): string -> Option<string> {
    line => ReplyError(line, parse)
  }

  /** The reply accumulated from the chunks: every `text`, in order. */
  function Reply(chunks: seq<string>, parse: FrameParser): string {
    Accumulated(ChunkLines(chunks), ReplyTextOf(parse))
  }

  /** The error shown after the chunks: the last reported one. */
  function StreamError(chunks: seq<string>, parse: FrameParser): Option<string> {
    LastOf(ChunkLines(chunks), ReplyErrorOf(parse))
  }

  /** The reply does not depend on where the body is cut into chunks
      between lines: it is the reply of the first chunks followed by that
      of the rest. */
  lemma ReplyComposes(c1: seq<string>, c2: seq<string>, parse: FrameParser)
    ensures Reply(c1 + c2, parse) == Reply(c1, parse) + Reply(c2, parse)
  {
    ChunkLinesAppend(c1, c2);
    AccumulatedAppend(ChunkLines(c1), ChunkLines(c2), ReplyTextOf(parse));
  }

  /** The error of a later chunk hides an earlier one. */
  lemma LaterErrorWins(c1: seq<string>, c2: seq<string>, parse: FrameParser)
    ensures StreamError(c1 + c2, parse)
         == if StreamError(c2, parse).Some? then StreamError(c2, parse) else StreamError(c1, parse)
  {
    ChunkLinesAppend(c1, c2);
    LastOfAppend(ChunkLines(c1), ChunkLines(c2), ReplyErrorOf(parse));
  }

  /** The page's state. */
  class Page {
    const parse: FrameParser
    var prompt: string
    var messages: seq<Message>
    var currentResponse: string
    var isLoading: bool
    var error: Option<string>

    constructor (parse: FrameParser)
      ensures this.parse == parse
      ensures prompt == "" && messages == [] && currentResponse == "" && !isLoading && error.None?
    {
      this.parse := parse;
      prompt := "";
      messages := [];
      currentResponse := "";
      isLoading := false;
      error := None;
    }

    /** `clearConversation()` */
    method ClearConversation()
      modifies this
      ensures messages == [] && currentResponse == "" && error.None?
      ensures prompt == old(prompt) && isLoading == old(isLoading)
    {
      messages := [];
      currentResponse := "";
      error := None;
    }

    /** The read loop: the reply accumulated over the chunks and the last
        error reported. */
    method ReadBody(chunks: seq<string>) returns (content: string, err: Option<string>)
      ensures content == Reply(chunks, parse)
      ensures err == StreamError(chunks, parse)
    {
      content := "";
      err := None;
      var i := 0;
      while i < |chunks|
        invariant 0 <= i <= |chunks|
        invariant content == Reply(chunks[..i], parse)
        invariant err == StreamError(chunks[..i], parse)
      {
        var more, reported := ReadChunk(chunks[i]);
        ChunkLinesStep(chunks, i);
        AccumulatedAppend(ChunkLines(chunks[..i]), Lines(chunks[i]), ReplyTextOf(parse));
        LastOfAppend(ChunkLines(chunks[..i]), Lines(chunks[i]), ReplyErrorOf(parse));
        content := content + more;
        if reported.Some? {
          err := reported;
        }
        i := i + 1;
      }
      assert chunks[..|chunks|] == chunks;
    }

    /** One chunk: its lines, in order. */
    method ReadChunk(chunk: string) returns (more: string, reported: Option<string>)
      ensures more == Accumulated(Lines(chunk), ReplyTextOf(parse))
      ensures reported == LastOf(Lines(chunk), ReplyErrorOf(parse))
    {
      var lines := Lines(chunk);
      more := "";
      reported := None;
      var j := 0;
      while j < |lines|
        invariant 0 <= j <= |lines|
        invariant more == Accumulated(lines[..j], ReplyTextOf(parse))
        invariant reported == LastOf(lines[..j], ReplyErrorOf(parse))
      {
        var line := lines[j];
        AccumulatedStep(lines, j, ReplyTextOf(parse));
        LastOfStep(lines, j, ReplyErrorOf(parse));
        if StartsWith(line, SpacedPrefix) {
          var data := parse(line[5..]);
          if data.Some? {
            if Truthy(data.value.error) {
              reported := data.value.error;
            } else if Truthy(data.value.text) {
              more := more + data.value.text.value;
            }
          }
        }
        j := j + 1;
      }
      assert lines[..|lines|] == lines;
    }

    /** `handleSubmit()`, with the ids and times of the two possible new
        messages supplied. A blank prompt changes nothing. Otherwise the
        trimmed prompt is appended as a user message and sent with the
        earlier history; a reply that is read to the end is appended as one
        assistant message when it is not empty; every failure sets its own
        error; loading ends in every case. */
    method HandleSubmit(fetch: Fetch, userId: string, userTime: int, replyId: string, replyTime: int)
      returns (request: Option<Request>)
      modifies this
      ensures Trim(old(prompt)) == "" ==>
        request.None? && prompt == old(prompt) && messages == old(messages) && currentResponse == old(currentResponse)
        && isLoading == old(isLoading) && error == old(error)
      ensures Trim(old(prompt)) != "" ==>
        && request == Some(Request(Trim(old(prompt)), old(messages)))
        && prompt == "" && !isLoading
      ensures Trim(old(prompt)) != "" && !fetch.Body? ==>
        && messages == old(messages) + [Message(userId, User, Trim(old(prompt)), userTime)]
        && currentResponse == ""
        && error == Some(match fetch
                         case Rejected(isError, m) => if isError then m else "未知错误"
                         case NotOk => "API请求失败"
                         case _ => "无法读取响应流")
      ensures Trim(old(prompt)) != "" && fetch.Body? && fetch.broken ==>
        && messages == old(messages) + [Message(userId, User, Trim(old(prompt)), userTime)]
        && currentResponse == Reply(fetch.chunks, parse)
        && error == Some("响应流处理失败")
      ensures Trim(old(prompt)) != "" && fetch.Body? && !fetch.broken ==>
        && messages == old(messages) + [Message(userId, User, Trim(old(prompt)), userTime)]
                       + (var reply := Reply(fetch.chunks, parse);
                          if reply != "" then [Message(replyId, Assistant, reply, replyTime)] else [])
        && currentResponse == ""
        && error == StreamError(fetch.chunks, parse)
    {
      request := None;
      var content := Trim(prompt);
      if content == "" {
        return;
      }
      var history := messages;
      messages := messages + [Message(userId, User, content, userTime)];
      prompt := "";
      isLoading := true;
      error := None;
      currentResponse := "";
      request := Some(Request(content, history));
      match fetch {
        case Rejected(isError, m) =>
          error := Some(if isError then m else "未知错误");
        case NotOk =>
          error := Some("API请求失败");
        case NoBody =>
          error := Some("无法读取响应流");
        case Body(chunks, broken) =>
          var reply, reported := ReadBody(chunks);
          error := reported;
          currentResponse := reply;
          if broken {
            error := Some("响应流处理失败");
          } else if reply != "" {
            messages := messages + [Message(replyId, Assistant, reply, replyTime)];
            currentResponse := "";
          }
      }
      isLoading := false;
    }
  }
}
