/** The single-round test page (src/app/test/test_ai/page.tsx):
    `handleSend` appends the user's text, then an empty assistant message
    that the streamed texts are appended to, and records every session id
    in a cookie; `clearChat` forgets the messages and expires the cookie. */
module TestAiPage {
  import opened Text
  import opened EventStream
  import opened ClientStream

  datatype ChatMessage = ChatMessage(role: Role, content: string)

  const ErrorReply: string := "抱歉，发生了错误，请稍后重试。"
  const ExpiredSession: string := "dashscope_session_id=; path=/; expires=Thu, 01 Jan 1970 00:00:00 GMT"

  /** The cookie string written for a session id. */
  function SessionCookie(id: string): (c: string)
    ensures StartsWith(c, "dashscope_session_id=")
    ensures c == "dashscope_session_id=" + id + "; path=/"
  {
    "dashscope_session_id=" + id + "; path=/"
  }

  /** The text a line appends. */
  function LineTextOf(parse: FrameParser): string -> Option<string> {
    line => FrameText(SpacedFrame(line, parse))
  }

  /** The cookie string a line writes: one for a truthy `sessionId`. */
  function CookieWriteOf(parse: FrameParser): string -> Option<string> {
    line => var frame := SpacedFrame(line, parse);
      if frame.Some? && Truthy(frame.value.sessionId) then Some(SessionCookie(frame.value.sessionId.value)) else None
  }

  /** The messages after one text is appended: to the last message, only
      when it is the assistant's. */
  function AppendToLast(messages: seq<ChatMessage>, text: string): (r: seq<ChatMessage>)
    ensures |r| == |messages|
    ensures messages != [] && Last(messages).role == Assistant ==>
      r == DropLast(messages) + [Last(messages).(content := Last(messages).content + text)]
    ensures messages == [] || Last(messages).role != Assistant ==> r == messages
  {
    if messages != [] && Last(messages).role == Assistant
    then DropLast(messages) + [Last(messages).(content := Last(messages).content + text)]
    else messages
  }

  lemma AppendToAssistant(prefix: seq<ChatMessage>, content: string, text: string)
    ensures AppendToLast(prefix + [ChatMessage(Assistant, content)], text)
         == prefix + [ChatMessage(Assistant, content + text)]
  {
    assert DropLast(prefix + [ChatMessage(Assistant, content)]) == prefix;
  }

  class Page {
    const parse: FrameParser
    var input: string
    var messages: seq<ChatMessage>
    var isLoading: bool
    /** The strings assigned to `document.cookie`, in order. */
    var cookieWrites: seq<string>

    constructor (parse: FrameParser)
      ensures this.parse == parse
      ensures input == "" && messages == [] && !isLoading && cookieWrites == []
    {
      this.parse := parse;
      input := "";
      messages := [];
      isLoading := false;
      cookieWrites := [];
    }

    /** `clearChat()` */
    method ClearChat()
      modifies this
      ensures messages == [] && cookieWrites == old(cookieWrites) + [ExpiredSession]
      ensures input == old(input) && isLoading == old(isLoading)
    {
      messages := [];
      cookieWrites := cookieWrites + [ExpiredSession];
    }

    /** The lines of one chunk: each text is appended to the last message
        when it is the assistant's, each session id is written to the
        cookie. */
    method ReadLines(lines: seq<string>, prefix: seq<ChatMessage>, content: string)
      returns (after: seq<ChatMessage>, writes: seq<string>)
      ensures after == prefix + [ChatMessage(Assistant, content + Accumulated(lines, LineTextOf(parse)))]
      ensures writes == Collect(lines, CookieWriteOf(parse))
    {
      after := prefix + [ChatMessage(Assistant, content)];
      writes := [];
      assert Accumulated(lines[..0], LineTextOf(parse)) == "" by {
        assert lines[..0] == [];
      }
      assert content + "" == content;
      var j := 0;
      while j < |lines|
        invariant 0 <= j <= |lines|
        invariant after == prefix + [ChatMessage(Assistant, content + Accumulated(lines[..j], LineTextOf(parse)))]
        invariant writes == Collect(lines[..j], CookieWriteOf(parse))
      {
        var text, write := ReadLine(lines[j]);
        AccumulatedStep(lines, j, LineTextOf(parse));
        CollectStep(lines, j, CookieWriteOf(parse));
        ghost var acc := Accumulated(lines[..j], LineTextOf(parse));
        if text.Some? {
          AppendToAssistant(prefix, content + acc, text.value);
          assert content + acc + text.value == content + (acc + text.value);
          after := AppendToLast(after, text.value);
        } else {
          assert acc + "" == acc;
        }
        if write.Some? {
          writes := writes + [write.value];
        }
        j := j + 1;
      }
      assert lines[..|lines|] == lines;
    }

    /** One line: its truthy `text` and the cookie string for its truthy
        `sessionId`; a line that does not parse gives neither. */
    method ReadLine(line: string) returns (text: Option<string>, write: Option<string>)
      ensures text == LineTextOf(parse)(line) && write == CookieWriteOf(parse)(line)
    {
      text := None;
      write := None;
      if StartsWith(line, SpacedPrefix) {
        var data := parse(line[5..]);
        if data.Some? {
          if Truthy(data.value.text) {
            text := data.value.text;
          }
          if Truthy(data.value.sessionId) {
            write := Some(SessionCookie(data.value.sessionId.value));
          }
        }
      }
    }

    /** The read loop over the body, after the placeholder. */
    method ReadBody(chunks: seq<string>, prefix: seq<ChatMessage>) returns (after: seq<ChatMessage>, writes: seq<string>)
      ensures after == prefix + [ChatMessage(Assistant, Accumulated(ChunkLines(chunks), LineTextOf(parse)))]
      ensures writes == Collect(ChunkLines(chunks), CookieWriteOf(parse))
    {
      after := prefix + [ChatMessage(Assistant, "")];
      writes := [];
      var i := 0;
      while i < |chunks|
        invariant 0 <= i <= |chunks|
        invariant after == prefix + [ChatMessage(Assistant, Accumulated(ChunkLines(chunks[..i]), LineTextOf(parse)))]
        invariant writes == Collect(ChunkLines(chunks[..i]), CookieWriteOf(parse))
      {
        var lines := Lines(chunks[i]);
        var more;
        after, more := ReadLines(lines, prefix, Accumulated(ChunkLines(chunks[..i]), LineTextOf(parse)));
        ChunkLinesStep(chunks, i);
        AccumulatedAppend(ChunkLines(chunks[..i]), lines, LineTextOf(parse));
        CollectAppend(ChunkLines(chunks[..i]), lines, CookieWriteOf(parse));
        writes := writes + more;
        i := i + 1;
      }
      assert chunks[..|chunks|] == chunks;
    }

    /** `handleSend(text)`: nothing while a send is in progress or for a
        blank text. Otherwise the untrimmed text is appended as the user's
        message; an ok response with a body adds an empty assistant message
        that collects every streamed text, in order; a failure before the
        body or while reading it adds the error message. Loading ends in
        every case. */
    method HandleSend(text: string, fetch: Fetch) returns (prompt: Option<string>)
      modifies this
      ensures Trim(text) == "" || old(isLoading) ==>
        prompt.None? && input == old(input) && messages == old(messages) && isLoading == old(isLoading)
        && cookieWrites == old(cookieWrites)
      ensures Trim(text) != "" && !old(isLoading) ==> prompt == Some(text) && input == "" && !isLoading
      ensures Trim(text) != "" && !old(isLoading) && !fetch.Body? ==>
        messages == old(messages) + [ChatMessage(User, text), ChatMessage(Assistant, ErrorReply)]
        && cookieWrites == old(cookieWrites)
      ensures Trim(text) != "" && !old(isLoading) && fetch.Body? ==>
        && messages == old(messages) + [ChatMessage(User, text),
                                        ChatMessage(Assistant, Accumulated(ChunkLines(fetch.chunks), LineTextOf(parse)))]
                                     + (if fetch.broken then [ChatMessage(Assistant, ErrorReply)] else [])
        && cookieWrites == old(cookieWrites) + Collect(ChunkLines(fetch.chunks), CookieWriteOf(parse))
    {
      prompt := None;
      if Trim(text) == "" || isLoading {
        return;
      }
      isLoading := true;
      input := "";
      prompt := Some(text);
      var msgs := messages + [ChatMessage(User, text)];
      var writes: seq<string> := [];
      if fetch.Body? {
        msgs, writes := ReadBody(fetch.chunks, msgs);
        if fetch.broken {
          msgs := msgs + [ChatMessage(Assistant, ErrorReply)];
        }
      } else {
        msgs := msgs + [ChatMessage(Assistant, ErrorReply)];
      }
      messages := msgs;
      cookieWrites := cookieWrites + writes;
      isLoading := false;
    }
  }

  /** Every cookie string the page writes while reading sets the session
      cookie. */
  lemma CookieWritesNameSession(chunks: seq<string>, parse: FrameParser)
    ensures forall w :: w in Collect(ChunkLines(chunks), CookieWriteOf(parse)) ==> StartsWith(w, "dashscope_session_id=")
  {
    CollectSound(ChunkLines(chunks), CookieWriteOf(parse));
  }
}
