/** The event-stream text format shared by the upstream completion API, the
    relay routes and the browser pages: blocks separated by a blank line
    (`"\n\n"`), lines separated by `"\n"`, payload lines prefixed `data:`.
    This is the LF-only subset of the event-stream format of section 9.2
    (Server-sent events) of the WHATWG HTML Living Standard, where each
    `data:` line is read as a JSON value of its own. */
module EventStream {
  import opened Text

  const EventSep: string := "\n\n"
  const LineSep: string := "\n"
  const DataPrefix: string := "data:"

  // ---------------------------------------------------------------------
  // payloads

  /** The `output` object of an upstream JSON payload. */
  datatype Output = Output(text: Option<string>, sessionId: Option<string>)

  /** An upstream JSON payload `{ output?: { text?, session_id? }, ... }`. */
  datatype Payload = Payload(output: Option<Output>)

  /** `JSON.parse` followed by the field access: `None` when the text is not
      JSON, and also when it is `null` (reading `.output` of `null` throws
      inside the same `try`). The parser itself is not modelled. */
  type Parser = string -> Option<Payload>

  /** `jsonData.output?.text` when it is truthy. */
  function TextOf(p: Payload): Option<string> {
    if p.output.Some? && Truthy(p.output.value.text) then p.output.value.text else None
  }

  /** `jsonData.output?.session_id` when it is truthy. */
  function SessionOf(p: Payload): Option<string> {
    if p.output.Some? && Truthy(p.output.value.sessionId) then p.output.value.sessionId else None
  }

  /** The payload of one line: `line.startsWith('data:')` and then
      `JSON.parse(line.slice(5).trim())`. */
  function LinePayload(line: string, parse: Parser): Option<Payload> {
    if StartsWith(line, DataPrefix) then parse(Trim(line[|DataPrefix|..])) else None
  }

  /** The non-empty `output.text` carried by one line, if any. */
  function LineText(line: string, parse: Parser): (r: Option<string>)
    ensures r.Some? ==> r.value != "" && StartsWith(line, DataPrefix)
  {
    var p := LinePayload(line, parse);
    if p.Some? then TextOf(p.value) else None
  }

  /** The non-empty `output.session_id` carried by one line, if any. */
  function LineSession(line: string, parse: Parser): (r: Option<string>)
    ensures r.Some? ==> r.value != "" && StartsWith(line, DataPrefix)
  {
    var p := LinePayload(line, parse);
    if p.Some? then SessionOf(p.value) else None
  }

  /** `text.split('\n')` */
  function Lines(text: string): (r: seq<string>)
    ensures |r| >= 1
  {
    Split(text, LineSep)
  }

  // ---------------------------------------------------------------------
  // reassembly of blocks

  /** The complete blocks of `s`: every piece of `s.split(/\n\n/)` but the
      last. */
  function CompleteEvents(s: string): seq<string> {
    DropLast(Split(s, EventSep))
  }

  /** The unfinished tail of `s`: what `events.pop()` takes off the split. */
  function Pending(s: string): string {
    Last(Split(s, EventSep))
  }

  /** Blocks written back in wire form, each followed by the blank line. */
  function Framed(events: seq<string>): string
    decreases |events|
  {
    if events == [] then "" else events[0] + EventSep + Framed(events[1..])
  }

  lemma {:induction false} JoinIsFramed(parts: seq<string>)
    requires |parts| >= 1
    ensures Join(parts, EventSep) == Framed(DropLast(parts)) + Last(parts)
    decreases |parts|
  {
    if |parts| > 1 {
      JoinIsFramed(parts[1..]);
      assert DropLast(parts) == [parts[0]] + DropLast(parts[1..]);
      assert DropLast(parts)[1..] == DropLast(parts[1..]);
    }
  }

  /** No text is lost or duplicated: the complete blocks, each followed by
      the blank line, and then the unfinished tail give back the input. */
  lemma Reassembly(s: string)
    ensures Framed(CompleteEvents(s)) + Pending(s) == s
  {
    SplitJoin(s, EventSep);
    JoinIsFramed(Split(s, EventSep));
  }

  /** The unfinished tail never holds a blank line: every complete block is
      handed on at once. */
  lemma PendingIsIncomplete(s: string)
    ensures !Contains(Pending(s), EventSep)
  {
    SplitPiecesFree(s, EventSep);
  }

  /** Carrying the tail: splitting the tail of `s` followed by `c` gives the
      blocks of `s + c` that `s` alone did not complete, and the same tail. */
  lemma CarryPending(s: string, c: string)
    ensures CompleteEvents(s) + CompleteEvents(Pending(s) + c) == CompleteEvents(s + c)
    ensures Pending(Pending(s) + c) == Pending(s + c)
  {
    var p := Split(s, EventSep);
    var q := Split(Pending(s) + c, EventSep);
    SplitAppend(s, c, EventSep);
    assert Split(s + c, EventSep) == DropLast(p) + q;
    assert DropLast(DropLast(p) + q) == DropLast(p) + DropLast(q);
  }

  // ---------------------------------------------------------------------
  // frames written by the relay routes and read by the browser pages

  /** A normalised frame `{text}` or `{error}`, written as
      `data: <JSON.stringify(frame)>\n\n`. */
  datatype Frame = TextFrame(text: string) | ErrorFrame(error: string)

  /** What a browser page reads out of one parsed frame: the truthy
      `text`, `error` and `sessionId` fields. */
  datatype ClientFrame = ClientFrame(text: Option<string>, error: Option<string>, sessionId: Option<string>)

  /** `JSON.parse` of a frame body on the browser side; `None` on a syntax
      error. The parser itself is not modelled. */
  type FrameParser = string -> Option<ClientFrame>
}
