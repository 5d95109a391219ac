/** How the browser pages read the relay's response body: every chunk is
    split into lines on its own (no buffer is carried between chunks), a
    line is read only when it carries the expected prefix, and the JSON
    after the prefix is parsed into the frame's truthy fields. */
module ClientStream {
  import opened Text
  import opened EventStream

  /** Who wrote a message. */
  datatype Role = User | Assistant

  /** How the request ends: `fetch` throws (an `Error` or not), the status
      is not ok, there is no body, or the body yields these chunks and then
      either ends or fails while being read. */
  datatype Fetch =
    | Rejected(isError: bool, message: string)
    | NotOk
    | NoBody
    | Body(chunks: seq<string>, broken: bool)

  /** The prefix the test pages look for, space included. */
  const SpacedPrefix: string := "data: "

  /** The frame of a line as the test pages read it: `line.startsWith('data: ')`
      and then `JSON.parse(line.slice(5))`, the space left in. */
  function SpacedFrame(line: string, parse: FrameParser): (r: Option<ClientFrame>)
    ensures r.Some? ==> StartsWith(line, SpacedPrefix)
  {
    if StartsWith(line, SpacedPrefix) then parse(line[5..]) else None
  }

  /** The frame of a line as the chat hooks read it: `line.startsWith('data:')`
      and then `JSON.parse(line.slice(5).trim())`. */
  function TrimmedFrame(line: string, parse: FrameParser): (r: Option<ClientFrame>)
    ensures r.Some? ==> StartsWith(line, DataPrefix)
  {
    if StartsWith(line, DataPrefix) then parse(Trim(line[5..])) else None
  }

  /** The truthy `text` of a frame. */
  function FrameText(frame: Option<ClientFrame>): (r: Option<string>)
    ensures r.Some? ==> r.value != ""
  {
    if frame.Some? && Truthy(frame.value.text) then frame.value.text else None
  }

  /** The lines of every chunk, chunk after chunk: each chunk is split on
      its own. */
  function ChunkLines(chunks: seq<string>): (r: seq<string>)
    ensures |r| >= |chunks|
    decreases |chunks|
  {
    if chunks == [] then [] else ChunkLines(DropLast(chunks)) + Lines(Last(chunks))
  }

  lemma ChunkLinesStep(chunks: seq<string>, i: nat)
    requires i < |chunks|
    ensures ChunkLines(chunks[..i + 1]) == ChunkLines(chunks[..i]) + Lines(chunks[i])
  {
    assert DropLast(chunks[..i + 1]) == chunks[..i];
  }

  lemma {:induction false} ChunkLinesAppend(a: seq<string>, b: seq<string>)
    ensures ChunkLines(a + b) == ChunkLines(a) + ChunkLines(b)
    decreases |b|
  {
    if b == [] {
      assert a + b == a;
    } else {
      ChunkLinesAppend(a, DropLast(b));
      assert DropLast(a + b) == a + DropLast(b);
      assert Last(a + b) == Last(b);
    }
  }

  /** What a page accumulates: the present results of `f` over the lines,
      concatenated in order. */
  function Accumulated(lines: seq<string>, f: string -> Option<string>): string {
    Concat(Collect(lines, f))
  }

  /** Accumulating over two runs of lines is accumulating over each in turn. */
  lemma AccumulatedAppend(a: seq<string>, b: seq<string>, f: string -> Option<string>)
    ensures Accumulated(a + b, f) == Accumulated(a, f) + Accumulated(b, f)
  {
    CollectAppend(a, b, f);
    ConcatSplice(Collect(a, f), Collect(b, f));
  }

  /** One step of a loop that appends the present result of `f` on each
      line. */
  lemma AccumulatedStep(lines: seq<string>, j: nat, f: string -> Option<string>)
    requires j < |lines|
    ensures Accumulated(lines[..j + 1], f)
         == Accumulated(lines[..j], f) + (if f(lines[j]).Some? then f(lines[j]).value else "")
  {
    CollectStep(lines, j, f);
    if f(lines[j]).Some? {
      ConcatAppend(Collect(lines[..j], f), f(lines[j]).value);
    } else {
      assert Collect(lines[..j + 1], f) == Collect(lines[..j], f);
    }
  }
}
