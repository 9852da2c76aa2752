/** The line-delimited JSON decoder behind `streamChat`
    (src/services/chatApi.ts): a text buffer carried across reads, split on
    '\n', blank and unparseable lines dropped, one final flush at the end. */
module ChatApi {
  import opened ChatTypes
  import opened Lines

  /** `JSON.parse` applied to one line: a record, or None where it throws. */
  type Parser = string -> Option<StreamResponse>

  /** What a single line yields: nothing for a blank line or one that does
      not parse, otherwise its record. */
  function LineRecords(parse: Parser, line: string): (r: seq<StreamResponse>)
    ensures |r| <= 1
    ensures r != [] <==> !IsBlank(line) && parse(line).Some?
    ensures r != [] ==> r[0] == parse(line).value
  {
    if IsBlank(line) then []
    else match parse(line)
      case None => []
      case Some(rec) => [rec]
  }

  /** The records a run of lines yields, line by line, in order. */
  function Records(parse: Parser, lines: seq<string>): (r: seq<StreamResponse>)
    ensures |r| <= |lines|
    decreases |lines|
  {
    if lines == [] then []
    else Records(parse, lines[..|lines| - 1]) + LineRecords(parse, lines[|lines| - 1])
  }

  /** Everything a stream carrying `text` yields when it ends normally: the
      records of all newline-separated pieces, the last one included. */
  function Decode(parse: Parser, text: string): seq<StreamResponse> {
    Records(parse, Split(text))
  }

  /** The text of a sequence of reads, in order. */
  function Concat(chunks: seq<string>): string
    decreases |chunks|
  {
    if chunks == [] then [] else Concat(chunks[..|chunks| - 1]) + chunks[|chunks| - 1]
  }

  /** Records of consecutive runs of lines are the concatenation of their records. */
  lemma {:induction false} RecordsAppend(parse: Parser, a: seq<string>, b: seq<string>)
    ensures Records(parse, a + b) == Records(parse, a) + Records(parse, b)
    decreases |b|
  {
    if b == [] {
      assert a + b == a;
    } else {
      var b', last := b[..|b| - 1], LineRecords(parse, b[|b| - 1]);
      assert (a + b)[..|a + b| - 1] == a + b' && (a + b)[|a + b| - 1] == b[|b| - 1];
      assert Records(parse, a + b) == Records(parse, a + b') + last;
      RecordsAppend(parse, a, b');
      assert Records(parse, b) == Records(parse, b') + last;
      assert (Records(parse, a) + Records(parse, b')) + last == Records(parse, a) + (Records(parse, b') + last);
    }
  }

  /** One more line of a run adds that line's records. */
  lemma RecordsPrefix(parse: Parser, lines: seq<string>, i: nat)
    requires i < |lines|
    ensures Records(parse, lines[..i + 1]) == Records(parse, lines[..i]) + LineRecords(parse, lines[i])
  {
    assert lines[..i + 1][..i] == lines[..i];
  }

  /** A blank or unparseable line yields nothing and does not stop the
      lines after it from yielding theirs. */
  lemma RecordsSkipLine(parse: Parser, before: seq<string>, line: string, after: seq<string>)
    requires IsBlank(line) || parse(line).None?
    ensures Records(parse, before + [line] + after) == Records(parse, before) + Records(parse, after)
  {
    var withLine := before + [line];
    assert withLine[..|withLine| - 1] == before;
    assert Records(parse, withLine) == Records(parse, before);
    RecordsAppend(parse, withLine, after);
  }

  /** Reading one more chunk yields the records of the lines it completes,
      after those already yielded. */
  lemma RecordsFeed(parse: Parser, text: string, chunk: string)
    ensures Records(parse, Complete(Split(text + chunk)))
         == Records(parse, Complete(Split(text))) + Records(parse, Complete(Split(Partial(Split(text)) + chunk)))
  {
    SplitFeed(text, chunk);
    RecordsAppend(parse, Complete(Split(text)), Complete(Split(Partial(Split(text)) + chunk)));
  }

  /** The whole-text records are those of the complete lines, then the
      final flush of the unterminated piece. */
  lemma DecodeIsLinesThenFlush(parse: Parser, text: string)
    ensures Decode(parse, text)
         == Records(parse, Complete(Split(text))) + LineRecords(parse, Partial(Split(text)))
  {
  }

  /** The transport's body reader: the decoded chunks it delivers, and
      whether a read fails after the last of them instead of reporting the end. */
  datatype Reader = Reader(chunks: seq<string>, fails: bool)

  /** The answer to the chat request: the fetch itself fails, or a response
      arrives with its `ok` flag and, possibly, a body reader. */
  datatype Transport = NetworkFailure | Response(ok: bool, body: Option<Reader>)

  /** The records the generator yields before it ends, and whether it ends
      by throwing. */
  datatype StreamOutcome = StreamOutcome(records: seq<StreamResponse>, failed: bool)

  /** What `streamChat` yields for a transport, stated on the whole text.
      It ends without throwing only for an ok response with a body whose
      reads all succeed; a failed fetch, a non-ok status or a missing body
      yields nothing; and a read that fails loses exactly the final flush of
      the unterminated last piece, nothing before it. */
  function Yielded(parse: Parser, transport: Transport): (r: StreamOutcome)
    ensures !r.failed <==> transport.Response? && transport.ok && transport.body.Some? && !transport.body.value.fails
    ensures !(transport.Response? && transport.ok && transport.body.Some?) ==> r.records == []
    ensures transport.Response? && transport.ok && transport.body.Some? ==>
      var text := Concat(transport.body.value.chunks);
      r.records + (if transport.body.value.fails then LineRecords(parse, Partial(Split(text))) else [])
        == Decode(parse, text)
  {
    match transport
    case NetworkFailure => StreamOutcome([], true)
    case Response(ok, body) =>
      if !ok || body.None? then StreamOutcome([], true)
      else if body.value.fails then
        DecodeIsLinesThenFlush(parse, Concat(body.value.chunks));
        StreamOutcome(Records(parse, Complete(Split(Concat(body.value.chunks)))), true)
      else
        assert Decode(parse, Concat(body.value.chunks)) + [] == Decode(parse, Concat(body.value.chunks));
        StreamOutcome(Decode(parse, Concat(body.value.chunks)), false)
  }

  /** The `for (const line of lines)` loop over the complete lines of one
      read: each line yields its record, if any, in order. */
  method EachLine(parse: Parser, lines: seq<string>) returns (records: seq<StreamResponse>)
    ensures records == Records(parse, lines)
  {
    records := [];
    for i := 0 to |lines|
      invariant records == Records(parse, lines[..i])
    {
      var line := lines[i];
      RecordsPrefix(parse, lines, i);
      if !IsBlank(line) {
        match parse(line) {
          case Some(rec) => records := records + [rec];
          case None =>
        }
      }
    }
    assert lines[..|lines|] == lines;
  }

  /** The decoder state `streamChat` keeps between reads: the unterminated
      tail of what has been read so far. */
  class LineDecoder {
    const parse: Parser
    var buffer: string
    /** All text read so far. */
    ghost var consumed: string

    ghost predicate Valid()
      reads this
    {
      buffer == Partial(Split(consumed))
    }

    constructor (parse: Parser)
      ensures Valid() && this.parse == parse
      ensures consumed == [] && buffer == []
    {
      this.parse := parse;
      buffer := [];
      consumed := [];
    }

    /** One successful read: append the chunk, split on '\n', keep the last
        piece as the buffer and yield the records of the others. */
    method Feed(chunk: string) returns (records: seq<StreamResponse>)
      requires Valid()
      modifies this
      ensures Valid()
      ensures consumed == old(consumed) + chunk
      ensures '\n' !in buffer
      ensures buffer == Partial(Split(old(buffer) + chunk))
      ensures records == Records(parse, Complete(Split(old(buffer) + chunk)))
    {
      var lines := Split(buffer + chunk);
      SplitPieces(buffer + chunk);
      SplitFeed(consumed, chunk);
      buffer := lines[|lines| - 1];
      consumed := consumed + chunk;
      records := EachLine(parse, lines[..|lines| - 1]);
    }

    /** The end-of-stream flush: the buffer yields at most one record, and
        only when it is not blank and parses. */
    method Finish() returns (records: seq<StreamResponse>)
      requires Valid()
      ensures |records| <= 1
      ensures records == LineRecords(parse, buffer)
    {
      records := [];
      if !IsBlank(buffer) {
        match parse(buffer) {
          case Some(rec) => records := [rec];
          case None =>
        }
      }
    }
  }

  /** The read loop: feed every chunk to the decoder in order, yielding the
      records of each line as soon as a newline completes it. */
  method ReadChunks(decoder: LineDecoder, chunks: seq<string>) returns (yielded: seq<StreamResponse>)
    requires decoder.Valid() && decoder.consumed == []
    modifies decoder
    ensures decoder.Valid() && decoder.consumed == Concat(chunks)
    ensures yielded == Records(decoder.parse, Complete(Split(Concat(chunks))))
  {
    yielded := [];
    for i := 0 to |chunks|
      invariant decoder.Valid()
      invariant decoder.consumed == Concat(chunks[..i])
      invariant yielded == Records(decoder.parse, Complete(Split(decoder.consumed)))
    {
      ghost var before := decoder.consumed;
      var records := decoder.Feed(chunks[i]);
      RecordsFeed(decoder.parse, before, chunks[i]);
      yielded := yielded + records;
      assert chunks[..i + 1][..i] == chunks[..i];
    }
    assert chunks[..|chunks|] == chunks;
  }

  /** `streamChat`: every record yielded before the generator ends, and
      whether it ends by throwing. Records depend on the reads only through
      their concatenated text, whatever the chunk boundaries. */
  method StreamChat(parse: Parser, transport: Transport) returns (outcome: StreamOutcome)
    ensures transport.NetworkFailure? ==> outcome == StreamOutcome([], true)
    ensures transport.Response? && (!transport.ok || transport.body.None?)
      ==> outcome == StreamOutcome([], true)
    ensures transport.Response? && transport.ok && transport.body.Some? && !transport.body.value.fails
      ==> outcome == StreamOutcome(Decode(parse, Concat(transport.body.value.chunks)), false)
    ensures transport.Response? && transport.ok && transport.body.Some? && transport.body.value.fails
      ==> outcome.failed && outcome.records == Records(parse, Complete(Split(Concat(transport.body.value.chunks))))
    ensures outcome == Yielded(parse, transport)
  {
    if transport.NetworkFailure? || !transport.ok || transport.body.None? {
      return StreamOutcome([], true);
    }
    var chunks := transport.body.value.chunks;
    var decoder := new LineDecoder(parse);
    var yielded := ReadChunks(decoder, chunks);
    ghost var text := Concat(chunks);
    assert yielded == Records(parse, Complete(Split(text)));
    if transport.body.value.fails {
      outcome := StreamOutcome(yielded, true);
      assert outcome == Yielded(parse, transport);
      return;
    }
    var last := decoder.Finish();
    DecodeIsLinesThenFlush(parse, text);
    outcome := StreamOutcome(yielded + last, false);
    assert outcome.records == Decode(parse, text);
    assert outcome == Yielded(parse, transport);
  }
}
