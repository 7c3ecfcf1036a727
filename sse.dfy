/**
 * The server-sent-event framing shared by the chat endpoint and its three
 * client readers. The server writes one `data: <json>\n\n` frame per
 * payload; a client splits each read on `\n`, keeps the lines that start
 * with `data: `, parses the rest of the line and appends the payload's
 * `content`. JSON encoding and parsing are not modelled: they are the
 * parameters `encode` and `parse`, the latter partial (`None` = throws).
 */
module Sse {
  import opened Wrappers
  import opened Strings

  /** The JSON object of one frame, restricted to the two keys a client reads. */
  datatype Payload = Payload(content: Option<string>, done: bool)

  function ContentPayload(text: string): Payload {
    Payload(Some(text), false)
  }

  const DonePayload := Payload(None, true)

  const DataPrefix := "data: "

  /** `data.content` when it is truthy; appending the empty string changes nothing, so "" stands for "no content". */
  function Delta(p: Payload): string {
    p.content.GetOr("")
  }

  /** Everything a list of payloads delivers, in order. */
  function StreamedText(frames: seq<Payload>): string {
    if frames == [] then "" else Delta(frames[0]) + StreamedText(frames[1..])
  }

  lemma {:induction false} StreamedTextConcat(a: seq<Payload>, b: seq<Payload>)
    ensures StreamedText(a + b) == StreamedText(a) + StreamedText(b)
  {
    if a != [] {
      assert (a + b)[1..] == a[1..] + b;
      StreamedTextConcat(a[1..], b);
    } else {
      assert a + b == b;
    }
  }

  // ---------------------------------------------------------------------
  // Server side: the bytes written

  /** res.write(`data: ${JSON.stringify(p)}\n\n`). */
  function FrameText(p: Payload, encode: Payload -> string): string {
    DataPrefix + encode(p) + "\n\n"
  }

  function WireText(frames: seq<Payload>, encode: Payload -> string): string {
    if frames == [] then "" else FrameText(frames[0], encode) + WireText(frames[1..], encode)
  }

  // ---------------------------------------------------------------------
  // Client side: what one line and one read contribute

  /**
   * The text one line adds to the accumulated answer. Lines without the
   * `data: ` prefix and payloads that do not parse add nothing; when
   * `skipBlank` holds (use-chat-session.ts), a blank payload is skipped
   * before parsing.
   */
  function LineDelta(line: string, parse: string -> Option<Payload>, skipBlank: bool): string {
    if !StartsWith(line, DataPrefix) then ""
    else
      var payload := line[|DataPrefix|..];
      if skipBlank && IsBlank(payload) then ""
      else match parse(payload)
        case None => ""
        case Some(p) => Delta(p)
  }

  function LinesText(lines: seq<string>, parse: string -> Option<Payload>, skipBlank: bool): string {
    if lines == [] then "" else LineDelta(lines[0], parse, skipBlank) + LinesText(lines[1..], parse, skipBlank)
  }

  /** One read: `chunk.split('\n')`, every line in order. */
  function ReadText(chunk: string, parse: string -> Option<Payload>, skipBlank: bool): string {
    LinesText(Split(chunk, '\n'), parse, skipBlank)
  }

  function ReadsText(chunks: seq<string>, parse: string -> Option<Payload>, skipBlank: bool): string {
    if chunks == [] then "" else ReadText(chunks[0], parse, skipBlank) + ReadsText(chunks[1..], parse, skipBlank)
  }

  /** A line that is not a frame, or whose payload does not parse, does not stop the lines after it. */
  lemma {:induction false} LinesTextConcat(a: seq<string>, b: seq<string>, parse: string -> Option<Payload>, skipBlank: bool)
    ensures LinesText(a + b, parse, skipBlank) == LinesText(a, parse, skipBlank) + LinesText(b, parse, skipBlank)
  {
    if a != [] {
      assert (a + b)[1..] == a[1..] + b;
      LinesTextConcat(a[1..], b, parse, skipBlank);
    } else {
      assert a + b == b;
    }
  }

  lemma {:induction false} ReadsTextConcat(a: seq<string>, b: seq<string>, parse: string -> Option<Payload>, skipBlank: bool)
    ensures ReadsText(a + b, parse, skipBlank) == ReadsText(a, parse, skipBlank) + ReadsText(b, parse, skipBlank)
  {
    if a != [] {
      assert (a + b)[1..] == a[1..] + b;
      ReadsTextConcat(a[1..], b, parse, skipBlank);
    } else {
      assert a + b == b;
    }
  }

  lemma LinesTextSnoc(a: seq<string>, line: string, parse: string -> Option<Payload>, skipBlank: bool)
    ensures LinesText(a + [line], parse, skipBlank) == LinesText(a, parse, skipBlank) + LineDelta(line, parse, skipBlank)
  {
    LinesTextConcat(a, [line], parse, skipBlank);
    assert LinesText([line], parse, skipBlank) == LineDelta(line, parse, skipBlank) + LinesText([], parse, skipBlank);
  }

  lemma ReadsTextSnoc(a: seq<string>, chunk: string, parse: string -> Option<Payload>, skipBlank: bool)
    ensures ReadsText(a + [chunk], parse, skipBlank) == ReadsText(a, parse, skipBlank) + ReadText(chunk, parse, skipBlank)
  {
    ReadsTextConcat(a, [chunk], parse, skipBlank);
    assert ReadsText([chunk], parse, skipBlank) == ReadText(chunk, parse, skipBlank) + ReadsText([], parse, skipBlank);
  }

  /** Reading one more line of a list extends the text of the lines before it. */
  lemma LinesTextPrefix(lines: seq<string>, j: nat, parse: string -> Option<Payload>, skipBlank: bool)
    requires j < |lines|
    ensures LinesText(lines[..j + 1], parse, skipBlank) == LinesText(lines[..j], parse, skipBlank) + LineDelta(lines[j], parse, skipBlank)
  {
    assert lines[..j + 1] == lines[..j] + [lines[j]];
    LinesTextSnoc(lines[..j], lines[j], parse, skipBlank);
  }

  /** Handling one more read extends the text of the reads before it. */
  lemma ReadsTextPrefix(chunks: seq<string>, i: nat, parse: string -> Option<Payload>, skipBlank: bool)
    requires i < |chunks|
    ensures ReadsText(chunks[..i + 1], parse, skipBlank) == ReadsText(chunks[..i], parse, skipBlank) + ReadText(chunks[i], parse, skipBlank)
  {
    assert chunks[..i + 1] == chunks[..i] + [chunks[i]];
    ReadsTextSnoc(chunks[..i], chunks[i], parse, skipBlank);
  }

  /** A `done` frame adds nothing to the text. */
  lemma DoneAddsNothing(line: string, parse: string -> Option<Payload>, skipBlank: bool)
    requires StartsWith(line, DataPrefix) && parse(line[|DataPrefix|..]) == Some(DonePayload)
    ensures LineDelta(line, parse, skipBlank) == ""
  {
  }

  // ---------------------------------------------------------------------
  // Server output read back by a client

  /** What JSON.stringify and JSON.parse guarantee each other for a payload object. */
  ghost predicate IsCodec(encode: Payload -> string, parse: string -> Option<Payload>) {
    forall p :: parse(encode(p)) == Some(p) && encode(p) != [] && !IsSpace(encode(p)[0])
      && (forall i :: 0 <= i < |encode(p)| ==> encode(p)[i] != '\n')
  }

  /** Splitting after a newline-free prefix and a separator. */
  lemma {:induction false} SplitAfterLine(x: string, y: string, sep: char)
    requires forall i :: 0 <= i < |x| ==> x[i] != sep
    ensures Split(x + [sep] + y, sep) == [x] + Split(y, sep)
  {
    if x == [] {
      assert x + [sep] + y == [sep] + y;
      assert ([sep] + y)[1..] == y;
    } else {
      assert (x + [sep] + y)[1..] == x[1..] + [sep] + y;
      SplitAfterLine(x[1..], y, sep);
      assert [x[0]] + x[1..] == x;
    }
  }

  /** One frame is the line `data: <json>`, then an empty line, then whatever follows. */
  lemma FrameLines(p: Payload, rest: string, encode: Payload -> string, parse: string -> Option<Payload>, skipBlank: bool)
    requires IsCodec(encode, parse)
    ensures ReadText(FrameText(p, encode) + rest, parse, skipBlank) == Delta(p) + ReadText(rest, parse, skipBlank)
  {
    var line := DataPrefix + encode(p);
    var tail := Split(rest, '\n');
    assert Split(FrameText(p, encode) + rest, '\n') == [line] + ([[]] + tail) by {
      forall i | 0 <= i < |line| ensures line[i] != '\n' {
        if i >= |DataPrefix| { assert line[i] == encode(p)[i - |DataPrefix|]; }
      }
      assert FrameText(p, encode) + rest == line + ['\n'] + ([] + ['\n'] + rest);
      SplitAfterLine(line, [] + ['\n'] + rest, '\n');
      SplitAfterLine([], rest, '\n');
    }
    assert LineDelta(line, parse, skipBlank) == Delta(p) by {
      assert line[|DataPrefix|..] == encode(p);
      assert StartsWith(line, DataPrefix);
      assert !IsBlank(encode(p));
    }
    assert LinesText([[]] + tail, parse, skipBlank) == LinesText(tail, parse, skipBlank) by {
      assert ([[]] + tail)[1..] == tail;
      assert LineDelta([], parse, skipBlank) == "";
    }
    assert ([line] + ([[]] + tail))[1..] == [[]] + tail;
  }

  /**
   * A client that receives the server's frames in one read accumulates
   * exactly the text the frames carry.
   */
  lemma {:induction false} WireRoundTrip(frames: seq<Payload>, encode: Payload -> string, parse: string -> Option<Payload>, skipBlank: bool)
    requires IsCodec(encode, parse)
    ensures ReadText(WireText(frames, encode), parse, skipBlank) == StreamedText(frames)
  {
    if frames == [] {
      assert Split("", '\n') == [[]];
      assert LinesText([[]], parse, skipBlank) == LineDelta([], parse, skipBlank) + LinesText([], parse, skipBlank);
    } else {
      WireRoundTrip(frames[1..], encode, parse, skipBlank);
      FrameLines(frames[0], WireText(frames[1..], encode), encode, parse, skipBlank);
    }
  }

  /** The same holds when every frame arrives in a read of its own. */
  lemma {:induction false} FramePerReadRoundTrip(frames: seq<Payload>, encode: Payload -> string, parse: string -> Option<Payload>, skipBlank: bool)
    requires IsCodec(encode, parse)
    ensures ReadsText(seq(|frames|, i requires 0 <= i < |frames| => FrameText(frames[i], encode)), parse, skipBlank)
      == StreamedText(frames)
  {
    var chunks := seq(|frames|, i requires 0 <= i < |frames| => FrameText(frames[i], encode));
    if frames != [] {
      FramePerReadRoundTrip(frames[1..], encode, parse, skipBlank);
      assert chunks[1..] == seq(|frames[1..]|, i requires 0 <= i < |frames[1..]| => FrameText(frames[1..][i], encode));
      FrameLines(frames[0], "", encode, parse, skipBlank);
      WireRoundTrip([], encode, parse, skipBlank);
      assert chunks[0] == FrameText(frames[0], encode) + "";
      assert ReadText(chunks[0], parse, skipBlank) == Delta(frames[0]);
      assert ReadsText(chunks, parse, skipBlank) == ReadText(chunks[0], parse, skipBlank) + ReadsText(chunks[1..], parse, skipBlank);
    }
  }
}
