/**
 The incremental parser of the Responses event stream: chunks of bytes arrive cut
 anywhere, lines are taken out of a buffer, `data:` lines collect an event, an empty
 line dispatches it.

 UTF-8, JSON, the white space of `trim_start` and the reading of a final response are
 parameters.
 */
module EventStream {
  import opened Options

  type Byte = x: int | 0 <= x < 256
  type Bytes = seq<Byte>
  type Payload = nat

  const NEWLINE: Byte := 10

  /** The fields of an event the stream looks at, where they are strings. */
  datatype Event = Event(kind: Option<string>, delta: Option<string>, response: Payload)

  datatype StreamChunk = DeltaText(text: string) | DeltaReasoning(text: string)

  datatype Result = Response(p: Payload) | Malformed | ApiError | Interrupted | EndedBeforeCompletion

  datatype Codec = Codec(
    utf8: Bytes -> Option<string>,
    json: string -> Option<Event>,
    space: char -> bool,
    parse: Payload -> Result)

  // ------------------------------------------------------------- one line

  function TrimLineEnd(s: string): string {
    if s != "" && (s[|s| - 1] == '\r' || s[|s| - 1] == '\n') then TrimLineEnd(s[..|s| - 1]) else s
  }

  function TrimStart(c: Codec, s: string): string {
    if s != "" && c.space(s[0]) then TrimStart(c, s[1..]) else s
  }

  /** What a line does: the data collected so far and the callbacks made, or the end. */
  datatype Reaction = Go(data: string, out: seq<StreamChunk>) | Stop(result: Result)

  function OnEvent(c: Codec, text: string): (r: Reaction)
    ensures r.Go? ==> r.data == ""
  {
    match c.json(text)
    case None => Stop(Malformed)
    case Some(event) =>
      if event.kind == Some("response.completed") || event.kind == Some("response.incomplete") then Stop(c.parse(event.response))
      else if event.kind == Some("response.failed") || event.kind == Some("error") then Stop(ApiError)
      else if event.kind == Some("response.output_text.delta") then
        if event.delta.None? then Stop(Malformed) else Go("", [DeltaText(event.delta.value)])
      else if event.kind == Some("response.reasoning_summary_text.delta") then
        if event.delta.None? then Stop(Malformed) else Go("", [DeltaReasoning(event.delta.value)])
      else Go("", [])
  }

  function OnLine(c: Codec, data: string, raw: Bytes): Reaction {
    if c.utf8(raw).None? then Stop(Malformed)
    else
      var line := TrimLineEnd(c.utf8(raw).value);
      if line == "" then (if data == "" then Go("", []) else OnEvent(c, data))
      else if "data:" <= line then
        Go(data + (if data == "" then "" else "\n") + TrimStart(c, line[5..]), [])
      else Go(data, [])
  }

  // --------------------------------------------------------- a whole buffer

  function FirstNewline(b: Bytes): (k: nat)
    ensures k <= |b| && NEWLINE !in b[..k] && (k < |b| ==> b[k] == NEWLINE)
  {
    if b == [] || b[0] == NEWLINE then 0
    else
      var k := FirstNewline(b[1..]) + 1;
      assert b[..k] == [b[0]] + b[1..][..k - 1];
      k
  }

  datatype Outcome =
    | Ended(out: seq<StreamChunk>, result: Result)
    | More(out: seq<StreamChunk>, data: string, rest: Bytes)

  function After(out: seq<StreamChunk>, o: Outcome): Outcome {
    match o
    case Ended(o1, result) => Ended(out + o1, result)
    case More(o1, data, rest) => More(out + o1, data, rest)
  }

  function Reacted(r: Reaction, rest: Outcome): Outcome {
    if r.Stop? then Ended([], r.result) else After(r.out, rest)
  }

  /** The reference: take the lines of the whole buffer one after the other. */
  function Feed(c: Codec, data: string, b: Bytes): Outcome
    decreases |b|
  {
    var k := FirstNewline(b);
    if k == |b| then More([], data, b)
    else
      match OnLine(c, data, b[..k + 1])
      case Stop(result) => Ended([], result)
      case Go(data', out) => After(out, Feed(c, data', b[k + 1..]))
  }

  function Flatten(chunks: seq<Bytes>): Bytes {
    if chunks == [] then [] else chunks[0] + Flatten(chunks[1..])
  }

  /** The stream's callbacks and result, as a function of all its bytes. */
  function Whole(c: Codec, b: Bytes, interrupted: bool): (r: (seq<StreamChunk>, Result)) {
    match Feed(c, "", b)
    case Ended(out, result) => (out, result)
    case More(out, _, _) => (out, if interrupted then Interrupted else EndedBeforeCompletion)
  }

  /** An outcome carried on with more bytes. */
  function Resumed(c: Codec, o: Outcome, b: Bytes): Outcome {
    if o.Ended? then o else After(o.out, Feed(c, o.data, o.rest + b))
  }

  /** Feeding a buffer in two parts is feeding it at once. */
  lemma {:induction false} FeedAppend(c: Codec, data: string, a: Bytes, b: Bytes)
    ensures Feed(c, data, a + b)
         == Resumed(c, Feed(c, data, a), b)
    decreases |a|
  {
    var k := FirstNewline(a);
    if k < |a| {
      FirstNewlineAppend(a, b);
      FeedNextLine(c, data, a);
      FeedNextLine(c, data, a + b);
      assert (a + b)[..k + 1] == a[..k + 1];
      assert (a + b)[k + 1..] == a[k + 1..] + b;
      var line := OnLine(c, data, a[..k + 1]);
      var next := if line.Go? then line.data else "";
      FeedAppend(c, next, a[k + 1..], b);
      ReactedResumed(c, line, Feed(c, next, a[k + 1..]), b);
    } else {
      AfterNothing(Feed(c, data, a + b));
    }
  }

  lemma ReactedResumed(c: Codec, r: Reaction, o: Outcome, b: Bytes)
    ensures Reacted(r, Resumed(c, o, b)) == Resumed(c, Reacted(r, o), b)
  {
    if r.Go? {
      AfterTwice(c, r.out, o, b);
    }
  }

  lemma AfterNothing(o: Outcome)
    ensures After([], o) == o
  {
  }

  lemma AfterTwice(c: Codec, out: seq<StreamChunk>, o: Outcome, b: Bytes)
    ensures After(out, Resumed(c, o, b)) == Resumed(c, After(out, o), b)
  {
  }

  lemma {:induction false} FirstNewlineAppend(a: Bytes, b: Bytes)
    requires FirstNewline(a) < |a|
    ensures FirstNewline(a + b) == FirstNewline(a)
  {
    if a[0] != NEWLINE {
      assert (a + b)[1..] == a[1..] + b;
      FirstNewlineAppend(a[1..], b);
    }
  }

  lemma {:induction false} FlattenAppend(chunks: seq<Bytes>, chunk: Bytes)
    ensures Flatten(chunks + [chunk]) == Flatten(chunks) + chunk
  {
    if chunks != [] {
      FlattenAppend(chunks[1..], chunk);
      assert (chunks + [chunk])[1..] == chunks[1..] + [chunk];
    }
  }

  // ------------------------------------------------------------- the streamer

  /** The lines of the buffer, taken out one at a time. */
  method DrainLines(c: Codec, data: string, bytes: Bytes) returns (o: Outcome)
    ensures o == Feed(c, data, bytes)
  {
    var d, rest, out := data, bytes, [];
    AfterNothing(Feed(c, data, bytes));
    while FirstNewline(rest) < |rest|
      invariant Feed(c, data, bytes) == After(out, Feed(c, d, rest))
      decreases |rest|
    {
      var end := FirstNewline(rest);
      var line := OnLine(c, d, rest[..end + 1]);
      FeedNextLine(c, d, rest);
      if line.Stop? {
        return Ended(out, line.result);
      }
      AfterAfter(out, line.out, Feed(c, line.data, rest[end + 1..]));
      d, out, rest := line.data, out + line.out, rest[end + 1..];
    }
    return More(out, d, rest);
  }

  lemma FeedNextLine(c: Codec, data: string, b: Bytes)
    requires FirstNewline(b) < |b|
    ensures var k := FirstNewline(b);
            var r := OnLine(c, data, b[..k + 1]);
            Feed(c, data, b) == Reacted(r, Feed(c, if r.Go? then r.data else "", b[k + 1..]))
  {
  }

  lemma AfterAfter(a: seq<StreamChunk>, b: seq<StreamChunk>, o: Outcome)
    ensures After(a, After(b, o)) == After(a + b, o)
  {
  }

  lemma FeedChunk(c: Codec, chunks: seq<Bytes>, i: nat)
    requires i < |chunks|
    ensures Feed(c, "", Flatten(chunks[..i + 1])) == Resumed(c, Feed(c, "", Flatten(chunks[..i])), chunks[i])
  {
    assert chunks[..i + 1] == chunks[..i] + [chunks[i]];
    FlattenAppend(chunks[..i], chunks[i]);
    FeedAppend(c, "", Flatten(chunks[..i]), chunks[i]);
  }

  /** The callbacks and the result depend on the bytes alone, not on how they were cut
      into chunks. */
  method CompleteStream(c: Codec, chunks: seq<Bytes>, interrupted: bool) returns (out: seq<StreamChunk>, result: Result)
    ensures (out, result) == Whole(c, Flatten(chunks), interrupted)
  {
    var bytes, data: string := [], "";
    out := [];
    for i := 0 to |chunks|
      invariant Feed(c, "", Flatten(chunks[..i])) == More(out, data, bytes)
    {
      FeedChunk(c, chunks, i);
      bytes := bytes + chunks[i];
      var o := DrainLines(c, data, bytes);
      out := out + o.out;
      if o.Ended? {
        EndedStays(c, chunks, i + 1);
        return out, o.result;
      }
      data, bytes := o.data, o.rest;
    }
    assert chunks[..|chunks|] == chunks;
    return out, if interrupted then Interrupted else EndedBeforeCompletion;
  }

  lemma {:induction false} FlattenSplit(a: seq<Bytes>, b: seq<Bytes>)
    ensures Flatten(a + b) == Flatten(a) + Flatten(b)
  {
    if a == [] {
      assert a + b == b && [] + Flatten(b) == Flatten(b);
    } else {
      assert a[0] + (Flatten(a[1..]) + Flatten(b)) == a[0] + Flatten(a[1..]) + Flatten(b);
      FlattenSplit(a[1..], b);
      assert (a + b)[1..] == a[1..] + b;
    }
  }

  /** What comes after the end is not read. */
  lemma EndedStays(c: Codec, chunks: seq<Bytes>, i: nat)
    requires i <= |chunks| && Feed(c, "", Flatten(chunks[..i])).Ended?
    ensures Feed(c, "", Flatten(chunks)) == Feed(c, "", Flatten(chunks[..i]))
  {
    assert chunks == chunks[..i] + chunks[i..];
    FlattenSplit(chunks[..i], chunks[i..]);
    FeedAppend(c, "", Flatten(chunks[..i]), Flatten(chunks[i..]));
  }

  // ------------------------------------------------- round trip of whole events

  /** The reaction to a list of event texts: what a client of an ideal stream sees. */
  function Replay(c: Codec, texts: seq<string>): Outcome {
    if texts == [] then More([], "", [])
    else
      Reacted(OnEvent(c, texts[0]), Replay(c, texts[1..]))
  }

  /** An event framed as the server sends it: one `data:` line and an empty line. */
  function Frame(encode: string -> Bytes, text: string): Bytes {
    encode("data: " + text) + [NEWLINE] + [NEWLINE]
  }

  function Encoded(encode: string -> Bytes, texts: seq<string>): Bytes {
    if texts == [] then [] else Frame(encode, texts[0]) + Encoded(encode, texts[1..])
  }

  /** `encode` writes text that `c` reads back line by line. */
  ghost predicate Agrees(c: Codec, encode: string -> Bytes) {
    && c.space(' ')
    && c.utf8([NEWLINE]) == Some("\n")
    && (forall s :: NEWLINE !in encode(s) || '\n' in s)
    && (forall s :: c.utf8(encode(s) + [NEWLINE]) == Some(s + "\n"))
  }

  /** A text that fits on one line and does not start with white space. */
  predicate OneLine(c: Codec, text: string) {
    text != "" && !c.space(text[0]) && '\n' !in text && text[|text| - 1] != '\r'
  }

  lemma TrimOneNewline(s: string)
    requires s == "" || (s[|s| - 1] != '\r' && s[|s| - 1] != '\n')
    ensures TrimLineEnd(s + "\n") == s
  {
  }

  lemma DataLine(c: Codec, text: string)
    requires c.space(' ') && OneLine(c, text)
    ensures var line := "data: " + text;
            && TrimLineEnd(line + "\n") == line && "data:" <= line && line != ""
            && TrimStart(c, line[5..]) == text
  {
  }

  lemma FrameLines(c: Codec, encode: string -> Bytes, text: string)
    requires Agrees(c, encode) && OneLine(c, text)
    ensures OnLine(c, "", encode("data: " + text) + [NEWLINE]) == Go(text, [])
    ensures OnLine(c, text, [NEWLINE]) == OnEvent(c, text)
    ensures NEWLINE !in encode("data: " + text)
  {
    var line := "data: " + text;
    assert '\n' !in line;
    DataLine(c, text);
    assert c.utf8(encode(line) + [NEWLINE]) == Some(line + "\n");
    assert "" + "" + text == text;
    TrimOneNewline("");
    assert "" + "\n" == "\n";
  }

  lemma {:induction false} FirstNewlineAt(a: Bytes, b: Bytes)
    requires NEWLINE !in a
    ensures FirstNewline(a + [NEWLINE] + b) == |a|
  {
    if a != [] {
      FirstNewlineAt(a[1..], b);
      assert (a + [NEWLINE] + b)[1..] == a[1..] + [NEWLINE] + b;
    }
  }

  lemma FeedLine(c: Codec, data: string, line: Bytes, b: Bytes)
    requires NEWLINE !in line
    ensures var r := OnLine(c, data, line + [NEWLINE]);
            Feed(c, data, line + [NEWLINE] + b) == Reacted(r, Feed(c, if r.Go? then r.data else "", b))
  {
    var buffer := line + [NEWLINE] + b;
    FirstNewlineAt(line, b);
    assert buffer[..|line| + 1] == line + [NEWLINE] && buffer[|line| + 1..] == b;
  }

  /** A line that collects `text`, and the empty line that dispatches it. */
  lemma FeedTwoLines(c: Codec, line: Bytes, text: string, b: Bytes)
    requires NEWLINE !in line && OnLine(c, "", line + [NEWLINE]) == Go(text, [])
    ensures Feed(c, "", line + [NEWLINE] + [NEWLINE] + b)
         == var r := OnLine(c, text, [NEWLINE]); Reacted(r, Feed(c, if r.Go? then r.data else "", b))
  {
    var second := [] + [NEWLINE] + b;
    FeedLine(c, "", line, second);
    FeedLine(c, text, [], b);
    assert [] + [NEWLINE] == [NEWLINE];
    assert line + [NEWLINE] + [NEWLINE] + b == line + [NEWLINE] + second;
    AfterNothing(Feed(c, text, second));
  }

  lemma FeedFrame(c: Codec, encode: string -> Bytes, text: string, b: Bytes)
    requires Agrees(c, encode) && OneLine(c, text)
    ensures Feed(c, "", Frame(encode, text) + b) == Reacted(OnEvent(c, text), Feed(c, "", b))
  {
    FrameLines(c, encode, text);
    FeedTwoLines(c, encode("data: " + text), text, b);
  }

  lemma {:induction false} FeedEncoded(c: Codec, encode: string -> Bytes, texts: seq<string>)
    requires Agrees(c, encode)
    requires forall i :: 0 <= i < |texts| ==> OneLine(c, texts[i])
    ensures Feed(c, "", Encoded(encode, texts)) == Replay(c, texts)
  {
    if texts != [] {
      FeedFrame(c, encode, texts[0], Encoded(encode, texts[1..]));
      FeedEncoded(c, encode, texts[1..]);
    }
  }

  /** Any list of events, framed and cut into chunks anywhere, is read back in order: the
      callbacks and the result are those of the events themselves. */
  lemma StreamRoundTrip(c: Codec, encode: string -> Bytes, texts: seq<string>, chunks: seq<Bytes>, interrupted: bool)
    requires Agrees(c, encode)
    requires forall i :: 0 <= i < |texts| ==> OneLine(c, texts[i])
    requires Flatten(chunks) == Encoded(encode, texts)
    ensures var seen := Replay(c, texts);
            && Whole(c, Flatten(chunks), interrupted).0 == seen.out
            && (seen.Ended? ==> Whole(c, Flatten(chunks), interrupted).1 == seen.result)
            && (seen.More? ==> Whole(c, Flatten(chunks), interrupted).1 == if interrupted then Interrupted else EndedBeforeCompletion)
  {
    FeedEncoded(c, encode, texts);
  }
}
