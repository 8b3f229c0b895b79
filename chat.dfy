/**
 * The chat service (`ChatService`): the streamed AI reply, which reads a
 * server-sent-events style body chunk by chunk and turns its `data: ` lines
 * into callbacks, and the image upload with its type and size gates.
 *
 * The callbacks `onMessage`, `onComplete` and `onError` are modelled as the
 * list of events they receive, in order.
 */
module Chat {
  import opened Text
  import opened Json
  import opened Results
  import opened Http
  import Request
  import Browser

  // ---------------------------------------------------------------------------
  // The stream: connection, chunks, events
  // ---------------------------------------------------------------------------

  const DataPrefix := "data: "
  const DoneMarker := "[DONE]"
  const AbortName := "AbortError"
  const StreamStarted := "开始流式AI回复"
  const StreamFailed := "流式AI回复失败"

  /** How `reader.read()` stops: the body ends (`done`), or a read throws an Error with a name and a message. */
  datatype StreamEnd = Finished | Broken(name: string, message: string)

  /** The response body: the decoded text of each chunk `read()` returns, then how reading stops. */
  datatype Body = Body(chunks: seq<string>, end: StreamEnd)

  /**
   * What `fetch` gives: a rejection (an Error with a name and a message), or a
   * response with a status and a body, which is null (None) for bodiless responses.
   */
  datatype Connect = Unreachable(name: string, message: string) | Answered(status: int, body: Option<Body>)

  /** One callback invocation: `onMessage(parsed)`, `onComplete()` or `onError(error)`. */
  datatype Event = Message(value: Json) | Complete | Error(name: string, message: string)

  /** `response.ok`: a status in the range 200-299. */
  predicate IsOk(status: int) { 200 <= status <= 299 }

  /** The value `getAIReplyStream` resolves to: `{success: true, controller, message}` or `{success: false, error, message}`. */
  datatype StreamStart = Streaming(message: string) | NotStreaming(error: string, message: string)

  /** What one line of a chunk does to the stream: nothing, stop it, or deliver a parsed value. */
  datatype Frame = Ignored | Stop | Deliver(value: Json)

  /** The `[DONE]` line: `data: ` followed by exactly `[DONE]`. */
  predicate IsDone(line: string)
  {
    line == DataPrefix + DoneMarker
  }

  /**
   * The body of the inner `for` loop for one line: only lines that start with
   * `data: ` count; their payload is the rest of the line; `[DONE]` stops the
   * stream; a payload that does not parse is skipped.
   */
  function LineFrame(line: string, parse: Parse): (r: Frame)
    ensures r.Stop? <==> IsDone(line)
    ensures r.Deliver? ==> StartsWith(line, DataPrefix) && parse(line[|DataPrefix|..]) == Parsed(r.value)
  {
    if !StartsWith(line, DataPrefix) then Ignored
    else
      var data := line[|DataPrefix|..];
      assert line == DataPrefix + data;
      if data == DoneMarker then Stop
      else match parse(data)
        case Parsed(v) => Deliver(v)
        case SyntaxError(_) => Ignored
  }

  /**
   * A line stops the stream exactly when it is `data: [DONE]`; it delivers
   * exactly when it is another `data: ` line whose payload parses, and then
   * the parsed payload; every other line is ignored.
   */
  lemma LineFrameCases(line: string, parse: Parse)
    ensures LineFrame(line, parse).Stop? <==> IsDone(line)
    ensures !StartsWith(line, DataPrefix) ==> LineFrame(line, parse).Ignored?
    ensures LineFrame(line, parse).Deliver? <==>
      StartsWith(line, DataPrefix) && !IsDone(line) && parse(line[|DataPrefix|..]).Parsed?
    ensures LineFrame(line, parse).Deliver? ==> LineFrame(line, parse).value == parse(line[|DataPrefix|..]).value
  {
    if StartsWith(line, DataPrefix) {
      assert line == DataPrefix + line[|DataPrefix|..];
    }
  }

  /** What reading does after the last chunk: `done` completes; a read error is reported unless it is an abort. */
  function Ending(end: StreamEnd): (r: seq<Event>)
    ensures |r| <= 1
    ensures end.Finished? ==> r == [Complete]
    ensures end.Broken? ==> (r == [] <==> end.name == AbortName)
    ensures end.Broken? && end.name != AbortName ==> r == [Error(end.name, end.message)]
  {
    match end
    case Finished => [Complete]
    case Broken(name, message) => if name == AbortName then [] else [Error(name, message)]
  }

  /** A read error named `AbortError`: the only way the stream ends without a terminal event. */
  predicate Silent(end: StreamEnd)
  {
    end.Broken? && end.name == AbortName
  }

  /** The events raised by `lines`, read in order, followed by `end`. */
  function Frames(lines: seq<string>, end: StreamEnd, parse: Parse): seq<Event>
  {
    if lines == [] then Ending(end)
    else match LineFrame(lines[0], parse)
      case Ignored => Frames(lines[1..], end, parse)
      case Stop => [Complete]
      case Deliver(v) => [Message(v)] + Frames(lines[1..], end, parse)
  }

  /**
   * Only the last event can be terminal; there is exactly one terminal event
   * unless reading is aborted; an error event always is the read error.
   */
  predicate WellShaped(r: seq<Event>, end: StreamEnd)
  {
    && (forall i :: 0 <= i < |r| - 1 ==> r[i].Message?)
    && (!Silent(end) ==> |r| > 0 && !r[|r| - 1].Message?)
    && (forall i :: 0 <= i < |r| && r[i].Error? ==>
          end.Broken? && end.name != AbortName && r[i] == Error(end.name, end.message))
  }

  /** Every event sequence a stream raises is well shaped. */
  lemma {:induction false} FramesShape(lines: seq<string>, end: StreamEnd, parse: Parse)
    ensures WellShaped(Frames(lines, end, parse), end)
  {
    if lines != [] {
      FramesShape(lines[1..], end, parse);
      var rest := Frames(lines[1..], end, parse);
      match LineFrame(lines[0], parse)
      case Ignored =>
        assert Frames(lines, end, parse) == rest;
      case Stop =>
        assert Frames(lines, end, parse) == [Complete];
      case Deliver(v) =>
        assert Frames(lines, end, parse) == [Message(v)] + rest;
        MessageKeepsShape(v, rest, end);
    }
  }

  /** A message in front of a well-shaped sequence keeps it well shaped. */
  lemma MessageKeepsShape(v: Json, rest: seq<Event>, end: StreamEnd)
    requires WellShaped(rest, end)
    ensures WellShaped([Message(v)] + rest, end)
  {
    var r := [Message(v)] + rest;
    assert forall i :: 1 <= i < |r| ==> r[i] == rest[i - 1];
  }

  /** The lines the loop visits: each chunk split on '\n' by itself, with nothing carried from one chunk to the next. */
  function Lines(chunks: seq<string>): (lines: seq<string>)
    ensures |chunks| <= |lines|
  {
    if chunks == [] then [] else Split(chunks[0], '\n') + Lines(chunks[1..])
  }

  /** The events a stream with these chunks and this ending raises. */
  function StreamEvents(chunks: seq<string>, end: StreamEnd, parse: Parse): (r: seq<Event>)
    ensures WellShaped(r, end)
  {
    FramesShape(Lines(chunks), end, parse);
    Frames(Lines(chunks), end, parse)
  }

  /**
   * `readStream()`: the `while (true)` over `reader.read()`; each chunk's
   * lines go through `ScanLines`, and a `[DONE]` among them ends the stream.
   */
  method ReadStream(chunks: seq<string>, end: StreamEnd, parse: Parse) returns (events: seq<Event>)
    ensures events == StreamEvents(chunks, end, parse)
  {
    events := [];
    var i := 0;
    while i < |chunks|
      invariant 0 <= i <= |chunks|
      invariant events + Frames(Lines(chunks[i..]), end, parse) == StreamEvents(chunks, end, parse)
    {
      var lines := Split(chunks[i], '\n');
      var values, stopped := ScanLines(lines, parse);
      ghost var later := Frames(Lines(chunks[i + 1..]), end, parse);
      LinesStep(chunks, i);
      ChunkStep(lines, Lines(chunks[i + 1..]), end, parse);
      if stopped {
        assert Frames(Lines(chunks[i..]), end, parse) == Messages(values) + [Complete];
        events := events + Messages(values) + [Complete];
        return;
      }
      assert Frames(Lines(chunks[i..]), end, parse) == Messages(values) + later;
      AppendAssociates(events, Messages(values), later);
      events := events + Messages(values);
      i := i + 1;
    }
    assert Lines(chunks[|chunks|..]) == [];
    events := events + Ending(end);
  }

  /**
   * The `for` loop over one chunk's lines: the values it hands to `onMessage`,
   * and whether it met `[DONE]` (where the code calls `onComplete` and returns).
   */
  method ScanLines(lines: seq<string>, parse: Parse) returns (values: seq<Json>, stopped: bool)
    ensures stopped <==> FirstDone(lines) < |lines|
    ensures values == Delivered(lines[..FirstDone(lines)], parse)
  {
    values := [];
    var j := 0;
    while j < |lines|
      invariant 0 <= j <= |lines|
      invariant forall k :: 0 <= k < j ==> !IsDone(lines[k])
      invariant values == Delivered(lines[..j], parse)
    {
      var line := lines[j];
      DeliveredAppend(lines[..j], [line], parse);
      assert lines[..j + 1] == lines[..j] + [line];
      assert [line][1..] == [];
      if StartsWith(line, DataPrefix) {
        var data := line[|DataPrefix|..];
        if data == DoneMarker {
          assert IsDone(line);
          return values, true;
        }
        match parse(data)
        case Parsed(v) =>
          values := values + [v];
        case SyntaxError(_) =>
      }
      assert !IsDone(line);
      j := j + 1;
    }
    assert lines[..j] == lines;
    return values, false;
  }

  lemma AppendAssociates(a: seq<Event>, b: seq<Event>, c: seq<Event>)
    ensures a + (b + c) == a + b + c
  {
  }

  /** The outer loop's step: the lines of chunk `i` followed by the lines of the later chunks. */
  lemma LinesStep(chunks: seq<string>, i: nat)
    requires i < |chunks|
    ensures Lines(chunks[i..]) == Split(chunks[i], '\n') + Lines(chunks[i + 1..])
  {
    assert chunks[i..][1..] == chunks[i + 1..];
  }

  /**
   * Reading lines `a` and then lines `b`: the values delivered by `a` before
   * its first `[DONE]`, then one completion if `a` holds a `[DONE]`, or else
   * whatever `b` raises.
   */
  lemma {:induction false} ChunkStep(a: seq<string>, b: seq<string>, end: StreamEnd, parse: Parse)
    ensures Frames(a + b, end, parse) ==
      Messages(Delivered(a[..FirstDone(a)], parse))
        + (if FirstDone(a) < |a| then [Complete] else Frames(b, end, parse))
  {
    if a == [] {
      assert a + b == b;
    } else if IsDone(a[0]) {
      assert (a + b)[0] == a[0];
      LineFrameCases(a[0], parse);
      assert a[..FirstDone(a)] == [];
    } else {
      ChunkStep(a[1..], b, end, parse);
      ChunkStepPastLine(a, b, end, parse);
    }
  }

  /** One line that is not `[DONE]` in front of lines whose step is known. */
  lemma ChunkStepPastLine(a: seq<string>, b: seq<string>, end: StreamEnd, parse: Parse)
    requires a != [] && !IsDone(a[0])
    requires Frames(a[1..] + b, end, parse) ==
      Messages(Delivered(a[1..][..FirstDone(a[1..])], parse))
        + (if FirstDone(a[1..]) < |a[1..]| then [Complete] else Frames(b, end, parse))
    ensures Frames(a + b, end, parse) ==
      Messages(Delivered(a[..FirstDone(a)], parse))
        + (if FirstDone(a) < |a| then [Complete] else Frames(b, end, parse))
  {
    var k := FirstDone(a);
    var tail := if k < |a| then [Complete] else Frames(b, end, parse);
    var rest := Delivered(a[1..][..k - 1], parse);
    assert (a + b)[0] == a[0] && (a + b)[1..] == a[1..] + b;
    FramesCons(a + b, end, parse);
    assert Frames(a + b, end, parse) == Messages(Head(a[0], parse)) + (Messages(rest) + tail);
    assert a[..k][0] == a[0] && a[..k][1..] == a[1..][..k - 1];
    DeliveredCons(a[..k], parse);
    MessagesAppend(Head(a[0], parse), rest);
    AppendAssociates(Messages(Head(a[0], parse)), Messages(rest), tail);
  }

  /** The value one line delivers, if any. */
  function Head(line: string, parse: Parse): (r: seq<Json>)
    ensures |r| <= 1
  {
    match LineFrame(line, parse)
    case Deliver(v) => [v]
    case _ => []
  }

  lemma FramesCons(lines: seq<string>, end: StreamEnd, parse: Parse)
    requires lines != [] && !IsDone(lines[0])
    ensures Frames(lines, end, parse) == Messages(Head(lines[0], parse)) + Frames(lines[1..], end, parse)
  {
    LineFrameCases(lines[0], parse);
    if LineFrame(lines[0], parse).Deliver? {
      assert Messages([LineFrame(lines[0], parse).value]) == [Message(LineFrame(lines[0], parse).value)];
    }
  }

  lemma DeliveredCons(lines: seq<string>, parse: Parse)
    requires lines != []
    ensures Delivered(lines, parse) == Head(lines[0], parse) + Delivered(lines[1..], parse)
  {
  }



  /** The error a failed start reports: the fetch rejection, the non-ok status, or the TypeError of reading a null body. */
  function StartError(connect: Connect): (e: Event)
    requires !(connect.Answered? && IsOk(connect.status) && connect.body.Some?)
    ensures e.Error?
    ensures connect.Answered? && !IsOk(connect.status) ==>
      e == Error("Error", "HTTP error! status: " + IntToDecimal(connect.status))
  {
    match connect
    case Unreachable(name, message) => Error(name, message)
    case Answered(status, _) =>
      if !IsOk(status) then Error("Error", "HTTP error! status: " + IntToDecimal(status))
      else Error("TypeError", EngineTypeError)
  }

  /**
   * `getAIReplyStream(requestData, onMessage, onError, onComplete)`: a
   * failed start reports one error and reads nothing; otherwise it resolves
   * as streaming and the body's events follow.
   */
  method GetAIReplyStream(connect: Connect, parse: Parse) returns (start: StreamStart, events: seq<Event>)
    ensures start.Streaming? <==> connect.Answered? && IsOk(connect.status) && connect.body.Some?
    ensures start.Streaming? ==>
      start.message == StreamStarted
      && events == StreamEvents(connect.body.value.chunks, connect.body.value.end, parse)
    ensures start.NotStreaming? ==>
      start.message == StreamFailed && events == [StartError(connect)] && start.error == StartError(connect).message
  {
    if connect.Answered? && IsOk(connect.status) && connect.body.Some? {
      events := ReadStream(connect.body.value.chunks, connect.body.value.end, parse);
      start := Streaming(StreamStarted);
    } else {
      var e := StartError(connect);
      events := [e];
      start := NotStreaming(e.message, StreamFailed);
    }
  }

  /**
   * The Authorization header of the streaming request: the stored token,
   * or the text 'null' when none is stored.
   */
  function StreamAuthorization(token: Option<string>): (h: string)
    ensures token.Some? ==> h == "Bearer " + token.value
    ensures token.None? ==> h == "Bearer null"
  {
    "Bearer " + (if token.Some? then token.value else "null")
  }

  /**
   * The streaming request and the axios requests send the same header when a
   * token is stored; without one, axios sends none and the stream sends 'Bearer null'.
   */
  lemma StreamHeaderVersusAxios(token: Option<string>)
    ensures Browser.StoredTruthy(token) ==> Request.AuthorizationHeader(token) == Some(StreamAuthorization(token))
    ensures token.None? ==> Request.AuthorizationHeader(token).None? && StreamAuthorization(token) == "Bearer null"
  {
  }

  // ---------------------------------------------------------------------------
  // Properties of the stream
  // ---------------------------------------------------------------------------

  /** The values delivered by `lines` when none of them stops the stream: parsed payloads of `data: ` lines, in order. */
  function Delivered(lines: seq<string>, parse: Parse): (r: seq<Json>)
    ensures |r| <= |lines|
  {
    if lines == [] then []
    else match LineFrame(lines[0], parse)
      case Deliver(v) => [v] + Delivered(lines[1..], parse)
      case _ => Delivered(lines[1..], parse)
  }

  function Messages(values: seq<Json>): (r: seq<Event>)
    ensures |r| == |values|
    ensures forall i :: 0 <= i < |r| ==> r[i] == Message(values[i])
  {
    if values == [] then [] else [Message(values[0])] + Messages(values[1..])
  }

  /** The index of the first `[DONE]` line, or the number of lines when there is none. */
  function FirstDone(lines: seq<string>): (k: nat)
    ensures k <= |lines|
    ensures forall i :: 0 <= i < k ==> !IsDone(lines[i])
    ensures k < |lines| ==> IsDone(lines[k])
  {
    if lines == [] then 0
    else if IsDone(lines[0]) then 0
    else 1 + FirstDone(lines[1..])
  }

  lemma {:induction false} DeliveredAppend(a: seq<string>, b: seq<string>, parse: Parse)
    ensures Delivered(a + b, parse) == Delivered(a, parse) + Delivered(b, parse)
  {
    if a != [] {
      assert (a + b)[0] == a[0];
      assert (a + b)[1..] == a[1..] + b;
      DeliveredAppend(a[1..], b, parse);
    } else {
      assert a + b == b;
    }
  }

  lemma {:induction false} MessagesAppend(a: seq<Json>, b: seq<Json>)
    ensures Messages(a + b) == Messages(a) + Messages(b)
  {
    assert |Messages(a + b)| == |Messages(a) + Messages(b)|;
    forall i | 0 <= i < |a + b|
      ensures Messages(a + b)[i] == (Messages(a) + Messages(b))[i]
    {
      if i < |a| {
      } else {
        assert (a + b)[i] == b[i - |a|];
      }
    }
  }

  /**
   * The whole stream in one equation: the values of the lines before the
   * first `[DONE]`, then `onComplete` if a `[DONE]` came, or else whatever
   * the end of reading raises.
   */
  lemma FramesDecompose(lines: seq<string>, end: StreamEnd, parse: Parse)
    ensures var k := FirstDone(lines);
      Frames(lines, end, parse) ==
        Messages(Delivered(lines[..k], parse)) + (if k < |lines| then [Complete] else Ending(end))
  {
    ChunkStep(lines, [], end, parse);
    assert lines + [] == lines;
  }

  /**
   * A line that does not start with exactly `data: ` (a comment, an `event:`
   * field, `data:` without the space, an empty line) changes nothing.
   */
  lemma NonDataLineIgnored(line: string, rest: seq<string>, end: StreamEnd, parse: Parse)
    requires !StartsWith(line, DataPrefix)
    ensures Frames([line] + rest, end, parse) == Frames(rest, end, parse)
  {
    assert ([line] + rest)[1..] == rest;
  }

  /** A `data: ` payload that does not parse is skipped: no event, and the next line is read. */
  lemma UnparsableFrameSkipped(line: string, rest: seq<string>, end: StreamEnd, parse: Parse)
    requires StartsWith(line, DataPrefix) && !IsDone(line)
    requires parse(line[|DataPrefix|..]).SyntaxError?
    ensures Frames([line] + rest, end, parse) == Frames(rest, end, parse)
  {
    assert ([line] + rest)[1..] == rest;
  }

  /**
   * `[DONE]` ends the stream: whatever lines, chunks and read errors follow,
   * the only thing left to happen is one `onComplete`.
   */
  lemma DoneStopsEverything(before: seq<string>, after: seq<string>, end: StreamEnd, parse: Parse)
    requires forall i :: 0 <= i < |before| ==> !IsDone(before[i])
    ensures Frames(before + [DataPrefix + DoneMarker] + after, end, parse)
      == Messages(Delivered(before, parse)) + [Complete]
  {
    var lines := before + [DataPrefix + DoneMarker] + after;
    FirstDoneAt(before, after);
    FramesDecompose(lines, end, parse);
    assert lines[..|before|] == before;
  }

  lemma {:induction false} FirstDoneAt(before: seq<string>, after: seq<string>)
    requires forall i :: 0 <= i < |before| ==> !IsDone(before[i])
    ensures FirstDone(before + [DataPrefix + DoneMarker] + after) == |before|
  {
    var lines := before + [DataPrefix + DoneMarker] + after;
    if before == [] {
      assert lines[0] == DataPrefix + DoneMarker;
    } else {
      assert lines[0] == before[0];
      assert lines[1..] == before[1..] + [DataPrefix + DoneMarker] + after;
      FirstDoneAt(before[1..], after);
    }
  }

  /**
   * `onComplete` is called at most once, and exactly once unless a `[DONE]`
   * never comes and reading stops with an error.
   */
  lemma CompleteAtMostOnce(lines: seq<string>, end: StreamEnd, parse: Parse)
    ensures var r := Frames(lines, end, parse);
      forall i, j :: 0 <= i < j < |r| ==> !(r[i].Complete? && r[j].Complete?)
    ensures Complete in Frames(lines, end, parse) <==> FirstDone(lines) < |lines| || end.Finished?
  {
    var r := Frames(lines, end, parse);
    FramesShape(lines, end, parse);
    FramesDecompose(lines, end, parse);
    var k := FirstDone(lines);
    var ms := Messages(Delivered(lines[..k], parse));
    var tail := if k < |lines| then [Complete] else Ending(end);
    assert r == ms + tail;
    assert Complete !in ms;
    assert Complete in r <==> Complete in tail;
  }

  /** A chunk without `[DONE]` adds its delivered values in front of what the later chunks raise. */
  lemma ChunkWithoutDone(chunk: string, later: seq<string>, end: StreamEnd, parse: Parse)
    requires forall i :: 0 <= i < |Split(chunk, '\n')| ==> !IsDone(Split(chunk, '\n')[i])
    ensures StreamEvents([chunk] + later, end, parse)
      == Messages(Delivered(Split(chunk, '\n'), parse)) + StreamEvents(later, end, parse)
  {
    var a := Split(chunk, '\n');
    assert ([chunk] + later)[1..] == later;
    assert Lines([chunk] + later) == a + Lines(later);
    ChunkStep(a, Lines(later), end, parse);
    assert a[..FirstDone(a)] == a;
  }

  /** Chunk boundaries are line boundaries: the lines of a chunk list are the lines of each chunk, concatenated. */
  lemma {:induction false} LinesAppend(a: seq<string>, b: seq<string>)
    ensures Lines(a + b) == Lines(a) + Lines(b)
  {
    if a == [] {
      assert a + b == b;
    } else {
      assert (a + b)[0] == a[0];
      assert (a + b)[1..] == a[1..] + b;
      LinesAppend(a[1..], b);
    }
  }

  /**
   * No buffering across chunks: `data: [DONE]` arriving in two pieces, cut
   * inside the marker, is two lines, neither of which stops the stream, so
   * the stream ends however reading ends (a read error is reported), where
   * the same text in one chunk completes it.
   */
  lemma DoneSplitAcrossChunks(first: string, second: string, end: StreamEnd, parse: Parse)
    requires first + second == DataPrefix + DoneMarker
    requires |DataPrefix| <= |first| < |DataPrefix + DoneMarker|
    requires parse(first[|DataPrefix|..]).SyntaxError?
    ensures StreamEvents([first, second], end, parse) == Ending(end)
    ensures StreamEvents([first + second], end, parse) == [Complete]
  {
    var whole := DataPrefix + DoneMarker;
    assert first == whole[..|first|] && second == whole[|first|..];
    assert '\n' !in first && '\n' !in second;
    LinesOfTwo(first, second);
    assert [first, second] == [first] + [second];
    UnparsableFrameSkipped(first, [second], end, parse) by {
      assert first[..|DataPrefix|] == DataPrefix;
    }
    NonDataLineIgnored(second, [], end, parse) by {
      assert second[0] == whole[|first|] != 'd';
    }
    assert [second] + [] == [second];
    OneChunkDone(end, parse);
  }

  /** Two chunks without line breaks are two lines. */
  lemma LinesOfTwo(first: string, second: string)
    requires '\n' !in first && '\n' !in second
    ensures Lines([first, second]) == [first, second]
  {
    SplitNoSeparator(first, '\n');
    SplitNoSeparator(second, '\n');
    assert [first, second][1..] == [second];
    assert [second][1..] == [];
    assert Lines([second]) == [second];
  }

  lemma OneChunkDone(end: StreamEnd, parse: Parse)
    ensures StreamEvents([DataPrefix + DoneMarker], end, parse) == [Complete]
  {
    var whole := [DataPrefix + DoneMarker];
    SplitNoSeparator(DataPrefix + DoneMarker, '\n');
    assert whole[1..] == [];
    assert Lines(whole) == whole;
    LineFrameCases(DataPrefix + DoneMarker, parse);
  }

  /**
   * Lines ending in '\r' (a body with CRLF line breaks) never match `[DONE]`:
   * the stream only completes when the body ends.
   */
  lemma CrLfDoneDoesNotStop(line: string)
    requires line == DataPrefix + DoneMarker + "\r"
    ensures !IsDone(line)
  {
    assert |line| != |DataPrefix + DoneMarker|;
  }

  // ---------------------------------------------------------------------------
  // uploadChatImage
  // ---------------------------------------------------------------------------

  const ImageTypes := ["image/jpeg", "image/png", "image/gif", "image/webp"]
  const MaxImageSize := 10 * 1024 * 1024
  const UnsupportedImage := "不支持的文件类型，请上传 JPG、PNG、GIF 或 WebP 格式的图片"
  const ImageTooLarge := "文件大小不能超过 10MB"
  const ImageUploaded := "图片上传成功"
  const ImageUploadFailed := "图片上传失败"

  /**
   * The checks before the upload, in order: reading `type` of a missing file
   * throws, then the type must be one of the four image types, then the size
   * must not exceed 10 MiB. None means the upload is sent.
   */
  function ImageGate(file: Option<FileInfo>): (e: Option<string>)
    ensures e.None? <==> file.Some? && file.value.mime in ImageTypes && file.value.size <= MaxImageSize
    ensures file.Some? && file.value.mime !in ImageTypes ==> e == Some(UnsupportedImage)
    ensures file.Some? && file.value.mime in ImageTypes && file.value.size > MaxImageSize ==> e == Some(ImageTooLarge)
  {
    if file.None? then Some(EngineTypeError)
    else if file.value.mime !in ImageTypes then Some(UnsupportedImage)
    else if file.value.size > MaxImageSize then Some(ImageTooLarge)
    else None
  }

  /** `uploadChatImage(file, conversationId)`; `outcome` is how the upload request settles when it is sent. */
  function UploadChatImage(file: Option<FileInfo>, outcome: Settled): (r: ServiceResult)
    ensures ImageGate(file).Some? ==> r == Failed(ImageGate(file).value, ImageUploadFailed)
    ensures ImageGate(file).None? ==> r == Invoke(outcome, ImageUploaded, ImageUploadFailed)
  {
    match ImageGate(file)
    case Some(e) => Failed(e, ImageUploadFailed)
    case None => Invoke(outcome, ImageUploaded, ImageUploadFailed)
  }

  /** A rejected image is never uploaded: the result does not depend on how the upload would have settled. */
  lemma RejectedImageNotUploaded(file: Option<FileInfo>, o1: Settled, o2: Settled)
    requires ImageGate(file).Some?
    ensures UploadChatImage(file, o1) == UploadChatImage(file, o2)
    ensures UploadChatImage(file, o1).Failed?
  {
  }

  /** The type is checked before the size: an unsupported type is reported whatever the size. */
  lemma TypeCheckedBeforeSize(name: string, mime: string, size1: int, size2: int)
    requires mime !in ImageTypes
    ensures ImageGate(Some(FileInfo(name, mime, size1))) == ImageGate(Some(FileInfo(name, mime, size2)))
      == Some(UnsupportedImage)
  {
  }

  /** Exactly 10 MiB passes, one byte more is refused. */
  lemma ImageSizeBoundary(name: string, mime: string)
    requires mime in ImageTypes
    ensures ImageGate(Some(FileInfo(name, mime, 10485760))).None?
    ensures ImageGate(Some(FileInfo(name, mime, 10485761))) == Some(ImageTooLarge)
  {
  }
}
