/** The chat page's `handleSend`: the user's message and an empty
    assistant placeholder are added to the list, the message is posted,
    and the server-sent events are read chunk by chunk. Each chunk is split
    into lines; a `data: ` line is `[DONE]` (the rest of the chunk is
    skipped), `[ERROR]` or a JSON payload with an `error` (reading stops),
    or a payload whose `content` is appended to the reply. At the end the
    placeholder carries the reply, or is removed when nothing arrived
    before an error, or when the request failed other than by an abort.

    `JSON.parse` is an input (`parse`, `None` where it throws), and so are
    the clock, the conversation the page creates, and the response. Each
    chunk is taken as the text `TextDecoder` gives for it. */
module ChatPage {
  import opened Common
  import opened Store
  import ChatRoute
  import Json

  /** The two fields of a parsed payload the page looks at. */
  datatype Payload = Payload(error: Option<string>, content: Option<string>)

  /** What a line does to the loops: go on, leave the chunk, or stop
      reading. */
  datatype Flow = Continue | EndChunk | EndStream

  predicate StartsWith(s: string, prefix: string)
  {
    |prefix| <= |s| && s[..|prefix|] == prefix
  }

  /** One line of a chunk, given the reply so far. */
  function LineStep(acc: string, line: string, parse: string -> Option<Payload>): (string, Flow)
  {
    if !StartsWith(line, "data: ") then (acc, Continue)
    else
      var data := line[6..];
      if data == "[DONE]" then (acc, EndChunk)
      else if data == "[ERROR]" then (acc, EndStream)
      else
        match parse(data)
        case None => (acc, Continue)
        case Some(p) =>
          if Truthy(p.error) then (acc, EndStream)
          else if Truthy(p.content) then (acc + p.content.value, Continue)
          else (acc, Continue)
  }

  /** The lines of one chunk; the flag is `hasError`. */
  function ChunkStep(acc: string, lines: seq<string>, parse: string -> Option<Payload>): (string, bool)
    decreases |lines|
  {
    if |lines| == 0 then (acc, false)
    else
      var (a, flow) := LineStep(acc, lines[0], parse);
      match flow
      case Continue => ChunkStep(a, lines[1..], parse)
      case EndChunk => (a, false)
      case EndStream => (a, true)
  }

  /** All chunks, until one sets `hasError`. */
  function Decode(acc: string, chunks: seq<string>, parse: string -> Option<Payload>): (string, bool)
    decreases |chunks|
  {
    if |chunks| == 0 then (acc, false)
    else
      var (a, hasError) := ChunkStep(acc, Split(chunks[0], '\n'), parse);
      if hasError then (a, true) else Decode(a, chunks[1..], parse)
  }

  /** The read loop and the loop over its lines, proved to follow `Decode`. */
  method DecodeStream(chunks: seq<string>, parse: string -> Option<Payload>) returns (accumulated: string, hasError: bool)
    ensures (accumulated, hasError) == Decode("", chunks, parse)
  {
    accumulated := "";
    hasError := false;
    var i := 0;
    while i < |chunks| && !hasError
      invariant 0 <= i <= |chunks|
      invariant hasError ==> (accumulated, hasError) == Decode("", chunks, parse)
      invariant !hasError ==> Decode(accumulated, chunks[i..], parse) == Decode("", chunks, parse)
    {
      assert chunks[i..][0] == chunks[i] && chunks[i..][1..] == chunks[i + 1..];
      var lines := Split(chunks[i], '\n');
      ghost var start := accumulated;
      var endChunk := false;
      var j := 0;
      while j < |lines| && !endChunk && !hasError
        invariant 0 <= j <= |lines|
        invariant !endChunk && !hasError ==> ChunkStep(accumulated, lines[j..], parse) == ChunkStep(start, lines, parse)
        invariant endChunk || hasError ==> (accumulated, hasError) == ChunkStep(start, lines, parse)
        invariant !(endChunk && hasError)
      {
        assert lines[j..][0] == lines[j] && lines[j..][1..] == lines[j + 1..];
        var line := lines[j];
        if StartsWith(line, "data: ") {
          var data := line[6..];
          if data == "[DONE]" {
            endChunk := true;
          } else if data == "[ERROR]" {
            hasError := true;
          } else {
            var parsed := parse(data);
            if parsed.Some? {
              if Truthy(parsed.value.error) {
                hasError := true;
              } else if Truthy(parsed.value.content) {
                accumulated := accumulated + parsed.value.content.value;
              }
            }
          }
        }
        j := j + 1;
      }
      i := i + 1;
    }
  }

  // ---------------------------------------------------------------------
  // Properties of the decoder.
  // ---------------------------------------------------------------------

  /** `[DONE]` ends its chunk: the lines after it are skipped, and reading
      goes on with the next chunk. */
  lemma DoneEndsChunk(acc: string, after: seq<string>, rest: seq<string>, parse: string -> Option<Payload>)
    requires forall k :: 0 <= k < |after| ==> '\n' !in after[k]
    ensures Decode(acc, [Join("\n", ["data: [DONE]"] + after)] + rest, parse) == Decode(acc, rest, parse)
  {
    var lines := ["data: [DONE]"] + after;
    forall k | 0 <= k < |lines|
      ensures '\n' !in lines[k]
    {
      if k > 0 {
        assert lines[k] == after[k - 1];
      }
    }
    SplitJoin(lines, '\n');
    assert lines[0] == "data: [DONE]";
    assert "data: [DONE]"[6..] == "[DONE]";
    assert ([Join("\n", lines)] + rest)[1..] == rest;
  }

  /** A chunk that sets `hasError` ends the reading: later chunks are not
      read. */
  lemma ErrorStopsReading(acc: string, chunk: string, rest: seq<string>, parse: string -> Option<Payload>)
    requires ChunkStep(acc, Split(chunk, '\n'), parse).1
    ensures Decode(acc, [chunk] + rest, parse) == Decode(acc, [chunk], parse)
    ensures Decode(acc, [chunk] + rest, parse).1
  {
    assert ([chunk] + rest)[0] == chunk;
  }

  /** A payload `JSON.parse` rejects changes nothing. */
  lemma SkipsUnparseable(acc: string, data: string, parse: string -> Option<Payload>)
    requires data != "[DONE]" && data != "[ERROR]" && parse(data).None?
    ensures LineStep(acc, "data: " + data, parse) == (acc, Continue)
  {
    assert ("data: " + data)[..6] == "data: ";
    assert ("data: " + data)[6..] == data;
  }

  /** What `JSON.parse` gives for the two payloads the chat route sends. */
  ghost predicate ParsesRoutePayloads(parse: string -> Option<Payload>)
  {
    (forall t :: parse(ChatRoute.ContentPayload(t)) == Some(Payload(None, Some(t)))) &&
    parse(ChatRoute.ErrorPayload) == Some(Payload(Some("Streaming failed"), None))
  }

  lemma {:induction false} FrameLines(data: string)
    requires '\n' !in data
    ensures Split(ChatRoute.Frame(data), '\n') == ["data: " + data, "", ""]
  {
    var line := "data: " + data;
    assert '\n' !in line;
    assert ChatRoute.Frame(data) == line + ['\n'] + ("" + ['\n'] + "");
    SplitAppend(line, '\n', "" + ['\n'] + "");
    SplitAppend("", '\n', "");
  }

  lemma DataLine(data: string)
    ensures StartsWith("data: " + data, "data: ") && ("data: " + data)[6..] == data
  {
    assert ("data: " + data)[..6] == "data: ";
  }

  /** A frame is one chunk whose only line that counts is its data line. */
  lemma FrameChunk(acc: string, data: string, parse: string -> Option<Payload>)
    requires '\n' !in data
    ensures ChunkStep(acc, Split(ChatRoute.Frame(data), '\n'), parse) ==
            (LineStep(acc, "data: " + data, parse).0, LineStep(acc, "data: " + data, parse).1 == EndStream)
  {
    FrameLines(data);
    var lines := ["data: " + data, "", ""];
    var a := LineStep(acc, lines[0], parse).0;
    assert lines[1..] == ["", ""];
    assert ChunkStep(a, ["", ""], parse) == (a, false) by {
      assert !StartsWith("", "data: ");
      assert ["", ""][1..] == [""] && [""][1..] == [];
    }
  }

  lemma DecodeCons(acc: string, chunk: string, rest: seq<string>, parse: string -> Option<Payload>)
    ensures Decode(acc, [chunk] + rest, parse) ==
            var (a, hasError) := ChunkStep(acc, Split(chunk, '\n'), parse);
            if hasError then (a, true) else Decode(a, rest, parse)
  {
    assert ([chunk] + rest)[0] == chunk && ([chunk] + rest)[1..] == rest;
  }

  lemma ContentPayloadShape(t: string)
    ensures '\n' !in ChatRoute.ContentPayload(t)
    ensures ChatRoute.ContentPayload(t) != "[DONE]" && ChatRoute.ContentPayload(t) != "[ERROR]"
  {
    Json.EscapeHasNoLineBreak(t);
    var x := ChatRoute.ContentPayload(t);
    assert x == "{\"content\":\"" + Json.Escape(t) + "\"}";
    assert x[0] == '{';
  }

  /** A line carrying a payload that parses with a content and no error. */
  lemma ContentLine(acc: string, data: string, t: string, parse: string -> Option<Payload>)
    requires data != "[DONE]" && data != "[ERROR]"
    requires parse(data) == Some(Payload(None, Some(t)))
    ensures LineStep(acc, "data: " + data, parse) == (acc + t, Continue)
  {
    DataLine(data);
    if t == "" {
      assert acc + t == acc;
    }
  }

  lemma ContentFrameChunk(acc: string, t: string, parse: string -> Option<Payload>)
    requires parse(ChatRoute.ContentPayload(t)) == Some(Payload(None, Some(t)))
    ensures ChunkStep(acc, Split(ChatRoute.DeltaFrame(t), '\n'), parse) == (acc + t, false)
  {
    var x := ChatRoute.ContentPayload(t);
    ContentPayloadShape(t);
    FrameChunk(acc, x, parse);
    ContentLine(acc, x, t, parse);
  }

  lemma DeltaStep(acc: string, e: ChatRoute.StreamEvent, rest: seq<string>, parse: string -> Option<Payload>)
    requires e.TextDelta? ==> parse(ChatRoute.ContentPayload(e.text)) == Some(Payload(None, Some(e.text)))
    ensures Decode(acc, (if e.TextDelta? then [ChatRoute.DeltaFrame(e.text)] else []) + rest, parse) ==
            Decode(acc + (if e.TextDelta? then e.text else ""), rest, parse)
  {
    if e.TextDelta? {
      DecodeCons(acc, ChatRoute.DeltaFrame(e.text), rest, parse);
      ContentFrameChunk(acc, e.text, parse);
    } else {
      assert [] + rest == rest;
      assert acc + "" == acc;
    }
  }

  lemma DeltaFramesCons(pre: seq<ChatRoute.StreamEvent>, tail: seq<string>)
    requires |pre| > 0
    ensures ChatRoute.DeltaFrames(pre) + tail ==
            (if pre[0].TextDelta? then [ChatRoute.DeltaFrame(pre[0].text)] else []) + (ChatRoute.DeltaFrames(pre[1..]) + tail)
    ensures ChatRoute.Texts(pre) == (if pre[0].TextDelta? then pre[0].text else "") + ChatRoute.Texts(pre[1..])
  {
    AppendAssoc((if pre[0].TextDelta? then [ChatRoute.DeltaFrame(pre[0].text)] else []), ChatRoute.DeltaFrames(pre[1..]), tail);
  }

  /** `JSON.parse` reads back the payload of every text delta of `pre`. */
  ghost predicate ParsesTexts(pre: seq<ChatRoute.StreamEvent>, parse: string -> Option<Payload>)
  {
    forall k :: 0 <= k < |pre| && pre[k].TextDelta? ==>
      parse(ChatRoute.ContentPayload(pre[k].text)) == Some(Payload(None, Some(pre[k].text)))
  }

  lemma RouteParsesTexts(pre: seq<ChatRoute.StreamEvent>, parse: string -> Option<Payload>)
    requires ParsesRoutePayloads(parse)
    ensures ParsesTexts(pre, parse)
  {
  }

  /** The chat route's delta frames, each its own chunk, add exactly the
      deltas' text and let reading go on. */
  lemma {:induction false} DecodeDeltas(acc: string, pre: seq<ChatRoute.StreamEvent>, tail: seq<string>,
                                        parse: string -> Option<Payload>)
    requires ParsesTexts(pre, parse)
    ensures Decode(acc, ChatRoute.DeltaFrames(pre) + tail, parse) == Decode(acc + ChatRoute.Texts(pre), tail, parse)
    decreases |pre|
  {
    if |pre| == 0 {
      assert ChatRoute.DeltaFrames(pre) == [];
      assert [] + tail == tail;
      assert acc + "" == acc;
    } else {
      var first := if pre[0].TextDelta? then pre[0].text else "";
      DeltaFramesCons(pre, tail);
      DeltaStep(acc, pre[0], ChatRoute.DeltaFrames(pre[1..]) + tail, parse);
      assert ParsesTexts(pre[1..], parse) by {
        forall k | 0 <= k < |pre| - 1
          ensures pre[1..][k] == pre[k + 1]
        {
        }
      }
      DecodeDeltas(acc + first, pre[1..], tail, parse);
      AppendAssoc(acc, first, ChatRoute.Texts(pre[1..]));
    }
  }

  /** End to end with the chat route, when each frame arrives as its own
      chunk: the deltas before the stop, then `[DONE]`, give exactly the
      deltas' text and no error. */
  lemma RouteStreamDecoded(pre: seq<ChatRoute.StreamEvent>, parse: string -> Option<Payload>)
    requires ParsesRoutePayloads(parse)
    ensures Decode("", ChatRoute.DeltaFrames(pre) + [ChatRoute.DoneFrame], parse) == (ChatRoute.Texts(pre), false)
  {
    var text := ChatRoute.Texts(pre);
    RouteParsesTexts(pre, parse);
    DecodeDeltas("", pre, [ChatRoute.DoneFrame], parse);
    assert "" + text == text;
    DoneFrameEnds(text, parse);
  }

  lemma DoneFrameEnds(acc: string, parse: string -> Option<Payload>)
    ensures Decode(acc, [ChatRoute.DoneFrame], parse) == (acc, false)
  {
    DecodeCons(acc, ChatRoute.DoneFrame, [], parse);
    FrameChunk(acc, "[DONE]", parse);
    DataLine("[DONE]");
  }

  lemma ErrorFrameStops(acc: string, parse: string -> Option<Payload>)
    requires parse(ChatRoute.ErrorPayload) == Some(Payload(Some("Streaming failed"), None))
    ensures Decode(acc, [ChatRoute.ErrorFrame], parse) == (acc, true)
  {
    var x := ChatRoute.ErrorPayload;
    DecodeCons(acc, ChatRoute.ErrorFrame, [], parse);
    assert '\n' !in x && x != "[DONE]" && x != "[ERROR]" by {
      assert x[0] == '{';
    }
    FrameChunk(acc, x, parse);
    DataLine(x);
  }

  /** End to end with the chat route's failure: the deltas' text, then the
      error frame sets `hasError`. */
  lemma RouteFailureDecoded(pre: seq<ChatRoute.StreamEvent>, parse: string -> Option<Payload>)
    requires ParsesRoutePayloads(parse)
    ensures Decode("", ChatRoute.DeltaFrames(pre) + [ChatRoute.ErrorFrame], parse) == (ChatRoute.Texts(pre), true)
  {
    var text := ChatRoute.Texts(pre);
    RouteParsesTexts(pre, parse);
    DecodeDeltas("", pre, [ChatRoute.ErrorFrame], parse);
    assert "" + text == text;
    ErrorFrameStops(text, parse);
  }

  // ---------------------------------------------------------------------
  // `trim` and the message list.
  // ---------------------------------------------------------------------

  /** ECMAScript white space and line terminators, which `trim` removes. */
  predicate IsSpace(c: char)
  {
    var n := c as int;
    (9 <= n <= 13) || n == 0x20 || n == 0xA0 || n == 0x1680 || (0x2000 <= n <= 0x200A) ||
    n == 0x2028 || n == 0x2029 || n == 0x202F || n == 0x205F || n == 0x3000 || n == 0xFEFF
  }

  function TrimStart(s: string): string
    decreases |s|
  {
    if |s| > 0 && IsSpace(s[0]) then TrimStart(s[1..]) else s
  }

  function TrimEnd(s: string): string
    decreases |s|
  {
    if |s| > 0 && IsSpace(s[|s| - 1]) then TrimEnd(s[..|s| - 1]) else s
  }

  /** `s.trim()`. */
  function Trim(s: string): string
  {
    TrimEnd(TrimStart(s))
  }

  lemma {:induction false} TrimStartEmpty(s: string)
    ensures TrimStart(s) == "" <==> forall k :: 0 <= k < |s| ==> IsSpace(s[k])
    decreases |s|
  {
    if |s| > 0 {
      TrimStartEmpty(s[1..]);
      if IsSpace(s[0]) {
        assert forall k :: 1 <= k < |s| ==> s[k] == s[1..][k - 1];
      }
    }
  }

  lemma {:induction false} TrimEndKeepsNonEmpty(s: string)
    requires |s| > 0 && !IsSpace(s[0])
    ensures TrimEnd(s) != "" && TrimEnd(s)[0] == s[0]
    decreases |s|
  {
    if IsSpace(s[|s| - 1]) {
      assert |s| > 1;
      TrimEndKeepsNonEmpty(s[..|s| - 1]);
    }
  }

  /** The send is ignored exactly when the input is all white space. */
  lemma TrimEmptyIff(s: string)
    ensures Trim(s) == "" <==> forall k :: 0 <= k < |s| ==> IsSpace(s[k])
  {
    TrimStartEmpty(s);
    var t := TrimStart(s);
    if t != "" {
      assert !IsSpace(t[0]) by { TrimStartFirst(s); }
      TrimEndKeepsNonEmpty(t);
    }
  }

  lemma {:induction false} TrimStartFirst(s: string)
    requires TrimStart(s) != ""
    ensures !IsSpace(TrimStart(s)[0])
    decreases |s|
  {
    if |s| > 0 && IsSpace(s[0]) {
      TrimStartFirst(s[1..]);
    }
  }

  datatype UiMessage = UiMessage(id: string, role: Role, content: string)

  /** `prev.filter((msg) => msg.id !== id)` */
  function RemoveId(ms: seq<UiMessage>, id: string): (r: seq<UiMessage>)
    ensures forall k :: 0 <= k < |r| ==> r[k].id != id && r[k] in ms
    ensures forall m :: m in ms && m.id != id ==> m in r
    decreases |ms|
  {
    if |ms| == 0 then []
    else (if ms[0].id != id then [ms[0]] else []) + RemoveId(ms[1..], id)
  }

  /** `prev.map((msg) => msg.id === id ? { ...msg, content } : msg)` */
  function SetContent(ms: seq<UiMessage>, id: string, content: string): (r: seq<UiMessage>)
    ensures |r| == |ms|
    ensures forall k :: 0 <= k < |ms| ==> r[k] == if ms[k].id == id then ms[k].(content := content) else ms[k]
    decreases |ms|
  {
    if |ms| == 0 then []
    else [if ms[0].id == id then ms[0].(content := content) else ms[0]] + SetContent(ms[1..], id, content)
  }

  /** How reading the body ends when no error line stopped it. */
  datatype ReadEnd = Finished | ReadAborted | ReadFailed

  /** The outcome of `fetch('/api/chat', ...)`: a rejection (an abort or
      another error), or a response with its `ok` flag, whether it has a
      body, its chunks, and how reading them ends. */
  datatype FetchOutcome =
    | Rejected(aborted: bool)
    | Responded(ok: bool, hasBody: bool, chunks: seq<string>, end: ReadEnd)

  datatype SentBody = SentBody(conversationId: string, message: string)

  /** The message list after the request, from the list holding the
      placeholder `assistantId`. */
  function AfterResponse(ms: seq<UiMessage>, assistantId: string, fetch: FetchOutcome, parse: string -> Option<Payload>)
    : seq<UiMessage>
  {
    match fetch
    case Rejected(aborted) => if aborted then ms else RemoveId(ms, assistantId)
    case Responded(ok, hasBody, chunks, end) =>
      if !ok || !hasBody then RemoveId(ms, assistantId)
      else
        var (acc, hasError) := Decode("", chunks, parse);
        var shown := if acc != "" then SetContent(ms, assistantId, acc) else ms;
        if hasError then (if acc == "" then RemoveId(shown, assistantId) else shown)
        else if end == ReadFailed then RemoveId(shown, assistantId)
        else shown
  }

  /** The page state `handleSend` reads and writes. */
  class ChatView {
    var messages: seq<UiMessage>
    var input: string
    var loading: bool
    var conversationId: Option<string>

    constructor ()
      ensures messages == [] && input == "" && !loading && conversationId.None?
    {
      messages := [];
      input := "";
      loading := false;
      conversationId := None;
    }

    /** `handleSend`. `now` and `later` are the two `Date.now()` readings,
        `created` what `createConversation` returns. */
    method HandleSend(now: nat, created: Option<string>, later: nat, fetch: FetchOutcome, parse: string -> Option<Payload>)
      returns (sent: Option<SentBody>)
      modifies this
      ensures Trim(old(input)) == "" || old(loading) ==>
                sent.None? && messages == old(messages) && input == old(input) && loading == old(loading) &&
                conversationId == old(conversationId)
      ensures Trim(old(input)) != "" && !old(loading) ==>
                var user := UiMessage(NatToString(now), User, Trim(old(input)));
                var convId := if Truthy(old(conversationId)) then old(conversationId) else created;
                input == "" && !loading &&
                conversationId == (if Truthy(old(conversationId)) || created.None? then old(conversationId) else created) &&
                if !Truthy(convId) then sent.None? && messages == old(messages) + [user]
                else
                  var assistantId := NatToString(later + 1);
                  sent == Some(SentBody(convId.value, Trim(old(input)))) &&
                  messages == AfterResponse(old(messages) + [user] + [UiMessage(assistantId, Assistant, "")],
                                            assistantId, fetch, parse)
    {
      var text := Trim(input);
      if text == "" || loading {
        return None;
      }
      var user := UiMessage(NatToString(now), User, text);
      messages := messages + [user];
      input := "";
      loading := true;
      var convId := conversationId;
      if !Truthy(convId) {
        if created.Some? {
          conversationId := created;
        }
        convId := created;
        if !Truthy(convId) {
          loading := false;
          return None;
        }
      }
      var assistantId := NatToString(later + 1);
      messages := messages + [UiMessage(assistantId, Assistant, "")];
      sent := Some(SentBody(convId.value, text));
      messages := Respond(messages, assistantId, fetch, parse);
      loading := false;
    }
  }

  /** The `try` of `handleSend` after the placeholder, with its `catch`. */
  method Respond(ms: seq<UiMessage>, assistantId: string, fetch: FetchOutcome, parse: string -> Option<Payload>)
    returns (r: seq<UiMessage>)
    ensures r == AfterResponse(ms, assistantId, fetch, parse)
  {
    if fetch.Rejected? {
      return if fetch.aborted then ms else RemoveId(ms, assistantId);
    }
    if !fetch.ok || !fetch.hasBody {
      return RemoveId(ms, assistantId);
    }
    var accumulated, hasError := DecodeStream(fetch.chunks, parse);
    r := ms;
    if accumulated != "" {
      r := SetContent(r, assistantId, accumulated);
    }
    if hasError {
      if accumulated == "" {
        r := RemoveId(r, assistantId);
      }
    } else if fetch.end == ReadFailed {
      r := RemoveId(r, assistantId);
    }
  }

  /** The placeholder survives an error only when some content arrived:
      with an error and no content it is gone from the list. */
  lemma PlaceholderRemovedWithoutContent(ms: seq<UiMessage>, assistantId: string, chunks: seq<string>, end: ReadEnd,
                                         parse: string -> Option<Payload>)
    requires Decode("", chunks, parse) == ("", true)
    ensures forall m :: m in AfterResponse(ms, assistantId, Responded(true, true, chunks, end), parse) ==> m.id != assistantId
  {
  }

  /** With content, the placeholder holds the whole reply. */
  lemma PlaceholderHoldsReply(ms: seq<UiMessage>, assistantId: string, chunks: seq<string>, parse: string -> Option<Payload>)
    requires Decode("", chunks, parse).0 != ""
    requires UiMessage(assistantId, Assistant, "") in ms
    ensures UiMessage(assistantId, Assistant, Decode("", chunks, parse).0) in
            AfterResponse(ms, assistantId, Responded(true, true, chunks, Finished), parse)
  {
    var k :| 0 <= k < |ms| && ms[k] == UiMessage(assistantId, Assistant, "");
    var r := SetContent(ms, assistantId, Decode("", chunks, parse).0);
    assert r[k] == UiMessage(assistantId, Assistant, Decode("", chunks, parse).0);
  }
}
