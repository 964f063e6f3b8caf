/** `POST /api/chat`: the user's message is stored, the conversation's
    history is sent to the language model, and the model's event stream
    is relayed to the browser as server-sent events: one frame per text
    delta, the stored assistant reply and a `[DONE]` frame when the message
    stops, and one error frame when streaming fails.

    The stream controller is a class whose `enqueue` and `close` throw once
    it is closed. The model's stream is an input: the events it yields and
    the error it throws after them, if any. */
module ChatRoute {
  import opened Common
  import opened Store
  import Json
  import Deployment

  datatype StreamEvent =
    | TextDelta(text: string)   // `content_block_delta` with a `text_delta`
    | OtherDelta                // any other `content_block_delta`
    | MessageStop
    | OtherEvent

  datatype ModelStream = ModelStream(events: seq<StreamEvent>, thrown: Option<Error>)

  datatype ChatMessage = ChatMessage(role: Role, content: string)

  datatype ChatRequest = ChatRequest(model: string, maxTokens: nat, messages: seq<ChatMessage>)

  datatype ChatBody = ChatBody(conversationId: Option<string>, message: Option<string>)

  datatype Reply =
    | JsonError(status: int, error: string)
    | EventStream(frames: seq<string>, closed: bool)

  const HistoryLimit: nat := 10
  const MaxTokens: nat := 4096

  function Frame(data: string): string
  {
    "data: " + data + "\n\n"
  }

  /** `JSON.stringify({ content: text })` */
  function ContentPayload(text: string): string
  {
    "{\"content\":" + Json.Quote(text) + "}"
  }

  /** `JSON.stringify({ error: 'Streaming failed' })` */
  const ErrorPayload: string := "{\"error\":\"Streaming failed\"}"

  function DeltaFrame(text: string): string
  {
    Frame(ContentPayload(text))
  }

  const DoneFrame: string := Frame("[DONE]")
  const ErrorFrame: string := Frame(ErrorPayload)

  /** The `ReadableStream` controller: the frames enqueued so far and
      whether it is closed. */
  class Controller {
    var frames: seq<string>
    var closed: bool

    constructor ()
      ensures frames == [] && !closed
    {
      frames := [];
      closed := false;
    }

    /** `enqueue`: throws (`ok` false) on a closed stream. */
    method Enqueue(frame: string) returns (ok: bool)
      modifies this`frames
      ensures ok == !closed
      ensures frames == if ok then old(frames) + [frame] else old(frames)
    {
      ok := !closed;
      if ok {
        frames := frames + [frame];
      }
    }

    /** `close`: throws (`ok` false) on a closed stream. */
    method Close() returns (ok: bool)
      modifies this`closed
      ensures ok == !old(closed) && closed
    {
      ok := !closed;
      closed := true;
    }
  }

  // ---------------------------------------------------------------------
  // The relay loop as a function of the events.
  // ---------------------------------------------------------------------

  /** The state of the relay: the text so far, the frames sent, the
      assistant rows stored, whether the stream is closed, and whether the
      loop has been left for the `catch`. */
  datatype Relay = Relay(full: string, frames: seq<string>, stored: seq<MessageRow>, closed: bool, failed: bool)

  const Start: Relay := Relay("", [], [], false, false)

  /** The `catch` block: an error frame and `close`, unless the stream is
      closed already, in which case the first `enqueue` throws again and
      nothing more is sent. */
  function Catch(s: Relay): (r: Relay)
    ensures r.failed && r.closed && r.stored == s.stored && r.full == s.full
    ensures r.frames == if s.closed then s.frames else s.frames + [ErrorFrame]
  {
    if s.closed then s.(failed := true)
    else s.(frames := s.frames + [ErrorFrame], closed := true, failed := true)
  }

  function Step(conversationId: string, s: Relay, e: StreamEvent): Relay
  {
    if s.failed then s
    else
      match e
      case TextDelta(text) =>
        var s1 := s.(full := s.full + text);
        if s1.closed then Catch(s1) else s1.(frames := s1.frames + [DeltaFrame(text)])
      case MessageStop =>
        var s1 := s.(stored := s.stored + [MessageRow(conversationId, Assistant, s.full)]);
        if s1.closed then Catch(s1) else s1.(frames := s1.frames + [DoneFrame], closed := true)
      case _ => s
  }

  function Feed(conversationId: string, s: Relay, events: seq<StreamEvent>): Relay
    decreases |events|
  {
    if |events| == 0 then s else Feed(conversationId, Step(conversationId, s, events[0]), events[1..])
  }

  /** The whole `start` of the stream, given the outcome of the call. */
  function Relayed(conversationId: string, call: Result<ModelStream, Error>): Relay
  {
    match call
    case Failure(_) => Catch(Start)
    case Success(stream) =>
      var s := Feed(conversationId, Start, stream.events);
      if stream.thrown.Some? && !s.failed then Catch(s) else s
  }

  lemma {:induction false} FeedFailed(conversationId: string, s: Relay, events: seq<StreamEvent>)
    requires s.failed
    ensures Feed(conversationId, s, events) == s
    decreases |events|
  {
    if |events| > 0 {
      FeedFailed(conversationId, s, events[1..]);
    }
  }

  /** The text deltas among the events, concatenated. */
  function Texts(events: seq<StreamEvent>): string
    decreases |events|
  {
    if |events| == 0 then ""
    else (if events[0].TextDelta? then events[0].text else "") + Texts(events[1..])
  }

  /** One frame per text delta, in order. */
  function DeltaFrames(events: seq<StreamEvent>): seq<string>
    decreases |events|
  {
    if |events| == 0 then []
    else (if events[0].TextDelta? then [DeltaFrame(events[0].text)] else []) + DeltaFrames(events[1..])
  }

  predicate NoStop(events: seq<StreamEvent>)
  {
    forall k :: 0 <= k < |events| ==> !events[k].MessageStop?
  }

  /** Before any stop, each text delta is appended to the text and sent
      as one frame, in order, and nothing is stored. */
  lemma {:induction false} FeedDeltas(conversationId: string, s: Relay, events: seq<StreamEvent>)
    requires !s.failed && !s.closed && NoStop(events)
    ensures Feed(conversationId, s, events) ==
            s.(full := s.full + Texts(events), frames := s.frames + DeltaFrames(events))
    decreases |events|
  {
    if |events| == 0 {
      assert s.full + "" == s.full;
      assert s.frames + [] == s.frames;
    } else {
      var e, rest := events[0], events[1..];
      var s1 := Step(conversationId, s, e);
      FeedDeltas(conversationId, s1, rest);
      var t := if e.TextDelta? then e.text else "";
      var f := if e.TextDelta? then [DeltaFrame(e.text)] else [];
      assert s1 == s.(full := s.full + t, frames := s.frames + f);
      assert Texts(events) == t + Texts(rest);
      assert DeltaFrames(events) == f + DeltaFrames(rest);
      AppendAssoc(s.full, t, Texts(rest));
      AppendAssoc(s.frames, f, DeltaFrames(rest));
    }
  }

  /** Once the stream is closed, no frame is sent any more and stored rows
      are kept. */
  lemma {:induction false} FeedClosed(conversationId: string, s: Relay, events: seq<StreamEvent>)
    requires s.closed
    ensures var r := Feed(conversationId, s, events);
            r.closed && r.frames == s.frames && |s.stored| <= |r.stored| && r.stored[..|s.stored|] == s.stored
    decreases |events|
  {
    if |events| > 0 {
      var s1 := Step(conversationId, s, events[0]);
      FeedClosed(conversationId, s1, events[1..]);
      var r := Feed(conversationId, s1, events[1..]);
      assert s1.stored == s.stored || s1.stored == s.stored + [MessageRow(conversationId, Assistant, s.full)];
      assert r.stored[..|s.stored|] == r.stored[..|s1.stored|][..|s.stored|];
    }
  }

  lemma {:induction false} FeedAppend(conversationId: string, s: Relay, a: seq<StreamEvent>, b: seq<StreamEvent>)
    ensures Feed(conversationId, s, a + b) == Feed(conversationId, Feed(conversationId, s, a), b)
    decreases |a|
  {
    if |a| == 0 {
      assert a + b == b;
    } else {
      assert (a + b)[0] == a[0];
      assert (a + b)[1..] == a[1..] + b;
      FeedAppend(conversationId, Step(conversationId, s, a[0]), a[1..], b);
    }
  }

  /** A stream that stops: the frames are the deltas before the stop and
      then `[DONE]`, the stream is closed, and the first stored assistant
      row holds exactly the text of those deltas. */
  lemma StopStoresReply(conversationId: string, pre: seq<StreamEvent>, post: seq<StreamEvent>, thrown: Option<Error>)
    requires NoStop(pre)
    ensures var r := Relayed(conversationId, Success(ModelStream(pre + [MessageStop] + post, thrown)));
            r.frames == DeltaFrames(pre) + [DoneFrame] && r.closed &&
            |r.stored| >= 1 && r.stored[0] == MessageRow(conversationId, Assistant, Texts(pre))
  {
    FeedAppend(conversationId, Start, pre + [MessageStop], post);
    FeedAppend(conversationId, Start, pre, [MessageStop]);
    FeedDeltas(conversationId, Start, pre);
    var s := Feed(conversationId, Start, pre);
    assert s.full == Texts(pre) && s.frames == DeltaFrames(pre) by {
      assert "" + Texts(pre) == Texts(pre);
      assert [] + DeltaFrames(pre) == DeltaFrames(pre);
    }
    var s1 := Step(conversationId, s, MessageStop);
    assert Feed(conversationId, s, [MessageStop]) == s1;
    FeedClosed(conversationId, s1, post);
    var r := Feed(conversationId, s1, post);
    assert r.stored[..1] == s1.stored;
    if thrown.Some? && !r.failed {
      assert Catch(r).frames == r.frames;
    }
  }

  /** A stream that fails before any stop: the deltas' frames, then one
      error frame, then the stream is closed; nothing is stored. */
  lemma FailureFrame(conversationId: string, events: seq<StreamEvent>, e: Error)
    requires NoStop(events)
    ensures var r := Relayed(conversationId, Success(ModelStream(events, Some(e))));
            r.frames == DeltaFrames(events) + [ErrorFrame] && r.closed && r.stored == []
  {
    FeedDeltas(conversationId, Start, events);
    assert [] + DeltaFrames(events) == DeltaFrames(events);
  }

  /** A stream that ends with neither a stop nor an error leaves the
      response open after the deltas' frames. */
  lemma EndWithoutStop(conversationId: string, events: seq<StreamEvent>)
    requires NoStop(events)
    ensures var r := Relayed(conversationId, Success(ModelStream(events, None)));
            r.frames == DeltaFrames(events) && !r.closed && r.stored == []
  {
    FeedDeltas(conversationId, Start, events);
    assert [] + DeltaFrames(events) == DeltaFrames(events);
  }

  /** The relay loop on the controller, proved to follow `Relayed`. */
  method Stream(db: Database, controller: Controller, conversationId: string, call: Result<ModelStream, Error>)
    requires controller.frames == [] && !controller.closed
    modifies db`messages, controller
    ensures var r := Relayed(conversationId, call);
            controller.frames == r.frames && controller.closed == r.closed &&
            db.messages == old(db.messages) + r.stored
  {
    if call.Failure? {
      CatchOn(controller);
      return;
    }
    var events := call.value.events;
    ghost var m0 := db.messages;
    ghost var stored: seq<MessageRow> := [];
    var full := "";
    var failed := false;
    var i := 0;
    while i < |events| && !failed
      invariant 0 <= i <= |events|
      invariant db.messages == m0 + stored
      invariant Feed(conversationId, Relay(full, controller.frames, stored, controller.closed, failed), events[i..]) ==
                Feed(conversationId, Start, events)
    {
      assert events[i..][0] == events[i] && events[i..][1..] == events[i + 1..];
      full, stored, failed := RelayEvent(db, controller, conversationId, full, m0, stored, events[i]);
      i := i + 1;
    }
    if failed {
      FeedFailed(conversationId, Relay(full, controller.frames, stored, controller.closed, failed), events[i..]);
    }
    if call.value.thrown.Some? && !failed {
      CatchOn(controller);
    }
  }

  /** One iteration of the `for await` loop, on a stream not yet failed. */
  method RelayEvent(db: Database, controller: Controller, conversationId: string, full: string,
                    ghost m0: seq<MessageRow>, ghost stored: seq<MessageRow>, e: StreamEvent)
    returns (full': string, ghost stored': seq<MessageRow>, failed': bool)
    requires db.messages == m0 + stored
    modifies db`messages, controller
    ensures db.messages == m0 + stored'
    ensures Relay(full', controller.frames, stored', controller.closed, failed') ==
            Step(conversationId, Relay(full, old(controller.frames), stored, old(controller.closed), false), e)
  {
    full', stored', failed' := full, stored, false;
    match e {
      case TextDelta(text) =>
        full' := full + text;
        var ok := controller.Enqueue(DeltaFrame(text));
        if !ok {
          CatchOn(controller);
          failed' := true;
        }
      case MessageStop =>
        db.InsertMessage(MessageRow(conversationId, Assistant, full));
        stored' := stored + [MessageRow(conversationId, Assistant, full)];
        var ok := controller.Enqueue(DoneFrame);
        if ok {
          ok := controller.Close();
        } else {
          CatchOn(controller);
          failed' := true;
        }
      case _ =>
    }
  }

  /** The `catch` on the controller. */
  method CatchOn(controller: Controller)
    modifies controller
    ensures controller.closed
    ensures controller.frames == if old(controller.closed) then old(controller.frames) else old(controller.frames) + [ErrorFrame]
  {
    var ok := controller.Enqueue(ErrorFrame);
    if ok {
      ok := controller.Close();
    }
  }

  // ---------------------------------------------------------------------
  // The history sent to the model.
  // ---------------------------------------------------------------------

  /** The conversation's rows, in `created_at` order. */
  function ConversationRows(rows: seq<MessageRow>, conversationId: string): (r: seq<MessageRow>)
    ensures |r| <= |rows|
    ensures forall k :: 0 <= k < |r| ==> r[k].conversationId == conversationId && r[k] in rows
    ensures forall row :: row in rows && row.conversationId == conversationId ==> row in r
    decreases |rows|
  {
    if |rows| == 0 then []
    else (if rows[0].conversationId == conversationId then [rows[0]] else []) + ConversationRows(rows[1..], conversationId)
  }

  lemma {:induction false} ConversationRowsAppend(rows: seq<MessageRow>, row: MessageRow)
    ensures ConversationRows(rows + [row], row.conversationId) == ConversationRows(rows, row.conversationId) + [row]
    decreases |rows|
  {
    if |rows| == 0 {
      assert rows + [row] == [row];
      assert [row][1..] == [];
    } else {
      assert (rows + [row])[0] == rows[0];
      assert (rows + [row])[1..] == rows[1..] + [row];
      ConversationRowsAppend(rows[1..], row);
    }
  }

  function AsMessages(rows: seq<MessageRow>): (m: seq<ChatMessage>)
    ensures |m| == |rows|
    ensures forall k :: 0 <= k < |rows| ==> m[k] == ChatMessage(rows[k].role, rows[k].content)
    decreases |rows|
  {
    if |rows| == 0 then [] else [ChatMessage(rows[0].role, rows[0].content)] + AsMessages(rows[1..])
  }

  /** The history as the route selects it: `order(created_at, ascending)`
      then `limit(10)`, which are the OLDEST ten rows. */
  function OldestHistory(rows: seq<MessageRow>, conversationId: string): seq<ChatMessage>
  {
    var c := ConversationRows(rows, conversationId);
    AsMessages(if |c| <= HistoryLimit then c else c[..HistoryLimit])
  }

  /** Once a conversation has ten rows, the message just stored does not
      reach the model: the history is the same with or without it. */
  lemma OldestHistoryIgnoresNewMessage(rows: seq<MessageRow>, conversationId: string, message: string)
    requires |ConversationRows(rows, conversationId)| >= HistoryLimit
    ensures OldestHistory(rows + [MessageRow(conversationId, User, message)], conversationId) ==
            OldestHistory(rows, conversationId)
  {
    var row := MessageRow(conversationId, User, message);
    ConversationRowsAppend(rows, row);
    var c := ConversationRows(rows, conversationId);
    assert (c + [row])[..HistoryLimit] == c[..HistoryLimit];
  }

  /** The history the route evidently means: the latest ten rows, oldest
      first. */
  function RecentHistory(rows: seq<MessageRow>, conversationId: string): seq<ChatMessage>
  {
    var c := ConversationRows(rows, conversationId);
    AsMessages(if |c| <= HistoryLimit then c else c[|c| - HistoryLimit..])
  }

  /** The message just stored is always the last message the model sees,
      and the model sees at most ten. */
  lemma RecentHistoryEndsWithNewMessage(rows: seq<MessageRow>, conversationId: string, message: string)
    ensures var h := RecentHistory(rows + [MessageRow(conversationId, User, message)], conversationId);
            1 <= |h| <= HistoryLimit && h[|h| - 1] == ChatMessage(User, message)
  {
    ConversationRowsAppend(rows, MessageRow(conversationId, User, message));
  }

  /** Below ten earlier rows the two selections agree, so the message just
      stored is the last one the model sees. */
  lemma OldestHistoryBelowLimit(rows: seq<MessageRow>, conversationId: string, message: string)
    requires |ConversationRows(rows, conversationId)| < HistoryLimit
    ensures var h := OldestHistory(rows + [MessageRow(conversationId, User, message)], conversationId);
            h == RecentHistory(rows + [MessageRow(conversationId, User, message)], conversationId) &&
            |h| == |ConversationRows(rows, conversationId)| + 1 && h[|h| - 1] == ChatMessage(User, message)
  {
    ConversationRowsAppend(rows, MessageRow(conversationId, User, message));
  }

  /** The model request the route builds, with the history as written. */
  function Request(rows: seq<MessageRow>, conversationId: string): ChatRequest
  {
    ChatRequest(Deployment.Model, MaxTokens, OldestHistory(rows, conversationId))
  }

  // ---------------------------------------------------------------------
  // The route.
  // ---------------------------------------------------------------------

  /** `POST /api/chat`: 401 without a user, 500 when the body cannot be
      read, 400 without a conversation or a message; otherwise the user's
      message is stored first, the history is read after it, and the reply
      is the relayed stream. */
  method HandlePost(db: Database, user: Option<string>, body: Result<ChatBody, Error>,
                    model: ChatRequest -> Result<ModelStream, Error>)
    returns (reply: Reply)
    modifies db`messages
    ensures user.None? ==> reply == JsonError(401, "Unauthorized") && db.messages == old(db.messages)
    ensures user.Some? && body.Failure? ==> reply == JsonError(500, "Internal server error") && db.messages == old(db.messages)
    ensures user.Some? && body.Success? && !(Truthy(body.value.conversationId) && Truthy(body.value.message)) ==>
              reply == JsonError(400, "Missing required fields") && db.messages == old(db.messages)
    ensures user.Some? && body.Success? && Truthy(body.value.conversationId) && Truthy(body.value.message) ==>
              var id := body.value.conversationId.value;
              var rows := old(db.messages) + [MessageRow(id, User, body.value.message.value)];
              var r := Relayed(id, model(Request(rows, id)));
              reply == EventStream(r.frames, r.closed) && db.messages == rows + r.stored
  {
    if user.None? {
      return JsonError(401, "Unauthorized");
    }
    if body.Failure? {
      return JsonError(500, "Internal server error");
    }
    var b := body.value;
    if !Truthy(b.conversationId) || !Truthy(b.message) {
      return JsonError(400, "Missing required fields");
    }
    var id := b.conversationId.value;
    db.InsertMessage(MessageRow(id, User, b.message.value));
    var history := OldestHistory(db.messages, id);
    var controller := new Controller();
    Stream(db, controller, id, model(ChatRequest(Deployment.Model, MaxTokens, history)));
    reply := EventStream(controller.frames, controller.closed);
  }
}
