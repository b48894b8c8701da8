/**
 * The response stream of the chat route (app/api/chat/route.ts, lines
 * 202-234 and 243-257).
 *
 * The route answers with a stream whose `start` writes frames into a
 * controller and closes it.  On the normal path it sends one text frame per
 * chunk the model streams, then one properties frame per `searchProperties`
 * call of the last response message, then closes.  If anything throws on
 * the way, the frames already sent stay, one fallback text frame follows,
 * and the stream closes.  If the route fails before the stream exists (the
 * request body, starting the generation, the 55-second race), the outer
 * catch answers with a stream holding one text frame with the error.
 *
 * The generation itself is an input: the chunks it yields, whether its text
 * stream throws after them, and how its `response` settles.
 */
module ChatStream {
  import opened Wrappers
  import opened Json
  import opened Frames
  import opened Normalizer

  /** What a `catch` receives: an `Error` with its message, or any other thrown value. */
  datatype Thrown = ErrorObject(message: string) | OtherValue

  /** One tool call recorded in a response message; `result` is `undefined` until the tool has answered. */
  datatype ToolInvocation = ToolInvocation(toolName: string, result: Option<JsonValue>)

  /** A response message; `toolInvocations` may be `undefined`. */
  datatype Message = Message(role: string, toolInvocations: Option<seq<ToolInvocation>>)

  /** The settled `response` of a generation; `messages` may be `undefined`. */
  datatype Response = Response(messages: Option<seq<Message>>)

  /**
   * A generation as the stream sees it: the text chunks it yields, whether
   * iterating its text stream throws after them, and how `response` settles.
   */
  datatype Generation = Generation(chunks: seq<string>, streamThrows: bool, response: Result<Response, Thrown>)

  const Fallback: string := "Disculpa, tuve un problema. ¿Podrías intentarlo de nuevo?"

  const TechnicalPrefix: string := "Disculpa, hay un problema técnico: "

  /** The rejection the 55-second timer produces. */
  const Timeout: Thrown := ErrorObject("AI response timeout after 55s")

  /** The text of the outer catch's frame: the error's message, or a generic one for a non-`Error`. */
  function TechnicalMessage(e: Thrown): string
  {
    TechnicalPrefix + match e
      case ErrorObject(m) => m
      case OtherValue => "Error desconocido"
  }

  /** JavaScript truthiness of a value; `undefined` is falsy. */
  predicate Truthy(v: Option<JsonValue>)
  {
    match v
    case None => false
    case Some(JNull) => false
    case Some(JBool(b)) => b
    case Some(JNumber(n)) => n != 0
    case Some(JString(s)) => s != ""
    case Some(JArray(_)) => true
    case Some(JObject(_)) => true
  }

  /** `value.properties`: a member of an object, `undefined` for anything else. */
  function PropertiesOf(v: JsonValue): Option<JsonValue>
  {
    if v.JObject? then MemberValue(v.members, "properties") else None
  }

  /** Whether the inner loop sends a frame for this call. */
  predicate Sends(t: ToolInvocation)
  {
    t.toolName == "searchProperties" && Truthy(t.result)
  }

  function TextFrames(chunks: seq<string>): (fs: seq<Frame>)
    ensures |fs| == |chunks|
    ensures forall i | 0 <= i < |chunks| :: fs[i] == TextFrame(chunks[i])
  {
    if chunks == [] then [] else TextFrames(chunks[..|chunks| - 1]) + [TextFrame(chunks[|chunks| - 1])]
  }

  /** One properties frame per search call that has a result, in the order of the calls. */
  function PropertyFrames(calls: seq<ToolInvocation>): (fs: seq<Frame>)
    ensures |fs| <= |calls|
    ensures forall i | 0 <= i < |fs| :: fs[i].PropertiesFrame?
  {
    if calls == [] then []
    else
      var last := calls[|calls| - 1];
      PropertyFrames(calls[..|calls| - 1])
      + if Sends(last) then [PropertiesFrame(PropertiesOf(last.result.value))] else []
  }

  /** The tool calls whose results the stream forwards: those of the last message, when it is the assistant's. */
  function ForwardedCalls(r: Response): seq<ToolInvocation>
  {
    if r.messages.Some? && |r.messages.value| > 0 then
      var last := r.messages.value[|r.messages.value| - 1];
      if last.role == "assistant" && last.toolInvocations.Some? then last.toolInvocations.value else []
    else []
  }

  /** The frames the stream's `start` sends for a generation. */
  function StreamFrames(g: Generation): seq<Frame>
  {
    if g.streamThrows || g.response.Err? then TextFrames(g.chunks) + [TextFrame(Fallback)]
    else TextFrames(g.chunks) + PropertyFrames(ForwardedCalls(g.response.value))
  }

  /** The lines a sequence of frames puts into the controller. */
  function Encoded(fs: seq<Frame>): (ls: seq<string>)
    ensures |ls| == |fs|
    ensures forall i | 0 <= i < |fs| :: ls[i] == Encode(fs[i])
  {
    if fs == [] then [] else [Encode(fs[0])] + Encoded(fs[1..])
  }

  lemma EncodedAppend(a: seq<Frame>, b: seq<Frame>)
    ensures Encoded(a + b) == Encoded(a) + Encoded(b)
  {
    var l, r := Encoded(a + b), Encoded(a) + Encoded(b);
    forall i | 0 <= i < |l|
      ensures l[i] == r[i]
    {
      if i < |a| {
        assert (a + b)[i] == a[i];
      } else {
        assert (a + b)[i] == b[i - |a|];
      }
    }
  }

  /** The bytes on the wire, line after line. */
  function Concat(ls: seq<string>): string
  {
    if ls == [] then "" else ls[0] + Concat(ls[1..])
  }

  lemma {:induction false} ConcatEncoded(fs: seq<Frame>)
    ensures Concat(Encoded(fs)) == EncodeAll(fs)
  {
    if fs != [] {
      assert Encoded(fs)[1..] == Encoded(fs[1..]);
      ConcatEncoded(fs[1..]);
    }
  }

  /**
   * The controller of a readable stream: the lines enqueued so far and
   * whether the stream is closed.  Enqueueing into or closing a closed
   * stream throws, so neither is allowed once `closed` holds.
   */
  class StreamController {
    var frames: seq<string>
    var closed: bool

    constructor ()
      ensures frames == [] && !closed
    {
      frames := [];
      closed := false;
    }

    method Enqueue(line: string)
      requires !closed
      modifies this
      ensures frames == old(frames) + [line] && !closed
    {
      frames := frames + [line];
    }

    method Close()
      requires !closed
      modifies this
      ensures closed && frames == old(frames)
    {
      closed := true;
    }

    /** Everything the stream has delivered. */
    function Output(): string
      reads this
    {
      Concat(frames)
    }
  }

  /** The `for await` loop (lines 206-209): one text frame per chunk, in order. */
  method ForwardChunks(controller: StreamController, chunks: seq<string>)
    requires !controller.closed
    modifies controller
    ensures !controller.closed
    ensures controller.frames == old(controller.frames) + Encoded(TextFrames(chunks))
  {
    ghost var sent := controller.frames;
    var i := 0;
    while i < |chunks|
      invariant 0 <= i <= |chunks|
      invariant !controller.closed
      invariant controller.frames == sent + Encoded(TextFrames(chunks[..i]))
    {
      var chunk := chunks[i];
      AppendLine(sent, TextFrames(chunks[..i]), TextFrame(chunk));
      assert chunks[..i + 1][..i] == chunks[..i];
      controller.Enqueue(Encode(TextFrame(chunk)));
      i := i + 1;
    }
    assert chunks[..i] == chunks;
  }

  /** The inner `for` loop (lines 215-220): one properties frame per search call with a result, in order. */
  method ForwardResults(controller: StreamController, calls: seq<ToolInvocation>)
    requires !controller.closed
    modifies controller
    ensures !controller.closed
    ensures controller.frames == old(controller.frames) + Encoded(PropertyFrames(calls))
  {
    ghost var sent := controller.frames;
    var j := 0;
    while j < |calls|
      invariant 0 <= j <= |calls|
      invariant !controller.closed
      invariant controller.frames == sent + Encoded(PropertyFrames(calls[..j]))
    {
      var toolCall := calls[j];
      assert calls[..j + 1][..j] == calls[..j];
      if toolCall.toolName == "searchProperties" && Truthy(toolCall.result) {
        var frame := PropertiesFrame(PropertiesOf(toolCall.result.value));
        AppendLine(sent, PropertyFrames(calls[..j]), frame);
        controller.Enqueue(Encode(frame));
      } else {
        assert PropertyFrames(calls[..j + 1]) == PropertyFrames(calls[..j]) + [];
      }
      j := j + 1;
    }
    assert calls[..j] == calls;
  }

  /**
   * The stream's `start` (lines 204-233): forward each text chunk, then the
   * search results of the last response message, then close; on a throw,
   * one fallback frame and close.
   */
  method Start(controller: StreamController, g: Generation)
    requires !controller.closed
    modifies controller
    ensures controller.closed
    ensures controller.frames == old(controller.frames) + Encoded(StreamFrames(g))
  {
    ghost var sent := controller.frames;
    ForwardChunks(controller, g.chunks);
    if g.streamThrows || g.response.Err? {
      AppendLine(sent, TextFrames(g.chunks), TextFrame(Fallback));
      controller.Enqueue(Encode(TextFrame(Fallback)));
      controller.Close();
      return;
    }

    var response := g.response.value;
    var calls: seq<ToolInvocation> := [];
    if response.messages.Some? && |response.messages.value| > 0 {
      var lastMessage := response.messages.value[|response.messages.value| - 1];
      if lastMessage.role == "assistant" && lastMessage.toolInvocations.Some? {
        calls := lastMessage.toolInvocations.value;
      }
    }
    assert calls == ForwardedCalls(response);
    ForwardResults(controller, calls);
    EncodedAppend(TextFrames(g.chunks), PropertyFrames(calls));
    AppendAssoc(sent, Encoded(TextFrames(g.chunks)), Encoded(PropertyFrames(calls)));
    assert StreamFrames(g) == TextFrames(g.chunks) + PropertyFrames(calls);
    controller.Close();
  }

  lemma AppendAssoc(a: seq<string>, b: seq<string>, c: seq<string>)
    ensures a + b + c == a + (b + c)
  {
  }

  /** Enqueueing one more frame's line extends the frames sent by that frame. */
  lemma AppendLine(sent: seq<string>, fs: seq<Frame>, f: Frame)
    ensures sent + Encoded(fs) + [Encode(f)] == sent + Encoded(fs + [f])
  {
    EncodedAppend(fs, [f]);
    assert Encoded([f]) == [Encode(f)];
  }

  /** The outer catch's stream (lines 247-256): one frame with the error, then close. */
  method FailStart(controller: StreamController, error: Thrown)
    requires !controller.closed
    modifies controller
    ensures controller.closed
    ensures controller.frames == old(controller.frames) + [Encode(TextFrame(TechnicalMessage(error)))]
  {
    var errorMsg := match error case ErrorObject(m) => m case OtherValue => "Error desconocido";
    controller.Enqueue(Encode(TextFrame("Disculpa, hay un problema técnico: " + errorMsg)));
    controller.Close();
  }

  /** The frames of the whole response: the stream's, or the outer catch's one frame. */
  function RouteFrames(launch: Result<Generation, Thrown>): seq<Frame>
  {
    match launch
    case Ok(g) => StreamFrames(g)
    case Err(e) => [TextFrame(TechnicalMessage(e))]
  }

  /**
   * The route: `launch` is how reading the request and starting the
   * generation settled (a rejection of the 55-second race is `Err(Timeout)`).
   * Either way the answer is a new stream that ends closed.
   */
  method Post(launch: Result<Generation, Thrown>) returns (controller: StreamController)
    ensures fresh(controller)
    ensures controller.closed
    ensures controller.frames == Encoded(RouteFrames(launch))
    ensures Decode(controller.Output()) == Some(RouteFrames(launch))
  {
    controller := new StreamController();
    match launch {
      case Ok(g) =>
        Start(controller, g);
      case Err(e) =>
        FailStart(controller, e);
    }
    OutputReadsBack(controller, RouteFrames(launch));
  }

  // ---------------------------------------------------------------------
  // What a client of the route can rely on.

  /** A client splitting the response at newlines and parsing each line gets the route's frames, in order. */
  lemma ClientReadsFrames(launch: Result<Generation, Thrown>)
    ensures Decode(Concat(Encoded(RouteFrames(launch)))) == Some(RouteFrames(launch))
  {
    ConcatEncoded(RouteFrames(launch));
    DecodeEncoded(RouteFrames(launch));
  }

  /** A stream holding the lines of a run of frames is read back as those frames. */
  lemma OutputReadsBack(controller: StreamController, fs: seq<Frame>)
    requires controller.frames == Encoded(fs)
    ensures Decode(controller.Output()) == Some(fs)
  {
    ConcatEncoded(fs);
    DecodeEncoded(fs);
  }

  /** Every line the route sends ends in its only newline. */
  lemma OneNewlinePerFrame(launch: Result<Generation, Thrown>)
    ensures forall i | 0 <= i < |Encoded(RouteFrames(launch))| ::
      var line := Encoded(RouteFrames(launch))[i];
      |line| > 0 && line[|line| - 1] == '\n' && '\n' !in line[..|line| - 1]
  {
  }

  /**
   * When the generation fails part way, the text frames already sent are
   * kept and exactly one more frame, the fallback text, follows them.
   */
  lemma FailureKeepsSentFrames(g: Generation)
    requires g.streamThrows || g.response.Err?
    ensures |StreamFrames(g)| == |g.chunks| + 1
    ensures StreamFrames(g)[..|g.chunks|] == TextFrames(g.chunks)
    ensures StreamFrames(g)[|g.chunks|] == TextFrame(Fallback)
  {
    assert StreamFrames(g)[..|g.chunks|] == TextFrames(g.chunks);
  }

  /**
   * On success every chunk becomes one text frame, in order, and they all
   * come before every properties frame; the frames after them are exactly
   * the forwarded search results.
   */
  lemma SuccessOrder(g: Generation)
    requires !g.streamThrows && g.response.Ok?
    ensures StreamFrames(g)[..|g.chunks|] == TextFrames(g.chunks)
    ensures forall i | |g.chunks| <= i < |StreamFrames(g)| :: StreamFrames(g)[i].PropertiesFrame?
    ensures forall i, j | 0 <= i < j < |StreamFrames(g)| ::
      StreamFrames(g)[i].PropertiesFrame? ==> StreamFrames(g)[j].PropertiesFrame?
  {
    var fs := StreamFrames(g);
    var ps := PropertyFrames(ForwardedCalls(g.response.value));
    assert fs == TextFrames(g.chunks) + ps;
    assert fs[..|g.chunks|] == TextFrames(g.chunks);
    forall i | |g.chunks| <= i < |fs|
      ensures fs[i].PropertiesFrame?
    {
      assert fs[i] == ps[i - |g.chunks|];
    }
  }

  /** Exactly one properties frame per forwarded search call that has a truthy result. */
  lemma {:induction false} PropertyFramesCount(calls: seq<ToolInvocation>)
    ensures |PropertyFrames(calls)| == |SentCalls(calls)|
    ensures forall i | 0 <= i < |PropertyFrames(calls)| ::
      PropertyFrames(calls)[i] == PropertiesFrame(PropertiesOf(SentCalls(calls)[i].result.value))
  {
    if calls != [] {
      PropertyFramesCount(calls[..|calls| - 1]);
    }
  }

  /** The calls the inner loop sends a frame for, in order. */
  function SentCalls(calls: seq<ToolInvocation>): (ss: seq<ToolInvocation>)
    ensures forall i | 0 <= i < |ss| :: Sends(ss[i])
    ensures forall t | t in ss :: t in calls
  {
    if calls == [] then []
    else SentCalls(calls[..|calls| - 1]) + if Sends(calls[|calls| - 1]) then [calls[|calls| - 1]] else []
  }

  /** Every call that passes the test is sent, as often as it occurs, and no other call is. */
  lemma {:induction false} SentCallsComplete(calls: seq<ToolInvocation>)
    ensures forall t :: multiset(SentCalls(calls))[t] == if Sends(t) then multiset(calls)[t] else 0
  {
    if calls != [] {
      var init, last := calls[..|calls| - 1], calls[|calls| - 1];
      assert calls == init + [last];
      SentCallsComplete(init);
    }
  }

  /** The calls of two runs are sent in order: those of the first run, then those of the second. */
  lemma {:induction false} SentCallsAppend(a: seq<ToolInvocation>, b: seq<ToolInvocation>)
    ensures SentCalls(a + b) == SentCalls(a) + SentCalls(b)
    decreases |b|
  {
    if b == [] {
      assert a + b == a;
    } else {
      var init, last := b[..|b| - 1], b[|b| - 1];
      assert (a + b)[..|a + b| - 1] == a + init;
      assert (a + b)[|a + b| - 1] == last;
      SentCallsAppend(a, init);
    }
  }

  /** The frames of two runs of calls are those of the first run, then those of the second. */
  lemma {:induction false} PropertyFramesAppend(a: seq<ToolInvocation>, b: seq<ToolInvocation>)
    ensures PropertyFrames(a + b) == PropertyFrames(a) + PropertyFrames(b)
    decreases |b|
  {
    if b == [] {
      assert a + b == a;
    } else {
      var init, last := b[..|b| - 1], b[|b| - 1];
      assert (a + b)[..|a + b| - 1] == a + init;
      assert (a + b)[|a + b| - 1] == last;
      PropertyFramesAppend(a, init);
    }
  }

  /** A single call is sent, and gives its one frame, exactly when it passes the test. */
  lemma SentCallsSingle(t: ToolInvocation)
    ensures SentCalls([t]) == if Sends(t) then [t] else []
    ensures PropertyFrames([t]) == if Sends(t) then [PropertiesFrame(PropertiesOf(t.result.value))] else []
  {
    assert [t][..0] == [];
  }

  /** A search call's properties frame carries every summary the tool produced, in order. */
  lemma SearchResultFrame(t: ToolResult)
    ensures PropertiesOf(ResultJson(t)) == Some(JArray(SummariesJson(t.properties)))
    ensures Sends(ToolInvocation("searchProperties", Some(ResultJson(t))))
  {
  }

  /** The outer catch reports the timer's rejection with its message. */
  lemma TimeoutText()
    ensures TechnicalMessage(Timeout) == TechnicalPrefix + "AI response timeout after 55s"
    ensures RouteFrames(Err(Timeout)) == [TextFrame(TechnicalPrefix + "AI response timeout after 55s")]
  {
  }
}
