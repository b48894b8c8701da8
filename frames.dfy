/**
 * The frames of the chat stream (app/api/chat/route.ts, lines 207-208,
 * 217-218, 226-230 and 247-252).
 *
 * Every frame is one JSON object followed by a newline: a text frame is
 * `{"type":"text","content":...}`, a properties frame is
 * `{"type":"properties","properties":...}`, where `JSON.stringify` leaves
 * the `properties` member out when the tool result has none.  Because the
 * escaping of strings leaves no raw newline inside a frame, a client that
 * splits the stream at newlines and parses every line gets the frames back
 * in order.
 */
module Frames {
  import opened Wrappers
  import opened Json
  import opened JsonParse

  /** One message of the stream: streamed text, or the properties a tool call found. */
  datatype Frame = TextFrame(content: string) | PropertiesFrame(properties: Option<JsonValue>)

  /** The object the route passes to `JSON.stringify`, members in the order it writes them. */
  function FrameJson(f: Frame): JsonValue
  {
    match f
    case TextFrame(s) => JObject([Member("type", JString("text")), Member("content", JString(s))])
    case PropertiesFrame(p) =>
      JObject([Member("type", JString("properties"))] + if p.Some? then [Member("properties", p.value)] else [])
  }

  /** How a client reads a parsed line back as a frame. */
  function FromJson(v: JsonValue): Option<Frame>
  {
    if v.JObject? && |v.members| == 2 && v.members[0] == Member("type", JString("text"))
       && v.members[1].key == "content" && v.members[1].value.JString? then
      Some(TextFrame(v.members[1].value.s))
    else if v.JObject? && |v.members| == 1 && v.members[0] == Member("type", JString("properties")) then
      Some(PropertiesFrame(None))
    else if v.JObject? && |v.members| == 2 && v.members[0] == Member("type", JString("properties"))
       && v.members[1].key == "properties" then
      Some(PropertiesFrame(Some(v.members[1].value)))
    else
      None
  }

  lemma FrameRoundTrip(f: Frame)
    ensures FromJson(FrameJson(f)) == Some(f)
  {
  }

  /** The line the route enqueues for a frame: the JSON text and one newline, its only newline. */
  function Encode(f: Frame): (line: string)
    ensures |line| > 0 && line[|line| - 1] == '\n'
    ensures '\n' !in line[..|line| - 1]
  {
    StringifyNoControl(FrameJson(f));
    assert (Stringify(FrameJson(f)) + "\n")[..|Stringify(FrameJson(f))|] == Stringify(FrameJson(f));
    Stringify(FrameJson(f)) + "\n"
  }

  /** Everything a sequence of frames puts on the wire, in order. */
  function EncodeAll(fs: seq<Frame>): string
  {
    if fs == [] then "" else Encode(fs[0]) + EncodeAll(fs[1..])
  }

  lemma {:induction false} EncodeAllAppend(a: seq<Frame>, b: seq<Frame>)
    ensures EncodeAll(a + b) == EncodeAll(a) + EncodeAll(b)
  {
    if a != [] {
      assert (a + b)[0] == a[0];
      assert (a + b)[1..] == a[1..] + b;
      EncodeAllAppend(a[1..], b);
    } else {
      assert a + b == b;
    }
  }

  /** The text up to the first newline, and what follows it; `None` when there is no newline. */
  function NextLine(s: string): (r: Option<(string, string)>)
    ensures r.Some? ==> |r.value.1| < |s|
  {
    if s == [] then None
    else if s[0] == '\n' then Some(([], s[1..]))
    else match NextLine(s[1..])
      case None => None
      case Some((line, rest)) => Some(([s[0]] + line, rest))
  }

  /** The complete lines of a text; an unterminated tail is kept as a last line. */
  function Lines(s: string): seq<string>
    decreases |s|
  {
    match NextLine(s)
    case None => if s == [] then [] else [s]
    case Some((line, rest)) => [line] + Lines(rest)
  }

  lemma {:induction false} NextLineOf(x: string, rest: string)
    requires '\n' !in x
    ensures NextLine(x + "\n" + rest) == Some((x, rest))
  {
    if x == [] {
      assert x + "\n" + rest == "\n" + rest;
      assert ("\n" + rest)[1..] == rest;
    } else {
      assert (x + "\n" + rest)[0] == x[0];
      assert (x + "\n" + rest)[1..] == x[1..] + "\n" + rest;
      assert forall c | c in x[1..] :: c in x;
      NextLineOf(x[1..], rest);
      assert [x[0]] + x[1..] == x;
    }
  }

  /** The JSON text of every frame, in order. */
  function Texts(fs: seq<Frame>): (ts: seq<string>)
    ensures |ts| == |fs|
    ensures forall i | 0 <= i < |fs| :: ts[i] == Stringify(FrameJson(fs[i]))
  {
    if fs == [] then [] else [Stringify(FrameJson(fs[0]))] + Texts(fs[1..])
  }

  /** Splitting the stream at newlines gives one line per frame, each that frame's JSON text. */
  lemma {:induction false} LinesOfFrames(fs: seq<Frame>)
    ensures Lines(EncodeAll(fs)) == Texts(fs)
  {
    if fs != [] {
      var t := Stringify(FrameJson(fs[0]));
      StringifyNoControl(FrameJson(fs[0]));
      NextLineOf(t, EncodeAll(fs[1..]));
      assert EncodeAll(fs) == t + "\n" + EncodeAll(fs[1..]);
      LinesOfFrames(fs[1..]);
    }
  }

  /** What a client makes of the stream: every line parsed and read as a frame, or `None` if one is not. */
  function DecodeLines(lines: seq<string>): Option<seq<Frame>>
  {
    if lines == [] then Some([])
    else match Parse(lines[0])
      case None => None
      case Some(v) =>
        match FromJson(v)
        case None => None
        case Some(f) =>
          match DecodeLines(lines[1..])
          case None => None
          case Some(rest) => Some([f] + rest)
  }

  function Decode(s: string): Option<seq<Frame>>
  {
    DecodeLines(Lines(s))
  }

  lemma {:induction false} DecodeTexts(fs: seq<Frame>)
    ensures DecodeLines(Texts(fs)) == Some(fs)
  {
    if fs != [] {
      ParseRoundTrip(FrameJson(fs[0]));
      FrameRoundTrip(fs[0]);
      assert Texts(fs)[1..] == Texts(fs[1..]);
      DecodeTexts(fs[1..]);
      assert [fs[0]] + fs[1..] == fs;
    }
  }

  /** A client reading the stream gets exactly the frames that were sent, in order. */
  lemma DecodeEncoded(fs: seq<Frame>)
    ensures Decode(EncodeAll(fs)) == Some(fs)
  {
    LinesOfFrames(fs);
    DecodeTexts(fs);
  }
}
