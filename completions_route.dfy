/**
 * The mock chat-completions endpoint (`app/api/v1/chat/completions/route.ts`):
 * how it reads the request body, the event-stream frames it sends one
 * character at a time, the whole reply it sends when streaming is off, and
 * the internal-error reply. The clock is a parameter: `clock(k)` is the
 * k-th reading of `Date.now()`, two readings per frame.
 */
module CompletionsRoute {
  import opened Wrappers
  import opened Json
  import opened Text
  import opened LawyerClient

  /** The text the streaming reply types out. */
  const MockStreamText: string := "I'm a mock AI legal assistant. This is a demonstration response that would normally come from your configured AI provider.\n\nFor production use, you'll need to:\n1. Set up your API endpoint in Admin Settings\n2. Configure your AI provider (OpenAI, Anthropic, etc.)\n3. Add proper authentication\n\nThis mock response is streaming character by character to demonstrate the real-time functionality."

  /** The content of the whole (non-streaming) reply. */
  const MockReplyText: string := "This is a mock response. Please configure your AI provider in Admin Settings."

  const DefaultModel: string := "gpt-4"

  /** The body of the 500 reply. */
  const ErrorBody: Json := JObj(map["error" := JStr("Internal server error")])

  /** The two request parameters the route uses, after defaults. */
  datatype Params = Params(model: Json, stream: Json)

  /**
   * Destructuring the parsed body: `null` throws; an object supplies the keys
   * it has (a JSON `null` is not `undefined`, so it does not take the
   * default); any other value supplies none.
   */
  function ReadParams(body: Json): (r: Option<Params>)
    ensures r.None? <==> body == JNull
    ensures r.Some? && !(body.JObj? && "model" in body.fields) ==> r.value.model == JStr(DefaultModel)
    ensures r.Some? && !(body.JObj? && "stream" in body.fields) ==> r.value.stream == JBool(true)
    ensures body.JObj? && "model" in body.fields ==> r.Some? && r.value.model == body.fields["model"]
    ensures body.JObj? && "stream" in body.fields ==> r.Some? && r.value.stream == body.fields["stream"]
  {
    match body
    case JNull => None
    case JObj(m) => Some(Params(
      if "model" in m then m["model"] else JStr(DefaultModel),
      if "stream" in m then m["stream"] else JBool(true)))
    case _ => Some(Params(JStr(DefaultModel), JBool(true)))
  }

  /** A completion chunk as the route builds it at tick `t`. */
  function ChunkJson(model: Json, clock: nat -> nat, t: nat, delta: Json, finish: Json): Json {
    JObj(map[
      "id" := JStr("mock-" + NatToString(clock(2 * t))),
      "object" := JStr("chat.completion.chunk"),
      "created" := JNum(clock(2 * t + 1) as real),
      "model" := model,
      "choices" := JArr([JObj(map["index" := JNum(0.0), "delta" := delta, "finish_reason" := finish])])])
  }

  /** One server-sent event: `data: <json>` and a blank line. */
  function Frame(c: Codec, j: Json): string {
    DataPrefix + c.stringify(j) + "\n\n"
  }

  function DeltaFrame(c: Codec, model: Json, clock: nat -> nat, t: nat, ch: char): string {
    Frame(c, ChunkJson(model, clock, t, JObj(map["content" := JStr([ch])]), JNull))
  }

  function FinalFrame(c: Codec, model: Json, clock: nat -> nat, t: nat): string {
    Frame(c, ChunkJson(model, clock, t, JObj(map[]), JStr("stop")))
  }

  const DoneFrame: string := DataPrefix + DoneMarker + "\n\n"

  /** What the stream carries, tick by tick: one frame per character, then the final chunk and `[DONE]`. */
  function StreamFrames(c: Codec, model: Json, clock: nat -> nat, text: string): (r: seq<string>)
    ensures |r| == |text| + 2 && r[|text| + 1] == DoneFrame
  {
    seq(|text|, i requires 0 <= i < |text| => DeltaFrame(c, model, clock, i, text[i]))
      + [FinalFrame(c, model, clock, |text|), DoneFrame]
  }

  /** The interval callback run to completion: each tick enqueues the next character's frame; the last tick ends the stream. */
  method RunStream(c: Codec, model: Json, clock: nat -> nat, text: string) returns (frames: seq<string>)
    ensures frames == StreamFrames(c, model, clock, text)
  {
    frames := [];
    var index := 0;
    while index < |text|
      invariant 0 <= index <= |text|
      invariant frames == seq(index, i requires 0 <= i < index => DeltaFrame(c, model, clock, i, text[i]))
    {
      frames := frames + [DeltaFrame(c, model, clock, index, text[index])];
      index := index + 1;
    }
    frames := frames + [FinalFrame(c, model, clock, index)];
    frames := frames + [DoneFrame];
  }

  /** The whole reply when streaming is off. */
  function ReplyJson(model: Json, clock: nat -> nat): Json {
    JObj(map[
      "id" := JStr("mock-" + NatToString(clock(0))),
      "object" := JStr("chat.completion"),
      "created" := JNum(clock(1) as real),
      "model" := model,
      "choices" := JArr([JObj(map[
        "index" := JNum(0.0),
        "message" := JObj(map["role" := JStr("assistant"), "content" := JStr(MockReplyText)]),
        "finish_reason" := JStr("stop")])]),
      "usage" := JObj(map["prompt_tokens" := JNum(0.0), "completion_tokens" := JNum(0.0), "total_tokens" := JNum(0.0)])])
  }

  /** The route's reply. */
  datatype RouteResponse = StreamReply(frames: seq<string>) | JsonReply(status: nat, body: Json)

  /**
   * `POST`: `body` is the parsed request (`None` when it is not JSON). A body
   * that is not JSON or is `null` gives the 500 reply; a truthy `stream`
   * (the default) gives the event stream; otherwise the whole reply.
   */
  function Post(c: Codec, clock: nat -> nat, body: Option<Json>): (r: RouteResponse)
    ensures r == JsonReply(500, ErrorBody) <==> body.None? || body == Some(JNull)
    ensures r.StreamReply? <==> body.Some? && ReadParams(body.value).Some? && Truthy(ReadParams(body.value).value.stream)
    ensures r.StreamReply? ==> r.frames == StreamFrames(c, ReadParams(body.value).value.model, clock, MockStreamText)
    ensures r.JsonReply? && r.status == 200 ==> r.body == ReplyJson(ReadParams(body.value).value.model, clock)
  {
    if body.None? then JsonReply(500, ErrorBody)
    else match ReadParams(body.value)
      case None => JsonReply(500, ErrorBody)
      case Some(p) =>
        if Truthy(p.stream) then StreamReply(StreamFrames(c, p.model, clock, MockStreamText))
        else JsonReply(200, ReplyJson(p.model, clock))
  }

  /** A request that does not mention `stream` is answered with the event stream. */
  lemma StreamsByDefault(c: Codec, clock: nat -> nat, m: map<string, Json>)
    requires "stream" !in m
    ensures Post(c, clock, Some(JObj(m))).StreamReply?
  {
  }

  // ---------------------------------------------------------------------
  // What the client makes of these replies
  // ---------------------------------------------------------------------

  /** The values the client's transform emits when each frame arrives as its own chunk. */
  function FramesValues(c: Codec, frames: seq<string>): seq<Json> {
    if frames == [] then [] else ChunkValues(c, frames[0]) + FramesValues(c, frames[1..])
  }

  /** A line without a line feed, followed by a blank line, splits into the line and two empty pieces. */
  lemma SplitFrame(line: string)
    requires '\n' !in line
    ensures Split(line + "\n\n", '\n') == [line, "", ""]
  {
    assert line + "\n\n" == line + ['\n'] + ([] + ['\n'] + []);
    SplitConcat(line, [] + ['\n'] + [], '\n');
    SplitConcat([], [], '\n');
    SplitNoSeparator(line, '\n');
  }

  /** An event frame yields what its one line yields; the empty lines after it are skipped. */
  lemma FrameChunk(c: Codec, line: string)
    requires '\n' !in line
    ensures ChunkValues(c, line + "\n\n") == LinesValues(c, [line])
  {
    SplitFrame(line);
    assert !StartsWith("", DataPrefix);
    assert LinesValues(c, [""]) == [] by { assert [""][1..] == []; }
    assert LinesValues(c, ["", ""]) == [] by { assert ["", ""][1..] == [""]; }
    assert [line, "", ""][1..] == ["", ""];
    assert [line][1..] == [];
  }

  lemma DataPrefixHasNoLineFeed()
    ensures '\n' !in DataPrefix
  {
  }

  /** Concatenating two pieces without a line feed gives none. */
  lemma NoLineFeedConcat(a: string, b: string)
    requires '\n' !in a && '\n' !in b
    ensures '\n' !in a + b
  {
    assert forall k :: 0 <= k < |a + b| ==> (a + b)[k] == if k < |a| then a[k] else b[k - |a|];
  }

  /** A frame of an object yields the object's truthy delta content. */
  lemma FrameValues(c: Codec, j: Json)
    requires Lawful(c) && j.JObj?
    ensures var cc := ChoiceContent(j, "delta");
      ChunkValues(c, Frame(c, j)) == if cc.Some? && Truthy(cc.value) then [cc.value] else []
  {
    var s := c.stringify(j);
    var line := DataPrefix + s;
    assert IsBraced(s);
    assert Trimmed(s);
    ReadTrimmedDataLine(c, s);
    assert s != DoneMarker by { assert s[0] != DoneMarker[0]; }
    assert c.parse(s) == Some(j);
    assert '\n' !in s;
    DataPrefixHasNoLineFeed();
    NoLineFeedConcat(DataPrefix, s);
    FrameChunk(c, line);
    var cc := ChoiceContent(j, "delta");
    assert Reader(c)(line) == if cc.Some? && Truthy(cc.value) then Emit(cc.value) else Skip;
    assert [line][1..] == [];
    assert Values(Reader(c), [line][1..]) == [];
  }

  /** The content a chunk carries is its delta's content. */
  lemma ChunkContent(model: Json, clock: nat -> nat, t: nat, delta: Json, finish: Json)
    ensures ChoiceContent(ChunkJson(model, clock, t, delta, finish), "delta") == Prop(delta, "content")
  {
    var choice := JObj(map["index" := JNum(0.0), "delta" := delta, "finish_reason" := finish]);
    assert Prop(ChunkJson(model, clock, t, delta, finish), "choices") == Some(JArr([choice]));
    assert First(Some(JArr([choice]))) == Some(choice);
    assert Prop(choice, "delta") == Some(delta);
  }

  lemma DeltaFrameValues(c: Codec, model: Json, clock: nat -> nat, t: nat, ch: char)
    requires Lawful(c)
    ensures ChunkValues(c, DeltaFrame(c, model, clock, t, ch)) == [JStr([ch])]
  {
    var delta := JObj(map["content" := JStr([ch])]);
    FrameValues(c, ChunkJson(model, clock, t, delta, JNull));
    ChunkContent(model, clock, t, delta, JNull);
  }

  /** The final chunk has an empty delta, so it yields nothing. */
  lemma FinalFrameValues(c: Codec, model: Json, clock: nat -> nat, t: nat)
    requires Lawful(c)
    ensures ChunkValues(c, FinalFrame(c, model, clock, t)) == []
  {
    FrameValues(c, ChunkJson(model, clock, t, JObj(map[]), JStr("stop")));
    ChunkContent(model, clock, t, JObj(map[]), JStr("stop"));
  }

  lemma DoneLineHasNoLineFeed()
    ensures '\n' !in DataPrefix + DoneMarker
  {
    DataPrefixHasNoLineFeed();
    NoLineFeedConcat(DataPrefix, DoneMarker);
  }

  /** The `[DONE]` frame ends the chunk and yields nothing. */
  lemma DoneFrameValues(c: Codec)
    ensures ChunkValues(c, DoneFrame) == []
  {
    var line := DataPrefix + DoneMarker;
    DoneLineStops(c);
    assert Reader(c)(line) == Stop;
    assert LinesValues(c, [line]) == [];
    DoneLineHasNoLineFeed();
    FrameChunk(c, line);
  }

  lemma {:induction false} FramesValuesConcat(c: Codec, a: seq<string>, b: seq<string>)
    ensures FramesValues(c, a + b) == FramesValues(c, a) + FramesValues(c, b)
    decreases |a|
  {
    if a == [] {
      assert a + b == b;
    } else {
      assert (a + b)[0] == a[0] && (a + b)[1..] == a[1..] + b;
      FramesValuesConcat(c, a[1..], b);
    }
  }

  /** The one-character content values of `text`. */
  function CharValues(text: string): (r: seq<Json>)
    ensures |r| == |text| && forall i :: 0 <= i < |text| ==> r[i] == JStr([text[i]])
  {
    seq(|text|, i requires 0 <= i < |text| => JStr([text[i]]))
  }

  /** Frames that each yield one character of `text` yield the text's characters in order. */
  lemma {:induction false} CharFramesValues(c: Codec, frames: seq<string>, text: string)
    requires |frames| == |text|
    requires forall i :: 0 <= i < |frames| ==> ChunkValues(c, frames[i]) == [JStr([text[i]])]
    ensures FramesValues(c, frames) == CharValues(text)
    decreases |frames|
  {
    if frames != [] {
      CharFramesValues(c, frames[1..], text[1..]);
      assert CharValues(text) == [JStr([text[0]])] + CharValues(text[1..]);
    }
  }

  /**
   * Round trip between the route and the client: when each frame of the
   * stream reaches the client's transform as its own chunk, the transform
   * emits exactly the characters of the text, in order, as content values,
   * whatever the model name and the clock readings.
   */
  lemma StreamRoundTrip(c: Codec, model: Json, clock: nat -> nat, text: string)
    requires Lawful(c)
    ensures FramesValues(c, StreamFrames(c, model, clock, text)) == CharValues(text)
  {
    var deltas := seq(|text|, i requires 0 <= i < |text| => DeltaFrame(c, model, clock, i, text[i]));
    var tail := [FinalFrame(c, model, clock, |text|), DoneFrame];
    forall i | 0 <= i < |deltas|
      ensures ChunkValues(c, deltas[i]) == [JStr([text[i]])]
    {
      DeltaFrameValues(c, model, clock, i, text[i]);
    }
    CharFramesValues(c, deltas, text);
    FramesValuesConcat(c, deltas, tail);
    FinalFrameValues(c, model, clock, |text|);
    DoneFrameValues(c);
    assert FramesValues(c, tail) == [] by {
      assert tail[1..] == [DoneFrame] && tail[1..][1..] == [];
      assert FramesValues(c, [DoneFrame]) == [] by { assert [DoneFrame][1..] == []; }
    }
    assert StreamFrames(c, model, clock, text) == deltas + tail;
  }

  /**
   * The whole reply, however the network cuts it into chunks, parsed by the
   * client's non-streaming path, yields its content as the single value.
   */
  lemma WholeReplyRoundTrip(c: Codec, model: Json, clock: nat -> nat, statusText: string, chunks: seq<string>)
    requires Lawful(c) && Concat(chunks) == c.stringify(ReplyJson(model, clock))
    ensures SendOutcome(c, false, Responded(HttpResponse(true, 200, statusText, Some(chunks))))
      == Whole([JStr(MockReplyText)])
  {
    var reply := ReplyJson(model, clock);
    assert c.parse(Concat(chunks)) == Some(reply);
    ReplyJsonContent(model, clock);
  }

  /** The whole reply is an object whose message content is the fixed text. */
  lemma ReplyJsonContent(model: Json, clock: nat -> nat)
    ensures ReplyJson(model, clock).JObj?
    ensures ReplyContent(ReplyJson(model, clock)) == JStr(MockReplyText)
  {
    var reply := ReplyJson(model, clock);
    var choice := reply.fields["choices"].items[0];
    assert Prop(reply, "choices") == Some(reply.fields["choices"]);
    assert First(Some(reply.fields["choices"])) == Some(choice);
    assert ChoiceContent(reply, "message") == Some(JStr(MockReplyText));
  }
}
