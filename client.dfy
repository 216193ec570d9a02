/**
 * The API client (`lib/client.ts`): the request body, the error paths of
 * `sendChat`, the line-by-line transform that turns event-stream chunks into
 * content tokens, the non-streaming path, the pump that copies the
 * transformed stream to the caller, the health probe, the upload reply, the
 * abort flag, and the mock client that types out a canned reply.
 *
 * The network is a parameter: `fetch` results are given, as are the chunks
 * the response body delivers.
 */
module LawyerClient {
  import opened Wrappers
  import opened Json
  import opened Text
  import opened ChatTypes

  const DataPrefix: string := "data: "
  const DoneMarker: string := "[DONE]"

  /** `s.startsWith(p)`. */
  predicate StartsWith(s: string, p: string) {
    |p| <= |s| && s[..|p|] == p
  }

  // ---------------------------------------------------------------------
  // The event-stream transform (lines 111-128)
  // ---------------------------------------------------------------------

  /** What one line of a chunk does: nothing, end the chunk, or emit a value. */
  datatype LineStep = Skip | Stop | Emit(value: Json)

  /**
   * One line: only `data: ` lines count; the payload is trimmed; `[DONE]`
   * ends the chunk; a payload that does not parse is skipped; otherwise the
   * truthy `choices[0].delta.content` is emitted. (`parsed.choices` on a
   * parsed `null` throws inside the `try` and is skipped like bad JSON.)
   */
  function ReadLine(c: Codec, line: string): (r: LineStep)
    ensures r.Emit? ==> Truthy(r.value)
    ensures !StartsWith(line, DataPrefix) ==> r == Skip
  {
    if !StartsWith(line, DataPrefix) then Skip
    else ReadPayload(c, Trim(line[|DataPrefix|..]))
  }

  /** What a trimmed payload does. */
  function ReadPayload(c: Codec, data: string): (r: LineStep)
    ensures r.Emit? ==> Truthy(r.value)
    ensures r == Stop <==> data == DoneMarker
  {
    if data == DoneMarker then Stop
    else match c.parse(data)
      case None => Skip
      case Some(parsed) =>
        var content := ChoiceContent(parsed, "delta");
        if content.Some? && Truthy(content.value) then Emit(content.value) else Skip
  }

  /** The line reader the transform applies to every line. */
  function Reader(c: Codec): string -> LineStep {
    line => ReadLine(c, line)
  }

  /** The values lines emit under a line reader, in order, up to the first stop. */
  function Values(read: string -> LineStep, lines: seq<string>): seq<Json>
    decreases |lines|
  {
    if lines == [] then []
    else match read(lines[0])
      case Stop => []
      case Skip => Values(read, lines[1..])
      case Emit(v) => [v] + Values(read, lines[1..])
  }

  /** The values the lines of a chunk emit, in order, up to the first `[DONE]`. */
  function LinesValues(c: Codec, lines: seq<string>): seq<Json> {
    Values(Reader(c), lines)
  }

  /** The values one decoded chunk contributes: its lines are the pieces between line feeds. */
  function ChunkValues(c: Codec, chunk: string): seq<Json> {
    LinesValues(c, Split(chunk, '\n'))
  }

  /** A reader that emits only truthy values. */
  ghost predicate EmitsTruthy(read: string -> LineStep) {
    forall line :: read(line).Emit? ==> Truthy(read(line).value)
  }

  /** The transform's reader emits only truthy values. */
  lemma ReaderEmitsTruthy(c: Codec)
    ensures EmitsTruthy(Reader(c))
  {
    forall line | Reader(c)(line).Emit? ensures Truthy(Reader(c)(line).value) {
      assert Reader(c)(line) == ReadLine(c, line);
    }
  }

  /** Every value the lines emit is truthy: falsy content never reaches the caller. */
  lemma {:induction false} LinesValuesTruthy(read: string -> LineStep, lines: seq<string>)
    requires EmitsTruthy(read)
    ensures forall k :: 0 <= k < |Values(read, lines)| ==> Truthy(Values(read, lines)[k])
    decreases |lines|
  {
    if lines != [] {
      LinesValuesTruthy(read, lines[1..]);
      var rest := Values(read, lines[1..]);
      var step := read(lines[0]);
      if step.Emit? {
        assert Values(read, lines) == [step.value] + rest;
        assert forall k :: 1 <= k < |[step.value] + rest| ==> ([step.value] + rest)[k] == rest[k - 1];
      }
    }
  }

  /** One line of `lines[i..]` read: a stop ends, a skipped line drops out, an emitted value leads. */
  lemma LinesValuesStep(read: string -> LineStep, lines: seq<string>, i: nat)
    requires i < |lines|
    ensures read(lines[i]).Stop? ==> Values(read, lines[i..]) == []
    ensures read(lines[i]).Skip? ==> Values(read, lines[i..]) == Values(read, lines[i + 1..])
    ensures read(lines[i]).Emit? ==>
      Values(read, lines[i..]) == [read(lines[i]).value] + Values(read, lines[i + 1..])
  {
    assert lines[i..][0] == lines[i] && lines[i..][1..] == lines[i + 1..];
  }

  /**
   * The `for (const line of lines)` loop of the transform, for any line
   * reader: it enqueues the emitted values in order and returns at the
   * first stop line.
   */
  method TransformLines(read: string -> LineStep, lines: seq<string>) returns (out: seq<Json>)
    ensures out == Values(read, lines)
  {
    out := [];
    var i := 0;
    while i < |lines|
      invariant 0 <= i <= |lines|
      invariant out + Values(read, lines[i..]) == Values(read, lines)
    {
      var step := read(lines[i]);
      LinesValuesStep(read, lines, i);
      if step.Stop? {
        return;
      } else if step.Emit? {
        var rest := Values(read, lines[i + 1..]);
        assert out + ([step.value] + rest) == (out + [step.value]) + rest;
        out := out + [step.value];
      }
      i := i + 1;
    }
    assert lines[i..] == [];
  }

  /** The transform's `transform(chunk, controller)`: what it enqueues for one chunk. */
  method TransformChunk(c: Codec, chunk: string) returns (out: seq<Json>)
    ensures out == ChunkValues(c, chunk)
  {
    out := TransformLines(Reader(c), Split(chunk, '\n'));
  }

  /** Some line is a stop line for the reader. */
  predicate HasStop(read: string -> LineStep, lines: seq<string>) {
    exists k :: 0 <= k < |lines| && read(lines[k]).Stop?
  }

  /** Past a first line that does not stop, the rest has a stop line iff the whole does. */
  lemma HasStopTail(read: string -> LineStep, a: seq<string>)
    requires a != [] && !read(a[0]).Stop?
    ensures HasStop(read, a) <==> HasStop(read, a[1..])
  {
    if HasStop(read, a) {
      var k :| 0 <= k < |a| && read(a[k]).Stop?;
      assert a[1..][k - 1] == a[k];
    }
    if HasStop(read, a[1..]) {
      var k :| 0 <= k < |a[1..]| && read(a[1..][k]).Stop?;
      assert a[k + 1] == a[1..][k];
    }
  }

  /**
   * Lines are processed in order: without a stop line in `a` the values of
   * `a + b` are those of `a` followed by those of `b`.
   */
  lemma {:induction false} LinesValuesConcat(read: string -> LineStep, a: seq<string>, b: seq<string>)
    requires !HasStop(read, a)
    ensures Values(read, a + b) == Values(read, a) + Values(read, b)
    decreases |a|
  {
    if a == [] {
      assert a + b == b;
    } else {
      assert (a + b)[0] == a[0] && (a + b)[1..] == a[1..] + b;
      assert !read(a[0]).Stop?;
      HasStopTail(read, a);
      LinesValuesConcat(read, a[1..], b);
    }
  }

  /** After a stop line in `a`, the lines of `b` emit nothing. */
  lemma {:induction false} LinesValuesAfterStop(read: string -> LineStep, a: seq<string>, b: seq<string>)
    requires HasStop(read, a)
    ensures Values(read, a + b) == Values(read, a)
    decreases |a|
  {
    assert (a + b)[0] == a[0] && (a + b)[1..] == a[1..] + b;
    if !read(a[0]).Stop? {
      HasStopTail(read, a);
      LinesValuesAfterStop(read, a[1..], b);
    }
  }

  /** A `data: ` line hands its trimmed payload on. */
  lemma ReadDataLine(c: Codec, payload: string)
    ensures ReadLine(c, DataPrefix + payload) == ReadPayload(c, Trim(payload))
  {
    assert (DataPrefix + payload)[..|DataPrefix|] == DataPrefix;
    assert (DataPrefix + payload)[|DataPrefix|..] == payload;
  }

  /** The `[DONE]` line is a `data: ` line whose payload is the marker. */
  lemma DoneLineStops(c: Codec)
    ensures ReadLine(c, DataPrefix + DoneMarker) == Stop
  {
    assert Trimmed(DoneMarker);
    ReadTrimmedDataLine(c, DoneMarker);
  }

  /** A `data: ` line whose payload has no surrounding white space hands the payload on as it is. */
  lemma ReadTrimmedDataLine(c: Codec, payload: string)
    requires Trimmed(payload)
    ensures ReadLine(c, DataPrefix + payload) == ReadPayload(c, payload)
  {
    ReadDataLine(c, payload);
  }

  /** A `[DONE]` line ends the chunk: whatever follows it emits nothing. */
  lemma DoneEndsChunk(c: Codec, before: seq<string>, after: seq<string>)
    ensures LinesValues(c, before + [DataPrefix + DoneMarker] + after) == LinesValues(c, before + [DataPrefix + DoneMarker])
  {
    var done := DataPrefix + DoneMarker;
    DoneLineStops(c);
    assert Reader(c)(done).Stop?;
    var a := before + [done];
    assert a[|before|] == done;
    assert HasStop(Reader(c), a);
    LinesValuesAfterStop(Reader(c), a, after);
  }

  /** A line that is not a `data: ` line, or whose payload does not parse, is skipped and the lines after it are still read. */
  lemma SkippedLine(c: Codec, line: string, rest: seq<string>)
    requires !StartsWith(line, DataPrefix)
      || (Trim(line[|DataPrefix|..]) != DoneMarker && c.parse(Trim(line[|DataPrefix|..])).None?)
    ensures LinesValues(c, [line] + rest) == LinesValues(c, rest)
  {
    assert Reader(c)(line) == ReadLine(c, line);
    assert ([line] + rest)[1..] == rest;
  }

  /** Surrounding white space of a payload makes no difference. */
  lemma PayloadTrimmed(c: Codec, payload: string)
    ensures ReadLine(c, DataPrefix + payload) == ReadLine(c, DataPrefix + Trim(payload))
  {
    assert (DataPrefix + payload)[|DataPrefix|..] == payload;
    assert (DataPrefix + Trim(payload))[|DataPrefix|..] == Trim(payload);
    assert StartsWith(DataPrefix + payload, DataPrefix);
    assert StartsWith(DataPrefix + Trim(payload), DataPrefix);
    TrimIdempotent(payload);
  }

  // ---------------------------------------------------------------------
  // Request body, errors and the non-streaming path (lines 62-106)
  // ---------------------------------------------------------------------

  /** The options of `sendChat`; `stream` and `attachments` default to `true` and `[]`. */
  datatype SendChatOptions = SendChatOptions(
    messages: seq<Message>,
    stream: Option<bool>,
    jurisdiction: Option<string>,
    attachments: Option<seq<UploadRef>>)

  function RoleName(r: Role): string {
    match r
    case User => "user"
    case Assistant => "assistant"
    case System => "system"
  }

  /** A message reduced to `{ role, content }`. */
  function MessageJson(m: Message): Json {
    JObj(map["role" := JStr(RoleName(m.role)), "content" := JStr(m.content)])
  }

  function UploadJson(u: UploadRef): Json {
    JObj(map["id" := JStr(u.id), "name" := JStr(u.name), "mime" := JStr(u.mime), "size" := JNum(u.size as real)])
  }

  /** The body `sendChat` posts. `JSON.stringify` leaves out an `undefined` jurisdiction. */
  function RequestBody(s: ChatSettings, o: SendChatOptions): Json {
    var base := map[
      "model" := JStr(s.model),
      "messages" := JArr(seq(|o.messages|, i requires 0 <= i < |o.messages| => MessageJson(o.messages[i]))),
      "temperature" := JNum(s.temperature),
      "max_tokens" := JNum(s.maxTokens as real),
      "stream" := JBool(o.stream.GetOr(true)),
      "attachments" := JArr(seq(|o.attachments.GetOr([])|, i requires 0 <= i < |o.attachments.GetOr([])| => UploadJson(o.attachments.GetOr([])[i])))];
    JObj(if o.jurisdiction.Some? then base["jurisdiction" := JStr(o.jurisdiction.value)] else base)
  }

  /**
   * The body carries the settings' model, temperature and token limit; each
   * message as exactly its role and content, in order; `stream`, `true`
   * unless given; the attachments, none unless given; and the jurisdiction
   * key iff one is given.
   */
  lemma RequestBodyShape(s: ChatSettings, o: SendChatOptions)
    ensures var b := RequestBody(s, o).fields;
      var attachments := o.attachments.GetOr([]);
      && b.Keys == {"model", "messages", "temperature", "max_tokens", "stream", "attachments"}
                   + (if o.jurisdiction.Some? then {"jurisdiction"} else {})
      && b["model"] == JStr(s.model)
      && b["temperature"] == JNum(s.temperature)
      && b["max_tokens"] == JNum(s.maxTokens as real)
      && b["messages"].JArr? && |b["messages"].items| == |o.messages|
      && (forall i :: 0 <= i < |o.messages| ==>
            b["messages"].items[i].JObj? && b["messages"].items[i].fields.Keys == {"role", "content"}
            && b["messages"].items[i].fields["role"] == JStr(RoleName(o.messages[i].role))
            && b["messages"].items[i].fields["content"] == JStr(o.messages[i].content))
      && b["stream"] == JBool(o.stream != Some(false))
      && b["attachments"].JArr? && |b["attachments"].items| == |attachments|
      && (forall i :: 0 <= i < |attachments| ==>
            b["attachments"].items[i] == UploadJson(attachments[i]))
      && (o.jurisdiction.Some? ==> b["jurisdiction"] == JStr(o.jurisdiction.value))
  {
  }

  /** Each role is sent under its own name. */
  lemma RoleNamesDistinct(a: Role, b: Role)
    ensures RoleName(a) == RoleName(b) <==> a == b
  {
  }

  /**
   * An HTTP response: status, whether it is 2xx, and the body if there is
   * one, as the text chunks the network delivers it in (after decoding).
   */
  datatype HttpResponse = HttpResponse(ok: bool, status: nat, statusText: string, body: Option<seq<string>>)

  /** `fetch` either rejects (an abort or a network failure) or yields a response. */
  datatype FetchResult = Rejected(abortError: bool) | Responded(response: HttpResponse)

  /**
   * Why `sendChat` throws. `NullReply` is the `TypeError` of reading
   * `choices` from a reply whose JSON is `null` (line 99 has no `?.` before
   * `.choices`).
   */
  datatype SendError = FetchFailed(abortError: bool) | HttpStatus(status: nat, statusText: string) | NoBody | BadJson | NullReply

  /** The message of the thrown `Error`; a failed fetch, a bad JSON body and a null reply carry the platform's own message. */
  function ErrorText(e: SendError): Option<string> {
    match e
    case HttpStatus(status, text) => Some("HTTP " + NatToString(status) + ": " + text)
    case NoBody => Some("No response body")
    case _ => None
  }

  /** Whether the thrown error is named "AbortError". */
  predicate IsAbortError(e: SendError) {
    e.FetchFailed? && e.abortError
  }

  /**
   * What `sendChat` resolves to: the body's chunks, each of which the
   * transform reads on its own (`TransformChunk`), or a one-element stream.
   */
  datatype SendResult = Failed(error: SendError) | Streaming(chunks: seq<string>) | Whole(values: seq<Json>)

  /** `data.choices?.[0]?.message?.content || ""`, for a `data` that is not `null`. */
  function ReplyContent(data: Json): (r: Json)
    ensures r == JStr("") || Truthy(r)
    ensures var content := ChoiceContent(data, "message");
      content.Some? && Truthy(content.value) <==> r != JStr("")
    ensures r != JStr("") ==> Some(r) == ChoiceContent(data, "message")
  {
    var content := ChoiceContent(data, "message");
    if content.Some? && Truthy(content.value) then content.value else JStr("")
  }

  /**
   * The outcome of `sendChat` for a fetch result, by the checks of lines
   * 88-106 in order: a rejected fetch, a non-ok status and a missing body
   * throw; without streaming the whole body is parsed, and a parse failure
   * or a `null` reply throws; with streaming the chunks are handed on as
   * they arrive.
   */
  function SendOutcome(c: Codec, stream: bool, f: FetchResult): (r: SendResult)
    ensures f.Rejected? ==> r == Failed(FetchFailed(f.abortError))
    ensures f.Responded? && !f.response.ok ==> r == Failed(HttpStatus(f.response.status, f.response.statusText))
    ensures f.Responded? && f.response.ok && f.response.body.None? ==> r == Failed(NoBody)
    ensures f.Responded? && f.response.ok && f.response.body.Some? && stream ==> r == Streaming(f.response.body.value)
    ensures f.Responded? && f.response.ok && f.response.body.Some? && !stream ==>
      var parsed := c.parse(Concat(f.response.body.value));
      && (parsed.None? ==> r == Failed(BadJson))
      && (parsed == Some(JNull) ==> r == Failed(NullReply))
      && (parsed.Some? && parsed.value != JNull ==> r == Whole([ReplyContent(parsed.value)]))
    ensures r.Whole? ==> !stream && |r.values| == 1 && (r.values[0] == JStr("") || Truthy(r.values[0]))
    ensures r.Streaming? ==> stream
  {
    match f
    case Rejected(abort) => Failed(FetchFailed(abort))
    case Responded(resp) =>
      if !resp.ok then Failed(HttpStatus(resp.status, resp.statusText))
      else if resp.body.None? then Failed(NoBody)
      else if !stream then
        match c.parse(Concat(resp.body.value))
        case None => Failed(BadJson)
        case Some(data) => if data == JNull then Failed(NullReply) else Whole([ReplyContent(data)])
      else Streaming(resp.body.value)
  }

  // ---------------------------------------------------------------------
  // The pump and the abort flag (lines 132-167, 218-224)
  // ---------------------------------------------------------------------

  /** A per-call abort controller; `abort()` sets its signal's flag. */
  class AbortController {
    var aborted: bool

    constructor ()
      ensures !aborted
    {
      aborted := false;
    }

    method Abort()
      modifies this
      ensures aborted
    {
      aborted := true;
    }
  }

  /** What one `read()` of the transformed stream gives: a value, the end, or a rejection. */
  datatype ReadResult = Value(value: Json) | Done | ReadFailed(abortError: bool)

  /** One read, together with whether the client's abort flag is set when the read settles. */
  datatype PumpStep = PumpStep(read: ReadResult, abortedNow: bool)

  /** How the stream handed to the caller ends, if it ends. */
  datatype StreamEnd = Closed | Errored | Open

  /** What the caller of `sendChat` receives: the enqueued values and how the stream ends. */
  datatype Delivery = Delivery(values: seq<Json>, end: StreamEnd)

  /** A step after which the pump reads on: it read a value (and, for a pump that heeds the abort, the call was not aborted). */
  predicate Continues(s: PumpStep, heedsAbort: bool) {
    (heedsAbort ==> !s.abortedNow) && s.read.Value?
  }

  /** A step at which the pump errors the stream: a rejection other than an `AbortError`. */
  predicate Fails(s: PumpStep, heedsAbort: bool) {
    (heedsAbort ==> !s.abortedNow) && s.read == ReadFailed(false)
  }

  /** Every step lets the pump read on. */
  predicate AllContinue(steps: seq<PumpStep>, heedsAbort: bool) {
    forall j :: 0 <= j < |steps| ==> Continues(steps[j], heedsAbort)
  }

  /** The first step that does not let the pump read on is step `k`, and it fails. */
  predicate FailsAt(steps: seq<PumpStep>, k: int, heedsAbort: bool) {
    0 <= k < |steps| && Fails(steps[k], heedsAbort) && forall j :: 0 <= j < k ==> Continues(steps[j], heedsAbort)
  }

  /** Past a first step that lets the pump read on, both predicates are those of the remaining steps. */
  lemma ContinuesShift(steps: seq<PumpStep>, heedsAbort: bool)
    requires steps != [] && Continues(steps[0], heedsAbort)
    ensures AllContinue(steps, heedsAbort) <==> AllContinue(steps[1..], heedsAbort)
    ensures (exists k :: FailsAt(steps, k, heedsAbort)) <==> (exists k :: FailsAt(steps[1..], k, heedsAbort))
  {
    assert forall j :: 1 <= j < |steps| ==> steps[j] == steps[1..][j - 1];
    if exists k :: FailsAt(steps[1..], k, heedsAbort) {
      var k :| FailsAt(steps[1..], k, heedsAbort);
      assert FailsAt(steps, k + 1, heedsAbort);
    }
    if exists k :: FailsAt(steps, k, heedsAbort) {
      var k :| FailsAt(steps, k, heedsAbort);
      assert k != 0;
      assert FailsAt(steps[1..], k - 1, heedsAbort);
    }
  }

  /** A first step that stops the pump settles both predicates: only a failing one errors. */
  lemma StopsAtFirst(steps: seq<PumpStep>, heedsAbort: bool)
    requires steps != [] && !Continues(steps[0], heedsAbort)
    ensures !AllContinue(steps, heedsAbort)
    ensures (exists k :: FailsAt(steps, k, heedsAbort)) <==> Fails(steps[0], heedsAbort)
  {
    if Fails(steps[0], heedsAbort) {
      assert FailsAt(steps, 0, heedsAbort);
    }
  }

  /** The pump as written: its abort test reads a property of the source object that is never set, so it never fires. */
  function PumpAsWritten(steps: seq<PumpStep>): (d: Delivery)
    ensures |d.values| <= |steps|
    ensures d.end == Open <==> AllContinue(steps, false)
    ensures d.end == Errored <==> exists k :: FailsAt(steps, k, false)
  {
    if steps == [] then Delivery([], Open)
    else if !Continues(steps[0], false) then
      StopsAtFirst(steps, false);
      match steps[0].read
      case Done => Delivery([], Closed)
      case ReadFailed(abort) => Delivery([], if abort then Closed else Errored)
    else
      var rest := PumpAsWritten(steps[1..]);
      ContinuesShift(steps, false);
      Delivery([steps[0].read.value] + rest.values, rest.end)
  }

  /** The pump as intended: once the client's call has been aborted, it closes without delivering further values. */
  function Pump(steps: seq<PumpStep>): (d: Delivery)
    ensures |d.values| <= |steps|
    ensures d.end == Open <==> AllContinue(steps, true)
    ensures d.end == Errored <==> exists k :: FailsAt(steps, k, true)
  {
    if steps == [] then Delivery([], Open)
    else if !Continues(steps[0], true) then
      StopsAtFirst(steps, true);
      if steps[0].abortedNow then Delivery([], Closed)
      else match steps[0].read
        case Done => Delivery([], Closed)
        case ReadFailed(abort) => Delivery([], if abort then Closed else Errored)
    else
      var rest := Pump(steps[1..]);
      ContinuesShift(steps, true);
      Delivery([steps[0].read.value] + rest.values, rest.end)
  }

  /** The values read before step `k`. */
  function ValuesBefore(steps: seq<PumpStep>, k: nat): seq<Json>
    requires k <= |steps|
  {
    if k == 0 then []
    else ValuesBefore(steps, k - 1) + (if steps[k - 1].read.Value? then [steps[k - 1].read.value] else [])
  }

  /**
   * With the intended pump, an abort observed at step `k` (after values only)
   * closes the stream, and the caller gets exactly the values read before it.
   */
  lemma {:induction false} PumpStopsAtAbort(steps: seq<PumpStep>, k: nat)
    requires k < |steps| && steps[k].abortedNow
    requires forall j :: 0 <= j < k ==> !steps[j].abortedNow && steps[j].read.Value?
    ensures Pump(steps) == Delivery(ValuesBefore(steps, k), Closed)
    decreases k
  {
    if k > 0 {
      PumpStopsAtAbort(steps[1..], k - 1);
      ValuesBeforeShift(steps, k);
    }
  }

  /** Dropping a first step that read a value drops that value from the front. */
  lemma {:induction false} ValuesBeforeShift(steps: seq<PumpStep>, k: nat)
    requires 0 < k <= |steps| && steps[0].read.Value?
    ensures ValuesBefore(steps, k) == [steps[0].read.value] + ValuesBefore(steps[1..], k - 1)
    decreases k
  {
    if k > 1 {
      ValuesBeforeShift(steps, k - 1);
      assert steps[1..][k - 2] == steps[k - 1];
    }
  }

  /** Where no abort is observed, the two pumps agree. */
  lemma {:induction false} PumpsAgreeWithoutAbort(steps: seq<PumpStep>)
    requires forall j :: 0 <= j < |steps| ==> !steps[j].abortedNow
    ensures Pump(steps) == PumpAsWritten(steps)
    decreases |steps|
  {
    if steps != [] {
      PumpsAgreeWithoutAbort(steps[1..]);
    }
  }

  /**
   * `abort()` also aborts the request: `sendChat` hands the same
   * controller's signal to `fetch`, so the response body is errored with an
   * `AbortError`. The pump awaits nothing but its reads, so the first read
   * that settles after the abort, pending or new, rejects with that error.
   */
  predicate SignalShared(steps: seq<PumpStep>) {
    forall j :: 0 <= j < |steps| && steps[j].abortedNow ==> steps[j].read == ReadFailed(true)
  }

  /**
   * With the signal shared, the pump as written behaves as intended: its own
   * abort test never fires, but the rejected read closes the stream at the
   * same step.
   */
  lemma {:induction false} PumpsAgreeWithSharedSignal(steps: seq<PumpStep>)
    requires SignalShared(steps)
    ensures PumpAsWritten(steps) == Pump(steps)
    decreases |steps|
  {
    if steps != [] && !steps[0].abortedNow && steps[0].read.Value? {
      assert SignalShared(steps[1..]) by {
        forall j | 0 <= j < |steps[1..]| && steps[1..][j].abortedNow
          ensures steps[1..][j].read == ReadFailed(true)
        {
          assert steps[1..][j] == steps[j + 1];
        }
      }
      PumpsAgreeWithSharedSignal(steps[1..]);
    }
  }

  /**
   * The pump as written, once the call is aborted after some values, closes
   * the stream and delivers exactly the values read before the abort.
   */
  lemma PumpAsWrittenClosesAtAbort(steps: seq<PumpStep>, k: nat)
    requires SignalShared(steps)
    requires k < |steps| && steps[k].abortedNow
    requires forall j :: 0 <= j < k ==> !steps[j].abortedNow && steps[j].read.Value?
    ensures PumpAsWritten(steps) == Delivery(ValuesBefore(steps, k), Closed)
  {
    PumpsAgreeWithSharedSignal(steps);
    PumpStopsAtAbort(steps, k);
  }

  // ---------------------------------------------------------------------
  // Health and upload (lines 27-60, 170-194)
  // ---------------------------------------------------------------------

  /** One health probe: `fetch` threw, or a response with its ok flag and its parsed body (`None` when `.json()` failed). */
  datatype Probe = ProbeThrew | ProbeAnswered(ok: bool, data: Option<Json>)

  datatype HealthResponse = HealthResponse(ok: bool, capabilities: Option<Json>)

  /** The two URLs tried, in order. */
  function HealthUrls(baseUrl: string): seq<string> {
    [baseUrl + "/health", baseUrl]
  }

  /**
   * What one probe contributes: a usable ok answer gives the capabilities
   * (`data.capabilities || ["chat"]`); a body that parsed to `null` throws on
   * `.capabilities` and counts as a failure.
   */
  function ProbeCapabilities(p: Probe): Option<Json> {
    if p.ProbeAnswered? && p.ok then
      var data := p.data.GetOr(JObj(map[]));
      if data == JNull then None
      else
        var caps := Prop(data, "capabilities");
        Some(if caps.Some? && Truthy(caps.value) then caps.value else JArr([JStr("chat")]))
    else None
  }

  /** The first usable answer among the URLs, else `{ ok: false }`. */
  function HealthOf(urls: seq<string>, fetch: string -> Probe): (h: HealthResponse)
    ensures h.ok <==> exists i :: 0 <= i < |urls| && ProbeCapabilities(fetch(urls[i])).Some?
    ensures !h.ok ==> h.capabilities.None?
  {
    if urls == [] then HealthResponse(false, None)
    else
      var caps := ProbeCapabilities(fetch(urls[0]));
      if caps.Some? then HealthResponse(true, caps)
      else
        var rest := HealthOf(urls[1..], fetch);
        assert forall i :: 1 <= i < |urls| ==> urls[i] == urls[1..][i - 1];
        rest
  }

  /** `health()`: the probe loop over `/health` and then the base URL. */
  method Health(baseUrl: string, fetch: string -> Probe) returns (h: HealthResponse)
    ensures h == HealthOf(HealthUrls(baseUrl), fetch)
  {
    var urls := HealthUrls(baseUrl);
    var i := 0;
    while i < |urls|
      invariant 0 <= i <= |urls|
      invariant HealthOf(urls[i..], fetch) == HealthOf(urls, fetch)
    {
      var caps := ProbeCapabilities(fetch(urls[i]));
      if caps.Some? {
        return HealthResponse(true, caps);
      }
      assert urls[i..][1..] == urls[i + 1..];
      i := i + 1;
    }
    h := HealthResponse(false, None);
  }

  /** An ok answer from `/health` wins; the base URL is only consulted when that probe is unusable. */
  lemma HealthPrefersHealthPath(baseUrl: string, fetch: string -> Probe)
    ensures var first := ProbeCapabilities(fetch(baseUrl + "/health"));
      && (first.Some? ==> HealthOf(HealthUrls(baseUrl), fetch) == HealthResponse(true, first))
      && (first.None? ==> HealthOf(HealthUrls(baseUrl), fetch) == HealthOf([baseUrl], fetch))
  {
    assert HealthUrls(baseUrl)[1..] == [baseUrl];
  }

  /** The local file handed to `uploadFile`. */
  datatype FileInfo = FileInfo(name: string, mime: string, size: int)

  /**
   * Why `uploadFile` or `transcribeAudio` throws: a non-ok status, a body
   * that `.json()` cannot parse, or a body that parses to `null`, whose
   * fields cannot be read.
   */
  datatype ReplyError = StatusFailed(message: string) | ReplyNotJson | ReplyIsNull

  /** A reply field that is a non-empty string: the case `field || fallback` keeps. */
  predicate TruthyString(v: Option<Json>) {
    v.Some? && v.value.JStr? && Truthy(v.value)
  }

  /** A reply field that is absent or falsy: the case `field || fallback` replaces. */
  predicate AbsentOrFalsy(v: Option<Json>) {
    v.None? || !Truthy(v.value)
  }

  /** `field || fallback` for a text field. */
  function TextOr(v: Option<Json>, fallback: string): string {
    if TruthyString(v) then v.value.s else fallback
  }

  /**
   * `uploadFile`: a non-ok status throws "Upload failed: HTTP <status>"; a
   * body that is not JSON, or is `null`, throws; otherwise each falsy reply
   * field falls back to the file's. `body` is the result of `.json()`, `None`
   * when it fails.
   */
  function UploadOutcome(ok: bool, status: nat, body: Option<Json>, file: FileInfo): (r: Result<UploadRef, ReplyError>)
    ensures !ok ==> r == Failure(StatusFailed("Upload failed: HTTP " + NatToString(status)))
    ensures ok && body.None? ==> r == Failure(ReplyNotJson)
    ensures ok && body == Some(JNull) ==> r == Failure(ReplyIsNull)
    ensures r.Success? <==> ok && body.Some? && body.value != JNull
    ensures r.Success? && PropOf(body, "id").Some? && PropOf(body, "id").value.JStr? ==> r.value.id == PropOf(body, "id").value.s
    ensures r.Success? && TruthyString(PropOf(body, "name")) ==> r.value.name == PropOf(body, "name").value.s
    ensures r.Success? && AbsentOrFalsy(PropOf(body, "name")) ==> r.value.name == file.name
    ensures r.Success? && TruthyString(PropOf(body, "mime")) ==> r.value.mime == PropOf(body, "mime").value.s
    ensures r.Success? && AbsentOrFalsy(PropOf(body, "mime")) ==> r.value.mime == file.mime
    ensures r.Success? && PropOf(body, "size").Some? && PropOf(body, "size").value.JNum? && Truthy(PropOf(body, "size").value) ==>
      r.value.size == PropOf(body, "size").value.n.Floor
    ensures r.Success? && AbsentOrFalsy(PropOf(body, "size")) ==> r.value.size == file.size
  {
    if !ok then Failure(StatusFailed("Upload failed: HTTP " + NatToString(status)))
    else if body.None? then Failure(ReplyNotJson)
    else if body.value == JNull then Failure(ReplyIsNull)
    else
      var id := PropOf(body, "id");
      var size := PropOf(body, "size");
      Success(UploadRef(
        if id.Some? && id.value.JStr? then id.value.s else "",
        TextOr(PropOf(body, "name"), file.name),
        TextOr(PropOf(body, "mime"), file.mime),
        if size.Some? && size.value.JNum? && Truthy(size.value) then size.value.n.Floor else file.size))
  }

  /**
   * `transcribeAudio`: a non-ok status throws "Transcription failed: HTTP
   * <status>"; a body that is not JSON, or is `null`, throws; otherwise the
   * reply's text, or "" when it is absent or falsy.
   */
  function TranscribeOutcome(ok: bool, status: nat, body: Option<Json>): (r: Result<string, ReplyError>)
    ensures !ok ==> r == Failure(StatusFailed("Transcription failed: HTTP " + NatToString(status)))
    ensures ok && body.None? ==> r == Failure(ReplyNotJson)
    ensures ok && body == Some(JNull) ==> r == Failure(ReplyIsNull)
    ensures r.Success? <==> ok && body.Some? && body.value != JNull
    ensures r.Success? && TruthyString(PropOf(body, "text")) ==> r.value == PropOf(body, "text").value.s
    ensures r.Success? && AbsentOrFalsy(PropOf(body, "text")) ==> r.value == ""
  {
    if !ok then Failure(StatusFailed("Transcription failed: HTTP " + NatToString(status)))
    else if body.None? then Failure(ReplyNotJson)
    else if body.value == JNull then Failure(ReplyIsNull)
    else Success(TextOr(PropOf(body, "text"), ""))
  }

  // ---------------------------------------------------------------------
  // The client object (lines 15-25, 62-68, 218-224)
  // ---------------------------------------------------------------------

  class ChatClient {
    var settings: ChatSettings
    var abortController: Option<AbortController>

    constructor (s: ChatSettings)
      ensures settings == s && abortController == None
    {
      settings := s;
      abortController := None;
    }

    method UpdateSettings(s: ChatSettings)
      modifies this`settings
      ensures settings == s
    {
      settings := s;
    }

    /**
     * The synchronous part of `sendChat`: install a fresh abort controller
     * and build the request body. The caller then feeds the fetch result to
     * `SendOutcome`.
     */
    method BeginSendChat(o: SendChatOptions) returns (body: Json)
      modifies this`abortController
      ensures abortController.Some? && fresh(abortController.value) && !abortController.value.aborted
      ensures body == RequestBody(settings, o)
    {
      var ac := new AbortController();
      abortController := Some(ac);
      body := RequestBody(settings, o);
    }

    /** `abort()`: abort the controller of the latest call, if there is one. */
    method Abort()
      modifies if abortController.Some? then {abortController.value} else {}
      ensures abortController.Some? ==> abortController.value.aborted
    {
      if abortController.Some? {
        abortController.value.Abort();
      }
    }

    /**
     * `cancel()` of the stream `sendChat` returns, as written: there `this`
     * is the underlying-source object, which has no `abortController`, so
     * the call's controller is left as it was and the request runs on.
     */
    method CancelAsWritten()
      ensures abortController.Some? ==> abortController.value.aborted == old(abortController.value.aborted)
    {
    }

    /** `isStreaming()`: a call was made and its controller is not aborted (so it stays true after a normal end). */
    predicate IsStreaming()
      reads this, if abortController.Some? then {abortController.value} else {}
    {
      abortController.Some? && !abortController.value.aborted
    }
  }

  /**
   * A consumer that cancels the stream of a call in flight: as written the
   * call's controller stays un-aborted, while the intended `cancel()`, the
   * client's `abort()`, aborts it.
   */
  method CancelLeavesCallRunning(s: ChatSettings, o: SendChatOptions) returns (asWritten: bool, intended: bool)
    ensures !asWritten && intended
  {
    var c := new ChatClient(s);
    var _ := c.BeginSendChat(o);
    c.CancelAsWritten();
    asWritten := c.abortController.value.aborted;
    c.Abort();
    intended := c.abortController.value.aborted;
  }

  // ---------------------------------------------------------------------
  // The mock client (lines 228-292)
  // ---------------------------------------------------------------------

  const MockResponse: string := "This service is not configured yet. Please set up your backend API endpoint in the Admin Settings to enable AI-powered legal assistance."

  const MockTranscription: string := "This service is not configured yet. Please set up your backend API endpoint in Admin Settings to enable speech-to-text."

  /** The one-character strings of `s`, in order. */
  function Chars(s: string): (r: seq<string>)
    ensures |r| == |s| && forall k :: 0 <= k < |s| ==> r[k] == [s[k]]
  {
    seq(|s|, k requires 0 <= k < |s| => [s[k]])
  }

  /** Joining one-character strings gives the text back. */
  lemma {:induction false} CharsConcat(s: string)
    ensures Concat(Chars(s)) == s
    decreases |s|
  {
    if s != [] {
      CharsConcat(s[..|s| - 1]);
      assert Chars(s) == Chars(s[..|s| - 1]) + [[s[|s| - 1]]];
      ConcatAppend(Chars(s[..|s| - 1]), [s[|s| - 1]]);
      assert s == s[..|s| - 1] + [s[|s| - 1]];
    }
  }

  /** One more character of a prefix adds its one-character string. */
  lemma CharsSnoc(s: string, i: nat)
    requires i < |s|
    ensures Chars(s[..i + 1]) == Chars(s[..i]) + [[s[i]]]
  {
  }

  /** Concatenation of strings, as `fullContent += value` accumulates them. */
  function Concat(parts: seq<string>): string {
    if parts == [] then "" else parts[0] + Concat(parts[1..])
  }

  lemma {:induction false} ConcatAppend(parts: seq<string>, last: string)
    ensures Concat(parts + [last]) == Concat(parts) + last
    decreases |parts|
  {
    if parts != [] {
      assert (parts + [last])[1..] == parts[1..] + [last];
      ConcatAppend(parts[1..], last);
    } else {
      assert parts + [last] == [last];
    }
  }

  /**
   * The mock client's stream: an interval emits `MockResponse` one character
   * per tick and closes after the last. The inherited abort controller is
   * never installed by the mock's `sendChat`, so its abort test never fires.
   */
  class MockClient {
    var abortController: Option<AbortController>
    var i: nat
    var enqueued: seq<string>
    var closed: bool
    var intervalSet: bool

    ghost predicate Valid()
      reads this
    {
      i <= |MockResponse| && enqueued == Chars(MockResponse[..i]) && (closed ==> !intervalSet)
    }

    constructor ()
      ensures Valid() && abortController == None && !intervalSet && !closed
    {
      abortController := None;
      i := 0;
      enqueued := [];
      closed := false;
      intervalSet := false;
    }

    /** `sendChat`: a fresh stream whose `start` sets the interval. */
    method SendChat()
      modifies this`i, this`enqueued, this`closed, this`intervalSet
      ensures Valid() && i == 0 && enqueued == [] && !closed && intervalSet
    {
      i := 0;
      enqueued := [];
      closed := false;
      intervalSet := true;
    }

    /** One interval callback; a cleared interval fires no more. */
    method Tick()
      requires Valid()
      modifies this`i, this`enqueued, this`closed, this`intervalSet
      ensures Valid()
      ensures !old(intervalSet) ==> i == old(i) && closed == old(closed) && !intervalSet
      ensures old(intervalSet) && abortController.None? ==>
        if old(i) < |MockResponse| then i == old(i) + 1 && !closed && intervalSet
        else i == old(i) && closed && !intervalSet
    {
      if !intervalSet {
        return;
      }
      if abortController.Some? && abortController.value.aborted {
        closed := true;
        intervalSet := false;
        return;
      }
      if i < |MockResponse| {
        CharsSnoc(MockResponse, i);
        enqueued := enqueued + [[MockResponse[i]]];
        i := i + 1;
      } else {
        closed := true;
        intervalSet := false;
      }
    }

    /** `abort()`: clear the interval; there is no controller to abort. */
    method Abort()
      modifies this`intervalSet
      ensures !intervalSet
    {
      intervalSet := false;
    }
  }

  /** A closed mock stream has delivered the whole canned reply, one character at a time. */
  lemma MockDeliversReply(i: nat, enqueued: seq<string>)
    requires i == |MockResponse| && enqueued == Chars(MockResponse[..i])
    ensures Concat(enqueued) == MockResponse
  {
    assert MockResponse[..i] == MockResponse;
    CharsConcat(MockResponse);
  }
}
