/**
 * The chat canvas's handlers in `components/app/chat-canvas-fixed.tsx`:
 * sending a message, regenerating an answer, stopping a generation, and
 * creating a session from the empty state. The message list is always
 * written whole through `updateSession`, built from the session as it was
 * when the handler started.
 *
 * The stream a handler reads is given: the tokens it delivers and how the
 * read loop ends. Awaits are not interleaved with other handlers.
 */
module ChatCanvasFixed {
  import opened Wrappers
  import opened ChatTypes
  import opened Seqs
  import opened ChatStore
  import opened LawyerClient

  /** How a handler's `try` block ends: the stream closed, or something threw (an `AbortError` or another error). */
  datatype Outcome = Completed | Threw(abortError: bool)

  const StoppedText: string := "Generation stopped by user."
  const SendErrorText: string := "Sorry, I encountered an error. Please check your connection and try again."
  const RegenStoppedText: string := "Regeneration stopped by user."
  const RegenErrorText: string := "Sorry, I encountered an error while regenerating. Please try again."
  const StopSuffix: string := "\n\n[Generation stopped]"

  /** The content a handler writes last: all tokens after a normal end, else the error text for the kind of error. */
  function FinalContent(tokens: seq<string>, outcome: Outcome, stopped: string, failed: string): (r: string)
    ensures outcome == Completed ==> r == Concat(tokens)
    ensures outcome == Threw(true) ==> r == stopped
    ensures outcome == Threw(false) ==> r == failed
  {
    match outcome
    case Completed => Concat(tokens)
    case Threw(abortError) => if abortError then stopped else failed
  }

  function UserMessage(id: string, content: string, now: Date): Message {
    Message(id, User, content, now, None, None)
  }

  /** The assistant placeholder: empty and streaming. */
  function Placeholder(id: string, now: Date): Message {
    Message(id, Assistant, "", now, None, Some(true))
  }

  /** The list the send handler writes: the snapshot, the user message, and the placeholder with the given content and flag. */
  function Exchange(snapshot: seq<Message>, user: Message, assistant: Message, content: string, streaming: bool): (r: seq<Message>)
    ensures |r| == |snapshot| + 2 && r[..|snapshot|] == snapshot && r[|snapshot|] == user
    ensures r[|snapshot| + 1].id == assistant.id && r[|snapshot| + 1].role == assistant.role
    ensures r[|snapshot| + 1].content == content && r[|snapshot| + 1].Streaming() == streaming
  {
    snapshot + [user, assistant.(content := content, isStreaming := Some(streaming))]
  }

  /** The first write of a send is the snapshot with the user message and the bare placeholder. */
  lemma ExchangeStart(snapshot: seq<Message>, user: Message, id: string, now: Date)
    ensures Exchange(snapshot, user, Placeholder(id, now), "", true) == snapshot + [user, Placeholder(id, now)]
  {
  }

  /** `messages.map(m => m.id === id ? { ...m, content, isStreaming } : m)`. */
  function Retarget(msgs: seq<Message>, id: string, content: string, streaming: bool): (r: seq<Message>)
    ensures |r| == |msgs|
    ensures forall i :: 0 <= i < |msgs| && msgs[i].id == id ==>
      r[i] == msgs[i].(content := content, isStreaming := Some(streaming))
    ensures forall i :: 0 <= i < |msgs| && msgs[i].id != id ==> r[i] == msgs[i]
  {
    MapIf(msgs, (m: Message) => m.id == id, (m: Message) => m.(content := content, isStreaming := Some(streaming)))
  }

  /** The stop handler's rewrite: the streaming message keeps its text, gains the stop suffix and stops streaming. */
  function MarkStopped(msgs: seq<Message>, id: string): (r: seq<Message>)
    ensures |r| == |msgs|
    ensures forall i :: 0 <= i < |msgs| && msgs[i].id == id ==>
      r[i] == msgs[i].(isStreaming := Some(false), content := msgs[i].content + StopSuffix)
    ensures forall i :: 0 <= i < |msgs| && msgs[i].id != id ==> r[i] == msgs[i]
  {
    MapIf(msgs, (m: Message) => m.id == id, (m: Message) => m.(isStreaming := Some(false), content := m.content + StopSuffix))
  }

  /** How the empty state names the session's jurisdiction. */
  function JurisdictionLabel(j: Option<string>): Option<string> {
    if j == Some("US") then Some("United States") else j
  }

  lemma JurisdictionLabelOnlyUS(j: Option<string>)
    ensures JurisdictionLabel(j) != j <==> j == Some("US")
  {
  }

  /** The test `msg => msg.id === id`. */
  function IdIs(id: string): Message -> bool {
    (m: Message) => m.id == id
  }

  /** `messages.findIndex(msg => msg.id === id)`, with -1 as `None`: the first message with that id. */
  function IndexOfMessage(msgs: seq<Message>, id: string): (r: Option<nat>)
    ensures r.Some? ==> r.value < |msgs| && msgs[r.value].id == id && forall j :: 0 <= j < r.value ==> msgs[j].id != id
    ensures r.None? <==> forall j :: 0 <= j < |msgs| ==> msgs[j].id != id
  {
    FindIndex(msgs, IdIs(id))
  }

  /**
   * The read loop of the send and regenerate handlers: after each token the
   * message list built from everything read so far is written to the
   * session, each write replacing the one before. At the end the text read
   * is all the tokens joined, and the store holds the write for it (or is
   * as it was, when no token came).
   */
  method ReadStream(store: Store, sid: string, write: (string, bool) -> seq<Message>, now: Date, tokens: seq<string>)
    returns (full: string)
    modifies store`sessions
    ensures full == Concat(tokens)
    ensures tokens == [] ==> store.sessions == old(store.sessions)
    ensures tokens != [] ==> store.sessions == WriteMessages(old(store.sessions), sid, write(full, true), now)
  {
    var start := store.sessions;
    full := "";
    var i := 0;
    while i < |tokens|
      invariant 0 <= i <= |tokens|
      invariant full == Concat(tokens[..i])
      invariant i == 0 ==> store.sessions == start
      invariant i > 0 ==> store.sessions == WriteMessages(start, sid, write(full, true), now)
    {
      ConcatAppend(tokens[..i], tokens[i]);
      assert tokens[..i + 1] == tokens[..i] + [tokens[i]];
      var prev := full;
      full := full + tokens[i];
      if i > 0 {
        WriteMessagesTwice(start, sid, write(prev, true), now, write(full, true), now);
      }
      store.UpdateSession(sid, MessagesPatch(write(full, true)), now);
      i := i + 1;
    }
    assert tokens[..i] == tokens;
  }

  /**
   * The read loop followed by the handler's last write: whatever the stream
   * delivered, the store ends holding the list built from the final content,
   * not streaming, as if only that write had happened.
   */
  method StreamThenSettle(store: Store, sid: string, write: (string, bool) -> seq<Message>, now: Date,
                          tokens: seq<string>, last: string)
    returns (full: string)
    modifies store`sessions
    ensures full == Concat(tokens)
    ensures store.sessions == WriteMessages(old(store.sessions), sid, write(last, false), now)
  {
    var start := store.sessions;
    full := ReadStream(store, sid, write, now, tokens);
    if tokens != [] {
      WriteMessagesTwice(start, sid, write(full, true), now, write(last, false), now);
    }
    store.UpdateSession(sid, MessagesPatch(write(last, false)), now);
  }

  /**
   * The store writes of a regeneration: the message with that id is reset to
   * empty and streaming, rewritten as the stream is read, and settled with
   * the last content; the net effect is the one settling write.
   */
  method RegenerateWrites(store: Store, sid: string, msgs: seq<Message>, messageId: string, now: Date,
                          tokens: seq<string>, last: string)
    modifies store`sessions
    ensures store.sessions == WriteMessages(old(store.sessions), sid, Retarget(msgs, messageId, last, false), now)
  {
    var s0 := store.sessions;
    var write := (c: string, streaming: bool) => Retarget(msgs, messageId, c, streaming);
    store.UpdateSession(sid, MessagesPatch(write("", true)), now);
    var full := StreamThenSettle(store, sid, write, now, tokens, last);
    WriteMessagesTwice(s0, sid, write("", true), now, write(last, false), now);
  }

  class Canvas {
    var store: Store
    var streamingMessageId: Option<string>

    constructor (store: Store)
      ensures this.store == store && streamingMessageId == None
    {
      this.store := store;
      streamingMessageId := None;
    }

    /** The composer is disabled while a message is streaming. */
    predicate ComposerDisabled()
      reads this
    {
      streamingMessageId.Some?
    }

    /**
     * `handleSendMessage`: without a client or a session nothing happens.
     * Otherwise one write puts the user message and the placeholder after
     * the snapshot; the request carries the snapshot and the user message;
     * each token rewrites the placeholder with everything read so far; the
     * last write holds the full text (or the error text) and ends streaming;
     * the streaming id is cleared on every path.
     */
    method HandleSendMessage(session: Option<Session>, client: Option<ChatClient>, content: string,
                             attachments: seq<UploadRef>, userId: string, assistantId: string, now: Date,
                             tokens: seq<string>, outcome: Outcome)
      returns (request: Option<SendChatOptions>)
      modifies this`streamingMessageId, store`sessions, if client.Some? then {client.value} else {}
      ensures client.None? || session.None? ==>
        request.None? && store.sessions == old(store.sessions) && streamingMessageId == old(streamingMessageId)
      ensures client.Some? && session.Some? ==>
        && request == Some(SendChatOptions(session.value.messages + [UserMessage(userId, content, now)],
                                           None, session.value.jurisdiction, Some(attachments)))
        && store.sessions == WriteMessages(old(store.sessions), session.value.id,
             Exchange(session.value.messages, UserMessage(userId, content, now), Placeholder(assistantId, now),
                      FinalContent(tokens, outcome, StoppedText, SendErrorText), false), now)
        && streamingMessageId == None
        && client.value.abortController.Some? && fresh(client.value.abortController.value)
    {
      if client.None? || session.None? {
        return None;
      }
      var sid := session.value.id;
      var snapshot := session.value.messages;
      var user := UserMessage(userId, content, now);
      var assistant := Placeholder(assistantId, now);
      var s0 := store.sessions;
      store.UpdateSession(sid, MessagesPatch(snapshot + [user, assistant]), now);
      ExchangeStart(snapshot, user, assistantId, now);
      streamingMessageId := Some(assistantId);
      request := Some(SendChatOptions(snapshot + [user], None, session.value.jurisdiction, Some(attachments)));
      var body := client.value.BeginSendChat(request.value);
      var write := (c: string, streaming: bool) => Exchange(snapshot, user, assistant, c, streaming);
      assert store.sessions == WriteMessages(s0, sid, write("", true), now);
      var last := FinalContent(tokens, outcome, StoppedText, SendErrorText);
      var full := StreamThenSettle(store, sid, write, now, tokens, last);
      WriteMessagesTwice(s0, sid, write("", true), now, write(last, false), now);
      streamingMessageId := None;
    }

    /**
     * `handleRegenerate`: nothing happens without a client, a session, or a
     * message with that id. Otherwise the request carries the messages
     * strictly before the first one with that id; the message is reset to
     * empty and streaming, rewritten with the text read so far after each
     * token, and ends with the full text (or the error text), not streaming.
     */
    method HandleRegenerate(session: Option<Session>, client: Option<ChatClient>, messageId: string, now: Date,
                            tokens: seq<string>, outcome: Outcome)
      returns (request: Option<SendChatOptions>)
      modifies this`streamingMessageId, store`sessions, if client.Some? then {client.value} else {}
      ensures client.None? || session.None? || IndexOfMessage(session.value.messages, messageId).None? ==>
        request.None? && store.sessions == old(store.sessions) && streamingMessageId == old(streamingMessageId)
      ensures client.Some? && session.Some? && IndexOfMessage(session.value.messages, messageId).Some? ==>
        && request == Some(SendChatOptions(session.value.messages[..IndexOfMessage(session.value.messages, messageId).value],
                                           None, session.value.jurisdiction, None))
        && store.sessions == WriteMessages(old(store.sessions), session.value.id,
             Retarget(session.value.messages, messageId, FinalContent(tokens, outcome, RegenStoppedText, RegenErrorText), false), now)
        && streamingMessageId == None
        && client.value.abortController.Some? && fresh(client.value.abortController.value)
    {
      if client.None? || session.None? {
        return None;
      }
      var index := IndexOfMessage(session.value.messages, messageId);
      if index.None? {
        return None;
      }
      var sid := session.value.id;
      var msgs := session.value.messages;
      streamingMessageId := Some(messageId);
      request := Some(SendChatOptions(msgs[..index.value], None, session.value.jurisdiction, None));
      var body := client.value.BeginSendChat(request.value);
      RegenerateWrites(store, sid, msgs, messageId, now, tokens, FinalContent(tokens, outcome, RegenStoppedText, RegenErrorText));
      streamingMessageId := None;
    }

    /**
     * `handleStopGeneration`: only with a client, a streaming message and a
     * session. It aborts the client's call, appends the stop suffix to the
     * streaming message of the session as given and ends its streaming, and
     * clears the streaming id.
     */
    method HandleStopGeneration(session: Option<Session>, client: Option<ChatClient>, now: Date)
      modifies this`streamingMessageId, store`sessions,
        if client.Some? && client.value.abortController.Some? then {client.value.abortController.value} else {}
      ensures !(client.Some? && old(streamingMessageId).Some? && session.Some?) ==>
        store.sessions == old(store.sessions) && streamingMessageId == old(streamingMessageId)
      ensures client.Some? && old(streamingMessageId).Some? && session.Some? ==>
        && store.sessions == WriteMessages(old(store.sessions), session.value.id,
             MarkStopped(session.value.messages, old(streamingMessageId).value), now)
        && streamingMessageId == None
        && (client.value.abortController.Some? ==> client.value.abortController.value.aborted)
    {
      if client.Some? && streamingMessageId.Some? && session.Some? {
        client.value.Abort();
        store.UpdateSession(session.value.id, MessagesPatch(MarkStopped(session.value.messages, streamingMessageId.value)), now);
        streamingMessageId := None;
      }
    }

    /**
     * `createAndSelectSession`: always a new session, made current. With a
     * preset it is built from the preset; without one it is created from an
     * empty preset and its prompts are cleared, which leaves it as built.
     */
    method CreateAndSelectSession(preset: Option<Preset>, freshId: string, systemId: string, now: Date) returns (id: string)
      requires forall i :: 0 <= i < |store.sessions| ==> store.sessions[i].id != freshId
      modifies store
      ensures id == freshId && store.currentSessionId == Some(freshId)
      ensures store.sessions == [NewSession(preset.GetOr(NoPreset), freshId, systemId, now)] + old(store.sessions)
    {
      if preset.Some? {
        id := store.CreateChat(preset, freshId, systemId, now);
        store.SetCurrentSession(Some(id));
        return;
      }
      id := CreateBlankChat(store, freshId, systemId, now);
      store.SetCurrentSession(Some(id));
    }
  }
}
