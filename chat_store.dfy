/**
 * The session store (`lib/store/useChatStore.ts`): a list of chat sessions
 * and a nullable pointer to the current one. Every action replaces the two
 * fields; the per-session rewrites are pure functions over `Session` and the
 * list-level rewrites are `filter`/`map` over the sessions.
 *
 * Fresh ids (`Math.random().toString(36)`) and the clock (`new Date()`) are
 * parameters: the caller supplies a fresh id and the current date.
 */
module ChatStore {
  import opened Wrappers
  import opened ChatTypes
  import opened Seqs

  const NewChatTitle: string := "New Chat"

  /** How many characters of the first user message become the title. */
  const TitleLength: nat := 50

  /** The optional preset argument of `createChat`: every field may be missing. */
  datatype Preset = Preset(system: Option<string>, prefill: Option<string>, jurisdiction: Option<string>)

  const NoPreset: Preset := Preset(None, None, None)

  /** `preset?.system` read as a condition: present and non-empty. */
  predicate SeedsSystem(p: Preset) {
    p.system.Some? && p.system.value != ""
  }

  /** A session that `createChat()` may hand out again: no messages, or a single system message. */
  predicate IsEmptyChat(s: Session) {
    |s.messages| == 0 || (|s.messages| == 1 && s.messages[0].role == System)
  }

  /** The session `createChat` builds from a preset, a fresh session id, a fresh message id and the current date. */
  function NewSession(p: Preset, id: string, systemId: string, now: Date): Session {
    Session(
      id, NewChatTitle,
      if SeedsSystem(p) then [Message(systemId, System, p.system.value, now, None, None)] else [],
      now, now, p.jurisdiction, p.system, None, p.prefill)
  }

  /**
   * A new session is titled "New Chat", created and updated at the same
   * moment, copies the preset's fields, and holds exactly one system message
   * carrying the preset's system text iff that text is non-empty.
   */
  lemma NewSessionShape(p: Preset, id: string, systemId: string, now: Date)
    ensures var s := NewSession(p, id, systemId, now);
      && s.id == id && s.title == "New Chat" && s.createdAt == now && s.updatedAt == now
      && s.jurisdiction == p.jurisdiction && s.systemPrompt == p.system && s.prefillContent == p.prefill
      && (|s.messages| == 1 <==> SeedsSystem(p))
      && (|s.messages| != 1 ==> s.messages == [])
      && (SeedsSystem(p) ==> s.messages[0].role == System && s.messages[0].content == p.system.value)
  {
  }

  /**
   * A session that `createChat(preset)` has just put in front is the first
   * empty chat, so a following `createChat()` hands that same id back.
   */
  lemma {:induction false} CreatedIsReused(p: Preset, id: string, systemId: string, now: Date, rest: seq<Session>)
    ensures FindIndex([NewSession(p, id, systemId, now)] + rest, IsEmptyChat) == Some(0)
  {
    var all := [NewSession(p, id, systemId, now)] + rest;
    assert IsEmptyChat(all[0]);
  }

  /** The title `addMessage` derives from the first user message: its first 50 characters, plus "..." when it is longer. */
  function DeriveTitle(content: string): (t: string)
    ensures |content| <= TitleLength ==> t == content
    ensures |content| > TitleLength ==> |t| == TitleLength + 3 && t[..TitleLength] == content[..TitleLength] && t[TitleLength..] == "..."
  {
    if |content| > TitleLength then content[..TitleLength] + "..." else content
  }

  /** The messages that are not system messages. */
  function NonSystem(msgs: seq<Message>): seq<Message> {
    Filter(msgs, (m: Message) => m.role != System)
  }

  /** `addMessage` on the matching session: append, touch, and title it from the first user message. */
  function AppendMessage(s: Session, m: Message, now: Date): Session {
    s.(messages := s.messages + [m],
       updatedAt := now,
       title := if |NonSystem(s.messages)| == 0 && m.role == User then DeriveTitle(m.content) else s.title)
  }

  /**
   * Appending puts the message at the tail and keeps the rest; the title is
   * re-derived exactly when this is the first non-system message and it comes
   * from the user, and is kept otherwise.
   */
  lemma {:induction false} AppendMessageTitle(s: Session, m: Message, now: Date)
    ensures var r := AppendMessage(s, m, now);
      && r.messages[..|s.messages|] == s.messages && r.messages[|s.messages|] == m && |r.messages| == |s.messages| + 1
      && (m.role == User && (forall i :: 0 <= i < |s.messages| ==> s.messages[i].role == System) ==> r.title == DeriveTitle(m.content))
      && (m.role != User || (exists i :: 0 <= i < |s.messages| && s.messages[i].role != System) ==> r.title == s.title)
      && r.id == s.id && r.createdAt == s.createdAt && r.jurisdiction == s.jurisdiction
  {
    var r := AppendMessage(s, m, now);
    assert r.messages[..|s.messages|] == s.messages;
    if exists i :: 0 <= i < |s.messages| && s.messages[i].role != System {
      var i :| 0 <= i < |s.messages| && s.messages[i].role != System;
      assert s.messages[i] in NonSystem(s.messages);
    }
  }

  function RenameSession(s: Session, title: string, now: Date): Session {
    s.(title := title, updatedAt := now)
  }

  function ClearSessionMessages(s: Session, now: Date): Session {
    s.(messages := [], updatedAt := now)
  }

  function SetSessionJurisdiction(s: Session, code: string, now: Date): Session {
    s.(jurisdiction := Some(code), updatedAt := now)
  }

  /**
   * `Partial<ChatSession>`: a field is absent (`None`) or given. For the
   * optional fields the given value may itself be `undefined`, so those are
   * `Option<Option<…>>`. A given `updatedAt` is always overwritten by the
   * store, so it is not represented.
   */
  datatype SessionPatch = SessionPatch(
    id: Option<string>,
    title: Option<string>,
    messages: Option<seq<Message>>,
    createdAt: Option<Date>,
    jurisdiction: Option<Option<string>>,
    systemPrompt: Option<Option<string>>,
    attachments: Option<Option<seq<UploadRef>>>,
    prefillContent: Option<Option<string>>)

  /** A patch that gives nothing but the messages. */
  function MessagesPatch(msgs: seq<Message>): SessionPatch {
    SessionPatch(None, None, Some(msgs), None, None, None, None, None)
  }

  /** A patch that gives nothing but the attachments. */
  function AttachmentsPatch(a: seq<UploadRef>): SessionPatch {
    SessionPatch(None, None, None, None, None, None, Some(Some(a)), None)
  }

  /** `attachments.filter(a => a.id !== id)`: every attachment with that id goes, the others stay in order. */
  function DropUpload(atts: seq<UploadRef>, id: string): (r: seq<UploadRef>)
    ensures forall i :: 0 <= i < |r| ==> r[i].id != id && r[i] in atts
    ensures forall i :: 0 <= i < |atts| && atts[i].id != id ==> atts[i] in r
  {
    Filter(atts, (a: UploadRef) => a.id != id)
  }

  /** Removing an upload just appended under a fresh id gives the list from before. */
  lemma DropUploadAfterAdd(atts: seq<UploadRef>, u: UploadRef)
    requires forall i :: 0 <= i < |atts| ==> atts[i].id != u.id
    ensures DropUpload(atts + [u], u.id) == atts
  {
    FilterConcat(atts, [u], (a: UploadRef) => a.id != u.id);
    assert Filter([u], (a: UploadRef) => a.id != u.id) == [];
  }

  /** `{ prefillContent: undefined, systemPrompt: undefined }`: both prompts given, as missing. */
  const ClearPrompts: SessionPatch := SessionPatch(None, None, None, None, None, Some(None), None, Some(None))

  /** `{ ...session, ...updates, updatedAt: new Date() }`. */
  function PatchSession(s: Session, u: SessionPatch, now: Date): Session {
    Session(
      u.id.GetOr(s.id), u.title.GetOr(s.title), u.messages.GetOr(s.messages),
      u.createdAt.GetOr(s.createdAt), now,
      u.jurisdiction.GetOr(s.jurisdiction), u.systemPrompt.GetOr(s.systemPrompt),
      u.attachments.GetOr(s.attachments), u.prefillContent.GetOr(s.prefillContent))
  }

  /** A given field wins over the session's, an absent one keeps it, and the update time is always `now`. */
  lemma PatchSessionFields(s: Session, u: SessionPatch, now: Date)
    ensures var r := PatchSession(s, u, now);
      && r.updatedAt == now
      && (u.messages.Some? ==> r.messages == u.messages.value) && (u.messages.None? ==> r.messages == s.messages)
      && (u.title.Some? ==> r.title == u.title.value) && (u.title.None? ==> r.title == s.title)
      && (u.attachments.Some? ==> r.attachments == u.attachments.value) && (u.attachments.None? ==> r.attachments == s.attachments)
      && (u.prefillContent.Some? ==> r.prefillContent == u.prefillContent.value) && (u.prefillContent.None? ==> r.prefillContent == s.prefillContent)
      && (u == SessionPatch(None, None, None, None, None, None, None, None) ==> r == s.(updatedAt := now))
  {
  }

  /** `deleteMessage` on the matching session: drop every message with that id. */
  function DropMessage(s: Session, messageId: string, now: Date): Session {
    s.(messages := Filter(s.messages, (m: Message) => m.id != messageId), updatedAt := now)
  }

  /** `editMessage` on the matching session: new content and timestamp for the matching messages. */
  function EditSessionMessage(s: Session, messageId: string, content: string, now: Date): Session {
    s.(messages := MapIf(s.messages, (m: Message) => m.id == messageId,
                         (m: Message) => m.(content := content, timestamp := now)),
       updatedAt := now)
  }

  /** `regenerateMessage` on the matching session: the matching messages are emptied and marked streaming. */
  function RegenerateSessionMessage(s: Session, messageId: string, now: Date): Session {
    s.(messages := MapIf(s.messages, (m: Message) => m.id == messageId,
                         (m: Message) => m.(isStreaming := Some(true), content := "")),
       updatedAt := now)
  }

  /** Deleting a message removes every message with that id and keeps all others in order. */
  lemma DropMessageEffect(s: Session, messageId: string, now: Date)
    ensures var r := DropMessage(s, messageId, now).messages;
      && (forall i :: 0 <= i < |r| ==> r[i].id != messageId && r[i] in s.messages)
      && (forall i :: 0 <= i < |s.messages| && s.messages[i].id != messageId ==> s.messages[i] in r)
  {
  }

  /**
   * Editing keeps the number of messages, and of every message its id, role,
   * citations and streaming flag; only the matching messages change, in
   * content and timestamp alone.
   */
  lemma EditMessageEffect(s: Session, messageId: string, content: string, now: Date)
    ensures var r := EditSessionMessage(s, messageId, content, now).messages;
      && |r| == |s.messages|
      && forall i :: 0 <= i < |r| ==>
           && r[i].id == s.messages[i].id && r[i].role == s.messages[i].role
           && r[i].citations == s.messages[i].citations && r[i].isStreaming == s.messages[i].isStreaming
           && (s.messages[i].id == messageId ==> r[i].content == content && r[i].timestamp == now)
           && (s.messages[i].id != messageId ==> r[i] == s.messages[i])
  {
  }

  /**
   * Regenerating empties the matching messages and marks them streaming,
   * keeping their id, role, timestamp and citations; the others are untouched.
   */
  lemma RegenerateEffect(s: Session, messageId: string, now: Date)
    ensures var r := RegenerateSessionMessage(s, messageId, now).messages;
      && |r| == |s.messages|
      && forall i :: 0 <= i < |r| ==>
           && r[i].id == s.messages[i].id && r[i].role == s.messages[i].role
           && (s.messages[i].id == messageId ==>
                 && r[i].content == "" && r[i].Streaming()
                 && r[i].timestamp == s.messages[i].timestamp && r[i].citations == s.messages[i].citations
                 && r[i].(content := s.messages[i].content, isStreaming := s.messages[i].isStreaming) == s.messages[i])
           && (s.messages[i].id != messageId ==> r[i] == s.messages[i])
  {
  }

  /** `sessions.map(s => s.id === id ? f(s) : s)`. */
  function UpdateWhere(sessions: seq<Session>, id: string, f: Session -> Session): seq<Session> {
    MapIf(sessions, (s: Session) => s.id == id, f)
  }

  /** A per-session action changes only the sessions with the matching id, and keeps the order. */
  lemma UpdateWhereFrame(sessions: seq<Session>, id: string, f: Session -> Session)
    ensures var r := UpdateWhere(sessions, id, f);
      && |r| == |sessions|
      && (forall i :: 0 <= i < |r| && sessions[i].id != id ==> r[i] == sessions[i])
      && (forall i :: 0 <= i < |r| && sessions[i].id == id ==> r[i] == f(sessions[i]))
      && ((forall i :: 0 <= i < |sessions| ==> sessions[i].id != id) ==> r == sessions)
  {
  }

  /** `addMessage(id, message)` over the session list. */
  function AppendTo(sessions: seq<Session>, id: string, m: Message, now: Date): (r: seq<Session>)
    ensures |r| == |sessions|
    ensures forall i :: 0 <= i < |r| && sessions[i].id == id ==> r[i] == AppendMessage(sessions[i], m, now)
    ensures forall i :: 0 <= i < |r| && sessions[i].id != id ==> r[i] == sessions[i]
  {
    UpdateWhere(sessions, id, (s: Session) => AppendMessage(s, m, now))
  }

  /** `updateSession(id, { messages })`: the matching sessions take the new message list. */
  function WriteMessages(sessions: seq<Session>, id: string, msgs: seq<Message>, now: Date): (r: seq<Session>)
    ensures |r| == |sessions|
    ensures forall i :: 0 <= i < |r| && sessions[i].id == id ==>
      r[i] == sessions[i].(messages := msgs, updatedAt := now)
    ensures forall i :: 0 <= i < |r| && sessions[i].id != id ==> r[i] == sessions[i]
  {
    UpdateWhere(sessions, id, (s: Session) => PatchSession(s, MessagesPatch(msgs), now))
  }

  /** A later message write to the same session replaces an earlier one entirely. */
  lemma WriteMessagesTwice(sessions: seq<Session>, id: string, m1: seq<Message>, t1: Date, m2: seq<Message>, t2: Date)
    ensures WriteMessages(WriteMessages(sessions, id, m1, t1), id, m2, t2) == WriteMessages(sessions, id, m2, t2)
  {
    var a := WriteMessages(WriteMessages(sessions, id, m1, t1), id, m2, t2);
    var b := WriteMessages(sessions, id, m2, t2);
    assert |a| == |b|;
    forall i | 0 <= i < |a| ensures a[i] == b[i] {
    }
  }

  /** `sessions.filter(s => s.id !== id)`. */
  function RemoveSession(sessions: seq<Session>, id: string): seq<Session> {
    Filter(sessions, (s: Session) => s.id != id)
  }

  /** The pointer after `deleteChat(id)`: cleared exactly when it pointed at `id`. */
  function PointerAfterDelete(current: Option<string>, id: string): (r: Option<string>)
    ensures r == None <==> current == None || current == Some(id)
    ensures r != None ==> r == current
  {
    if current == Some(id) then None else current
  }

  /**
   * After `deleteChat(id)` no session with that id is left, every other
   * session is still there, and the survivors keep their relative order.
   */
  lemma {:induction false} RemoveSessionEffect(a: seq<Session>, b: seq<Session>, id: string)
    ensures forall i :: 0 <= i < |RemoveSession(a, id)| ==> RemoveSession(a, id)[i].id != id
    ensures forall i :: 0 <= i < |a| && a[i].id != id ==> a[i] in RemoveSession(a, id)
    ensures RemoveSession(a + b, id) == RemoveSession(a, id) + RemoveSession(b, id)
  {
    FilterConcat(a, b, (s: Session) => s.id != id);
  }

  /** `useCurrentSession`: nothing when the pointer is null or empty, else the first session with that id. */
  function CurrentSession(sessions: seq<Session>, current: Option<string>): (r: Option<Session>)
    ensures r.Some? ==> current.Some? && current.value != "" && r.value in sessions && r.value.id == current.value
    ensures r.Some? ==>
      exists i :: 0 <= i < |sessions| && sessions[i] == r.value && forall j :: 0 <= j < i ==> sessions[j].id != current.value
    ensures r.None? <==> current.None? || current.value == "" || forall i :: 0 <= i < |sessions| ==> sessions[i].id != current.value
  {
    if current.None? || current.value == "" then None
    else Find(sessions, (s: Session) => s.id == current.value)
  }

  /** The store: the sessions, newest first, and the current-session pointer. */
  class Store {
    var sessions: seq<Session>
    var currentSessionId: Option<string>

    constructor ()
      ensures sessions == [] && currentSessionId == None
    {
      sessions := [];
      currentSessionId := None;
    }

    /** The session the pointer designates, as the `useCurrentSession` selector reads it. */
    function Current(): Option<Session>
      reads this
    {
      CurrentSession(sessions, currentSessionId)
    }

    /**
     * `createChat(preset?)`. Without a preset the first empty chat is handed
     * back and nothing changes; otherwise, or when there is none, a new
     * session is put in front and made current.
     */
    method CreateChat(preset: Option<Preset>, freshId: string, systemId: string, now: Date) returns (id: string)
      modifies this
      ensures preset.None? && FindIndex(old(sessions), IsEmptyChat).Some? ==>
        && id == old(sessions)[FindIndex(old(sessions), IsEmptyChat).value].id
        && sessions == old(sessions) && currentSessionId == old(currentSessionId)
      ensures preset.Some? || FindIndex(old(sessions), IsEmptyChat).None? ==>
        && id == freshId
        && sessions == [NewSession(preset.GetOr(NoPreset), freshId, systemId, now)] + old(sessions)
        && currentSessionId == Some(freshId)
    {
      if preset.None? {
        var existing := FindIndex(sessions, IsEmptyChat);
        if existing.Some? {
          return sessions[existing.value].id;
        }
      }
      var s := NewSession(preset.GetOr(NoPreset), freshId, systemId, now);
      sessions := [s] + sessions;
      currentSessionId := Some(freshId);
      id := freshId;
    }

    /** `deleteChat(id)`: drop every session with that id; clear the pointer iff it pointed there. */
    method DeleteChat(id: string)
      modifies this
      ensures sessions == RemoveSession(old(sessions), id)
      ensures currentSessionId == PointerAfterDelete(old(currentSessionId), id)
    {
      sessions := RemoveSession(sessions, id);
      currentSessionId := PointerAfterDelete(currentSessionId, id);
    }

    method RenameChat(id: string, title: string, now: Date)
      modifies this`sessions
      ensures sessions == UpdateWhere(old(sessions), id, (s: Session) => RenameSession(s, title, now))
    {
      sessions := UpdateWhere(sessions, id, (s: Session) => RenameSession(s, title, now));
    }

    method AddMessage(id: string, m: Message, now: Date)
      modifies this`sessions
      ensures sessions == AppendTo(old(sessions), id, m, now)
    {
      sessions := AppendTo(sessions, id, m, now);
    }

    method ClearMessages(id: string, now: Date)
      modifies this`sessions
      ensures sessions == UpdateWhere(old(sessions), id, (s: Session) => ClearSessionMessages(s, now))
    {
      sessions := UpdateWhere(sessions, id, (s: Session) => ClearSessionMessages(s, now));
    }

    method SetJurisdiction(id: string, code: string, now: Date)
      modifies this`sessions
      ensures sessions == UpdateWhere(old(sessions), id, (s: Session) => SetSessionJurisdiction(s, code, now))
    {
      sessions := UpdateWhere(sessions, id, (s: Session) => SetSessionJurisdiction(s, code, now));
    }

    method SetCurrentSession(id: Option<string>)
      modifies this`currentSessionId
      ensures currentSessionId == id
    {
      currentSessionId := id;
    }

    method UpdateSession(id: string, u: SessionPatch, now: Date)
      modifies this`sessions
      ensures sessions == UpdateWhere(old(sessions), id, (s: Session) => PatchSession(s, u, now))
    {
      sessions := UpdateWhere(sessions, id, (s: Session) => PatchSession(s, u, now));
    }

    method DeleteMessage(sessionId: string, messageId: string, now: Date)
      modifies this`sessions
      ensures sessions == UpdateWhere(old(sessions), sessionId, (s: Session) => DropMessage(s, messageId, now))
    {
      sessions := UpdateWhere(sessions, sessionId, (s: Session) => DropMessage(s, messageId, now));
    }

    method EditMessage(sessionId: string, messageId: string, content: string, now: Date)
      modifies this`sessions
      ensures sessions == UpdateWhere(old(sessions), sessionId, (s: Session) => EditSessionMessage(s, messageId, content, now))
    {
      sessions := UpdateWhere(sessions, sessionId, (s: Session) => EditSessionMessage(s, messageId, content, now));
    }

    method RegenerateMessage(sessionId: string, messageId: string, now: Date)
      modifies this`sessions
      ensures sessions == UpdateWhere(old(sessions), sessionId, (s: Session) => RegenerateSessionMessage(s, messageId, now))
    {
      sessions := UpdateWhere(sessions, sessionId, (s: Session) => RegenerateSessionMessage(s, messageId, now));
    }

    method ClearAllChats()
      modifies this
      ensures sessions == [] && currentSessionId == None
    {
      sessions := [];
      currentSessionId := None;
    }
  }

  /**
   * `createChat({})` then `updateSession(id, { prefillContent: undefined,
   * systemPrompt: undefined })`, as both the page and the other canvas make a
   * blank chat: an empty preset object is truthy, so a new session is always
   * built and made current, and clearing its prompts leaves it as built.
   */
  method CreateBlankChat(store: Store, freshId: string, systemId: string, now: Date) returns (id: string)
    requires forall i :: 0 <= i < |store.sessions| ==> store.sessions[i].id != freshId
    modifies store
    ensures id == freshId && store.currentSessionId == Some(freshId)
    ensures store.sessions == [NewSession(NoPreset, freshId, systemId, now)] + old(store.sessions)
  {
    var s0 := store.sessions;
    id := store.CreateChat(Some(NoPreset), freshId, systemId, now);
    var created := NewSession(NoPreset, freshId, systemId, now);
    store.UpdateSession(id, ClearPrompts, now);
    assert PatchSession(created, ClearPrompts, now) == created;
    assert store.sessions == [created] + s0 by {
      assert forall i :: 0 <= i < |s0| ==> ([created] + s0)[i + 1] == s0[i];
    }
  }
}
