/**
 * The persisted form of the chat store (`lib/store/useChatStore.ts`, the
 * `persist` options): `serialize` writes the state with `JSON.stringify`,
 * which turns every date into an ISO-8601 string (or `null` for an invalid
 * date); `deserialize` turns the date fields back into dates and gives a
 * session without messages an empty list.
 *
 * The stored form is kept structured: a date field is a `Stamp` rather than
 * its text, and the rest of the JSON text is not modelled.
 */
module Persistence {
  import opened Wrappers
  import opened ChatTypes
  import opened ChatStore

  /** The storage key the store is saved under. */
  const StorageKey: string := "psalm_chats_v1"

  /** A date field as stored: an ISO string (given by its millisecond value), `null`, or missing. */
  datatype Stamp = IsoStamp(ms: int) | NullStamp | MissingStamp

  datatype StoredMessage = StoredMessage(
    id: string,
    role: Role,
    content: string,
    timestamp: Stamp,
    citations: Option<seq<Citation>>,
    isStreaming: Option<bool>)

  /** A stored session; `messages` is `None` when the key is missing. */
  datatype StoredSession = StoredSession(
    id: string,
    title: string,
    messages: Option<seq<StoredMessage>>,
    createdAt: Stamp,
    updatedAt: Stamp,
    jurisdiction: Option<string>,
    systemPrompt: Option<string>,
    attachments: Option<seq<UploadRef>>,
    prefillContent: Option<string>)

  /** The stored `state`: either field may be missing. */
  datatype StoredState = StoredState(sessions: Option<seq<StoredSession>>, currentSessionId: Option<string>)

  /** `Date.prototype.toJSON`: the ISO string of a valid date, `null` for an invalid one. */
  function StampOf(d: Date): (r: Stamp)
    ensures r.MissingStamp? == false
    ensures d.Date? <==> r.IsoStamp?
  {
    match d
    case Date(ms) => IsoStamp(ms)
    case InvalidDate => NullStamp
  }

  /** `new Date(x)`: an ISO string gives its instant back, `null` gives the epoch, `undefined` gives an invalid date. */
  function Revive(s: Stamp): (r: Date)
    ensures s.IsoStamp? ==> r == Date(s.ms)
    ensures r.InvalidDate? <==> s.MissingStamp?
  {
    match s
    case IsoStamp(ms) => Date(ms)
    case NullStamp => Date(0)
    case MissingStamp => InvalidDate
  }

  /** What a date becomes after a save and a load: a valid date is kept, an invalid one becomes the epoch. */
  function Normalized(d: Date): Date {
    if d.Date? then d else Date(0)
  }

  lemma ReviveStampOf(d: Date)
    ensures Revive(StampOf(d)) == Normalized(d)
    ensures d.Date? ==> Revive(StampOf(d)) == d
  {
  }

  function StoreMessage(m: Message): StoredMessage {
    StoredMessage(m.id, m.role, m.content, StampOf(m.timestamp), m.citations, m.isStreaming)
  }

  function StoreSession(s: Session): StoredSession {
    StoredSession(s.id, s.title, Some(seq(|s.messages|, i requires 0 <= i < |s.messages| => StoreMessage(s.messages[i]))),
      StampOf(s.createdAt), StampOf(s.updatedAt), s.jurisdiction, s.systemPrompt, s.attachments, s.prefillContent)
  }

  /** `serialize`: the whole state, dates as stamps. */
  function Serialize(sessions: seq<Session>, current: Option<string>): (r: StoredState)
    ensures r.sessions.Some? && |r.sessions.value| == |sessions|
    ensures forall i :: 0 <= i < |sessions| ==> r.sessions.value[i].id == sessions[i].id
    ensures r.currentSessionId == current
  {
    StoredState(Some(seq(|sessions|, i requires 0 <= i < |sessions| => StoreSession(sessions[i]))), current)
  }

  function LoadMessage(m: StoredMessage): Message {
    Message(m.id, m.role, m.content, Revive(m.timestamp), m.citations, m.isStreaming)
  }

  function LoadSession(s: StoredSession): (r: Session)
    ensures s.messages.None? ==> r.messages == []
    ensures s.messages.Some? ==> |r.messages| == |s.messages.value|
  {
    var msgs := s.messages.GetOr([]);
    Session(s.id, s.title, seq(|msgs|, i requires 0 <= i < |msgs| => LoadMessage(msgs[i])),
      Revive(s.createdAt), Revive(s.updatedAt), s.jurisdiction, s.systemPrompt, s.attachments, s.prefillContent)
  }

  /** `deserialize`, and the store's rehydration: missing sessions leave the store's initial empty list. */
  function Deserialize(st: StoredState): (r: seq<Session>)
    ensures st.sessions.None? ==> r == []
    ensures st.sessions.Some? ==> |r| == |st.sessions.value|
    ensures st.sessions.Some? ==> forall i :: 0 <= i < |r| ==> r[i].id == st.sessions.value[i].id && r[i].title == st.sessions.value[i].title
  {
    var ss := st.sessions.GetOr([]);
    seq(|ss|, i requires 0 <= i < |ss| => LoadSession(ss[i]))
  }

  /** Every date of a message and a session as it comes back from a save and a load. */
  function NormalizedMessage(m: Message): Message {
    m.(timestamp := Normalized(m.timestamp))
  }

  function NormalizedSession(s: Session): Session {
    s.(messages := seq(|s.messages|, i requires 0 <= i < |s.messages| => NormalizedMessage(s.messages[i])),
       createdAt := Normalized(s.createdAt), updatedAt := Normalized(s.updatedAt))
  }

  /** All the dates of the sessions are valid. */
  predicate DatesValid(sessions: seq<Session>) {
    forall i :: 0 <= i < |sessions| ==>
      sessions[i].createdAt.Date? && sessions[i].updatedAt.Date?
      && forall k :: 0 <= k < |sessions[i].messages| ==> sessions[i].messages[k].timestamp.Date?
  }

  lemma SessionRoundTrip(s: Session)
    ensures LoadSession(StoreSession(s)) == NormalizedSession(s)
  {
    var a := LoadSession(StoreSession(s)).messages;
    var b := NormalizedSession(s).messages;
    assert |a| == |b|;
    forall k | 0 <= k < |a| ensures a[k] == b[k] {
      ReviveStampOf(s.messages[k].timestamp);
    }
    ReviveStampOf(s.createdAt);
    ReviveStampOf(s.updatedAt);
  }

  /**
   * Round trip: loading what was saved gives the sessions back in order with
   * every field kept, except that an invalid date comes back as the epoch
   * (`isStreaming` flags are kept as saved).
   */
  lemma RoundTrip(sessions: seq<Session>, current: Option<string>)
    ensures Deserialize(Serialize(sessions, current)) == seq(|sessions|, i requires 0 <= i < |sessions| => NormalizedSession(sessions[i]))
  {
    var r := Deserialize(Serialize(sessions, current));
    forall i | 0 <= i < |sessions| ensures r[i] == NormalizedSession(sessions[i]) {
      SessionRoundTrip(sessions[i]);
    }
  }

  lemma NormalizedValid(s: Session)
    requires s.createdAt.Date? && s.updatedAt.Date?
    requires forall k :: 0 <= k < |s.messages| ==> s.messages[k].timestamp.Date?
    ensures NormalizedSession(s) == s
  {
    assert NormalizedSession(s).messages == s.messages;
  }

  /** With valid dates throughout, a save and a load give exactly the same sessions. */
  lemma RoundTripExact(sessions: seq<Session>, current: Option<string>)
    requires DatesValid(sessions)
    ensures Deserialize(Serialize(sessions, current)) == sessions
  {
    RoundTrip(sessions, current);
    forall i | 0 <= i < |sessions| ensures NormalizedSession(sessions[i]) == sessions[i] {
      NormalizedValid(sessions[i]);
    }
  }

  /** A stored session without a messages key comes back with no messages and an invalid date for each missing stamp. */
  lemma MissingFieldsLoad(s: StoredSession)
    requires s.messages.None? && s.createdAt.MissingStamp?
    ensures LoadSession(s).messages == [] && LoadSession(s).createdAt == InvalidDate
  {
  }

  /** Rehydration at start-up: the loaded sessions and pointer replace the store's. */
  method Rehydrate(store: Store, st: StoredState)
    modifies store
    ensures store.sessions == Deserialize(st)
    ensures store.currentSessionId == st.currentSessionId
  {
    store.sessions := Deserialize(st);
    store.currentSessionId := st.currentSessionId;
  }
}
