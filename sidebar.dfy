/**
 * The session sidebar (`components/app/sidebar.tsx`): the title search, the
 * inline rename, duplicating a chat, starting a chat from a preset and the
 * New Chat button. Its own state is the search query and the rename draft;
 * every other change goes to the store.
 */
module Sidebar {
  import opened Wrappers
  import opened ChatTypes
  import opened Text
  import opened Seqs
  import opened ChatStore
  import opened Presets

  /** The search test: the lowercased title contains the lowercased query. */
  predicate MatchesQuery(s: Session, query: string) {
    Contains(ToLower(s.title), ToLower(query))
  }

  /** `filteredSessions`: exactly the sessions that match the query, in the store's order. */
  function FilteredSessions(sessions: seq<Session>, query: string): (r: seq<Session>)
    ensures forall i :: 0 <= i < |r| ==> r[i] in sessions && MatchesQuery(r[i], query)
    ensures forall i :: 0 <= i < |sessions| && MatchesQuery(sessions[i], query) ==> sessions[i] in r
  {
    Filter(sessions, (s: Session) => MatchesQuery(s, query))
  }

  /** An empty query keeps every session. */
  lemma EmptyQueryKeepsAll(sessions: seq<Session>)
    ensures FilteredSessions(sessions, "") == sessions
  {
    forall i | 0 <= i < |sessions| ensures MatchesQuery(sessions[i], "") {
      assert At(ToLower(sessions[i].title), ToLower(""), 0);
    }
  }

  /** The search keeps the order: filtering two runs of sessions is filtering each. */
  lemma FilteredSessionsConcat(a: seq<Session>, b: seq<Session>, query: string)
    ensures FilteredSessions(a + b, query) == FilteredSessions(a, query) + FilteredSessions(b, query)
  {
    FilterConcat(a, b, (s: Session) => MatchesQuery(s, query));
  }

  /**
   * The rename test of `handleSaveRename`: the trimmed draft is not empty and
   * differs from the title of the first session with that id (a missing
   * session has no title, so any non-empty draft passes).
   */
  predicate RenameAccepted(draft: string, target: Option<Session>) {
    Trim(draft) != "" && (target.None? || Trim(draft) != target.value.title)
  }

  /** The session a rename targets, looked up in the list the sidebar shows. */
  function RenameTarget(sessions: seq<Session>, id: string): Option<Session> {
    Find(sessions, (s: Session) => s.id == id)
  }

  /**
   * An accepted rename stores a title that is trimmed, not empty and
   * different from the one it replaces; a draft of blanks only, or one equal
   * to the current title once trimmed, is never accepted.
   */
  lemma RenameAcceptedMeaning(draft: string, target: Option<Session>)
    ensures RenameAccepted(draft, target) ==>
      Trimmed(Trim(draft)) && Trim(draft) != [] && (target.Some? ==> Trim(draft) != target.value.title)
    ensures Blank(draft) ==> !RenameAccepted(draft, target)
    ensures target.Some? && Trim(draft) == target.value.title ==> !RenameAccepted(draft, target)
  {
  }

  /** `currentSession?.jurisdiction || "US"`: the current session's jurisdiction unless missing or empty. */
  function ChosenJurisdiction(current: Option<Session>): (r: string)
    ensures r != ""
    ensures current.Some? && current.value.jurisdiction.Some? && current.value.jurisdiction.value != "" ==>
      r == current.value.jurisdiction.value
    ensures current.None? || current.value.jurisdiction.None? || current.value.jurisdiction.value == "" ==> r == "US"
  {
    if current.Some? && current.value.jurisdiction.Some? && current.value.jurisdiction.value != "" then
      current.value.jurisdiction.value
    else "US"
  }

  /** The name put into the preset text: "United States" for "US", the code itself otherwise. */
  function JurisdictionName(code: string): (r: string)
    ensures code == "US" <==> r == "United States" && code != r
    ensures code != "US" ==> r == code
  {
    if code == "US" then "United States" else code
  }

  /** The `createChat` argument of a preset click: the filled system text and prefill, and the chosen code. */
  function PresetSeed(p: LegalPreset, code: string): Preset {
    var subs := Substitutions(JurisdictionName(code));
    Preset(Some(SubstituteAll(p.system, subs)), Some(SubstituteAll(p.prefill, subs)), Some(code))
  }

  /** The first half of a preset click: the preset filled in for the chosen jurisdiction's name. */
  method SeedFromPreset(preset: LegalPreset, current: Option<Session>) returns (seed: Preset)
    ensures seed == PresetSeed(preset, ChosenJurisdiction(current))
  {
    var code := ChosenJurisdiction(current);
    var applied := ApplyJurisdictionToPreset(preset, JurisdictionName(code));
    seed := Preset(Some(applied.system), Some(applied.prefill), Some(code));
  }

  /** The preset buttons the sidebar offers: the first three of the table. */
  function OfferedPresets(table: seq<LegalPreset>): (r: seq<LegalPreset>)
    ensures |r| == if |table| < 3 then |table| else 3
    ensures forall k :: 0 <= k < |r| ==> r[k] == table[k]
  {
    if |table| < 3 then table else table[..3]
  }

  /** The duplicate's messages: the originals with fresh ids and the current time. */
  function Copies(msgs: seq<Message>, ids: seq<string>, now: Date): seq<Message>
    requires |ids| == |msgs|
  {
    seq(|msgs|, k requires 0 <= k < |msgs| => msgs[k].(id := ids[k], timestamp := now))
  }

  /** `addMessage` applied to one session for each message in turn. */
  function AppendAll(s: Session, msgs: seq<Message>, now: Date): Session
    decreases |msgs|
  {
    if msgs == [] then s
    else AppendMessage(AppendAll(s, msgs[..|msgs| - 1], now), msgs[|msgs| - 1], now)
  }

  /** One more message appended is one more `addMessage`. */
  lemma AppendAllSnoc(s: Session, msgs: seq<Message>, i: nat, now: Date)
    requires i < |msgs|
    ensures AppendAll(s, msgs[..i + 1], now) == AppendMessage(AppendAll(s, msgs[..i], now), msgs[i], now)
  {
    assert msgs[..i + 1][..i] == msgs[..i];
  }

  /** Appending messages puts them in order after the existing ones and keeps the session's identity fields. */
  lemma {:induction false} AppendAllKeeps(s: Session, msgs: seq<Message>, now: Date)
    ensures var r := AppendAll(s, msgs, now);
      && r.messages == s.messages + msgs
      && r.id == s.id && r.createdAt == s.createdAt && r.jurisdiction == s.jurisdiction && r.systemPrompt == s.systemPrompt
    decreases |msgs|
  {
    if msgs != [] {
      var init := msgs[..|msgs| - 1];
      AppendAllKeeps(s, init, now);
      assert msgs == init + [msgs[|msgs| - 1]];
    }
  }

  /**
   * Appending non-system messages to a session that has none: the title is
   * derived from the first appended message when it is the user's, and kept
   * otherwise.
   */
  lemma {:induction false} AppendAllTitle(s: Session, msgs: seq<Message>, now: Date)
    requires |NonSystem(s.messages)| == 0
    requires forall k :: 0 <= k < |msgs| ==> msgs[k].role != System
    ensures msgs != [] && msgs[0].role == User ==> AppendAll(s, msgs, now).title == DeriveTitle(msgs[0].content)
    ensures msgs == [] || msgs[0].role != User ==> AppendAll(s, msgs, now).title == s.title
    decreases |msgs|
  {
    if msgs != [] {
      var init := msgs[..|msgs| - 1];
      var last := msgs[|msgs| - 1];
      AppendAllTitle(s, init, now);
      var a := AppendAll(s, init, now);
      AppendMessageTitle(a, last, now);
      if init != [] {
        AppendAllKeeps(s, init, now);
        assert a.messages[|s.messages|] == init[0];
        assert exists i :: 0 <= i < |a.messages| && a.messages[i].role != System;
        assert msgs[0] == init[0];
      }
    }
  }

  /** A fresh session in front takes every `addMessage` for its id; the others are untouched. */
  lemma AppendToFront(x: Session, rest: seq<Session>, m: Message, now: Date)
    requires forall k :: 0 <= k < |rest| ==> rest[k].id != x.id
    ensures AppendTo([x] + rest, x.id, m, now) == [AppendMessage(x, m, now)] + rest
  {
    var r := AppendTo([x] + rest, x.id, m, now);
    assert forall k :: 0 <= k < |rest| ==> ([x] + rest)[k + 1] == rest[k];
    assert r[1..] == rest;
  }

  /** The preset a duplicate is created from: the original's system prompt and jurisdiction, no prefill. */
  function DuplicatePreset(s: Session): Preset {
    Preset(s.systemPrompt, None, s.jurisdiction)
  }

  /** The session `handleDuplicateChat` ends with. */
  function Duplicate(s: Session, freshId: string, systemId: string, messageIds: seq<string>, now: Date): Session
    requires |messageIds| == |NonSystem(s.messages)|
  {
    AppendAll(NewSession(DuplicatePreset(s), freshId, systemId, now), Copies(NonSystem(s.messages), messageIds, now), now)
  }

  /** A copy keeps each message's role, content, citations and streaming flag, with a fresh id and the current time. */
  lemma CopiesShape(msgs: seq<Message>, ids: seq<string>, now: Date)
    requires |ids| == |msgs|
    ensures var c := Copies(msgs, ids, now);
      && |c| == |msgs|
      && forall k :: 0 <= k < |msgs| ==>
           && c[k].role == msgs[k].role && c[k].content == msgs[k].content
           && c[k].citations == msgs[k].citations && c[k].isStreaming == msgs[k].isStreaming
           && c[k].id == ids[k] && c[k].timestamp == now
  {
  }

  /**
   * A duplicate carries the original's system prompt and jurisdiction; its
   * messages are the system message seeded from that prompt (when it is
   * non-empty) followed by the copies of the original's non-system
   * messages, in order.
   */
  lemma DuplicateMessages(s: Session, freshId: string, systemId: string, messageIds: seq<string>, now: Date)
    requires |messageIds| == |NonSystem(s.messages)|
    ensures var d := Duplicate(s, freshId, systemId, messageIds, now);
      && d.id == freshId && d.systemPrompt == s.systemPrompt && d.jurisdiction == s.jurisdiction
      && d.messages == NewSession(DuplicatePreset(s), freshId, systemId, now).messages
                       + Copies(NonSystem(s.messages), messageIds, now)
  {
    AppendAllKeeps(NewSession(DuplicatePreset(s), freshId, systemId, now), Copies(NonSystem(s.messages), messageIds, now), now);
  }

  /**
   * A duplicate's title comes from the first copied message when that is the
   * user's, and is "New Chat" otherwise.
   */
  lemma DuplicateTitle(s: Session, freshId: string, systemId: string, messageIds: seq<string>, now: Date)
    requires |messageIds| == |NonSystem(s.messages)|
    ensures var d := Duplicate(s, freshId, systemId, messageIds, now);
      var orig := NonSystem(s.messages);
      && (orig != [] && orig[0].role == User ==> d.title == DeriveTitle(orig[0].content))
      && (orig == [] || orig[0].role != User ==> d.title == NewChatTitle)
  {
    var orig := NonSystem(s.messages);
    var base := NewSession(DuplicatePreset(s), freshId, systemId, now);
    var copies := Copies(orig, messageIds, now);
    NewSessionShape(DuplicatePreset(s), freshId, systemId, now);
    assert |NonSystem(base.messages)| == 0 by {
      assert forall k :: 0 <= k < |base.messages| ==> base.messages[k].role == System;
    }
    AppendAllTitle(base, copies, now);
  }

  class SidebarState {
    var store: Store
    var searchQuery: string
    var editingId: Option<string>
    var editTitle: string

    constructor (store: Store)
      ensures this.store == store && searchQuery == "" && editingId == None && editTitle == ""
    {
      this.store := store;
      searchQuery := "";
      editingId := None;
      editTitle := "";
    }

    /** `handleStartRename`: the draft starts from the session's title. */
    method HandleStartRename(s: Session)
      modifies this`editingId, this`editTitle
      ensures editingId == Some(s.id) && editTitle == s.title
    {
      editingId := Some(s.id);
      editTitle := s.title;
    }

    /**
     * `handleSaveRename`: the store renames the session to the trimmed draft
     * exactly when the rename test passes; the draft is always reset.
     */
    method HandleSaveRename(sessions: seq<Session>, sessionId: string, now: Date) returns (renamed: bool)
      modifies this`editingId, this`editTitle, store`sessions
      ensures renamed <==> RenameAccepted(old(editTitle), RenameTarget(sessions, sessionId))
      ensures renamed ==> store.sessions == UpdateWhere(old(store.sessions), sessionId,
                                                        (s: Session) => RenameSession(s, Trim(old(editTitle)), now))
      ensures !renamed ==> store.sessions == old(store.sessions)
      ensures editingId == None && editTitle == ""
    {
      renamed := RenameAccepted(editTitle, RenameTarget(sessions, sessionId));
      if renamed {
        store.RenameChat(sessionId, Trim(editTitle), now);
      }
      editingId := None;
      editTitle := "";
    }

    /** `handleCancelRename`: the draft is reset and the store is untouched. */
    method HandleCancelRename()
      modifies this`editingId, this`editTitle
      ensures editingId == None && editTitle == ""
    {
      editingId := None;
      editTitle := "";
    }

    /**
     * `handleNewChatClick`: `createChat()` without a preset, then that id
     * is made current. An existing empty chat is reused; otherwise a new one
     * is put in front. Either way the current session is an empty chat.
     */
    method HandleNewChatClick(freshId: string, systemId: string, now: Date) returns (id: string)
      modifies store
      ensures FindIndex(old(store.sessions), IsEmptyChat).Some? ==>
        store.sessions == old(store.sessions) && id == old(store.sessions)[FindIndex(old(store.sessions), IsEmptyChat).value].id
      ensures FindIndex(old(store.sessions), IsEmptyChat).None? ==>
        store.sessions == [NewSession(NoPreset, freshId, systemId, now)] + old(store.sessions) && id == freshId
      ensures store.currentSessionId == Some(id)
      ensures exists k :: 0 <= k < |store.sessions| && store.sessions[k].id == id && IsEmptyChat(store.sessions[k])
    {
      id := store.CreateChat(None, freshId, systemId, now);
      store.SetCurrentSession(Some(id));
      if FindIndex(old(store.sessions), IsEmptyChat).None? {
        assert IsEmptyChat(store.sessions[0]);
      }
    }

    /**
     * `handlePresetClick`: nothing happens for an unknown preset id.
     * Otherwise the preset is filled with the jurisdiction's name, a new
     * session is created from it (always a new one, since a preset is given)
     * and made current. The delayed navigation searches the session list the
     * sidebar was rendered with, which does not hold the new session yet, so
     * it finds nothing when the new id is not already there.
     */
    method HandlePresetClick(presets: seq<LegalPreset>, sessions: seq<Session>, current: Option<Session>,
                             presetId: string, freshId: string, systemId: string, now: Date)
      returns (created: Option<string>, navigated: Option<Session>)
      modifies store
      ensures PresetById(presets, presetId).None? ==>
        created.None? && navigated.None? && store.sessions == old(store.sessions)
        && store.currentSessionId == old(store.currentSessionId)
      ensures PresetById(presets, presetId).Some? ==>
        && created == Some(freshId)
        && store.sessions == [NewSession(PresetSeed(PresetById(presets, presetId).value, ChosenJurisdiction(current)),
                                         freshId, systemId, now)] + old(store.sessions)
        && store.currentSessionId == Some(freshId)
        && (navigated.Some? ==> navigated.value in sessions && navigated.value.id == freshId)
        && ((forall k :: 0 <= k < |sessions| ==> sessions[k].id != freshId) ==> navigated.None?)
    {
      var preset := PresetById(presets, presetId);
      if preset.None? {
        return None, None;
      }
      var seed := SeedFromPreset(preset.value, current);
      var id := store.CreateChat(Some(seed), freshId, systemId, now);
      store.SetCurrentSession(Some(id));
      created := Some(id);
      navigated := Find(sessions, (s: Session) => s.id == id);
    }

    /**
     * `handleDuplicateChat`: a new session from the original's system prompt
     * and jurisdiction is put in front, every non-system message of the
     * original is added to it in order with a fresh id and the current time,
     * and it is made current.
     */
    method HandleDuplicateChat(session: Session, freshId: string, systemId: string, messageIds: seq<string>, now: Date)
      returns (newId: string)
      requires |messageIds| == |NonSystem(session.messages)|
      requires forall k :: 0 <= k < |store.sessions| ==> store.sessions[k].id != freshId
      modifies store
      ensures newId == freshId
      ensures store.sessions == [Duplicate(session, freshId, systemId, messageIds, now)] + old(store.sessions)
      ensures store.currentSessionId == Some(freshId)
    {
      var rest := store.sessions;
      newId := store.CreateChat(Some(DuplicatePreset(session)), freshId, systemId, now);
      var base := NewSession(DuplicatePreset(session), freshId, systemId, now);
      var copies := Copies(NonSystem(session.messages), messageIds, now);
      var i := 0;
      while i < |copies|
        invariant 0 <= i <= |copies|
        invariant store.sessions == [AppendAll(base, copies[..i], now)] + rest
        invariant store.currentSessionId == Some(freshId)
      {
        AppendAllKeeps(base, copies[..i], now);
        AppendToFront(AppendAll(base, copies[..i], now), rest, copies[i], now);
        AppendAllSnoc(base, copies, i, now);
        store.AddMessage(newId, copies[i], now);
        i := i + 1;
      }
      assert copies[..i] == copies;
      store.SetCurrentSession(Some(newId));
    }
  }
}
