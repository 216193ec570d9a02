/**
 * The application page (`app/app/page.tsx`): it keeps the id of the chat
 * the keyboard has selected beside the store's current-session pointer,
 * deletes and creates sessions, picks the live or the mock client from the
 * settings, and listens for keys twice: once through the shortcut hook and
 * once in its own listener (Delete and the arrow keys).
 */
module AppPage {
  import opened Wrappers
  import opened ChatTypes
  import opened Seqs
  import opened ChatStore
  import opened Shortcuts

  /** Which client the page builds. */
  datatype ClientKind = LiveClient | MockClient

  /** The live client needs both a base URL and an API key (both truthy); otherwise the mock client is used. */
  function ClientFor(baseUrl: string, apiKey: string): (r: ClientKind)
    ensures r == LiveClient <==> baseUrl != "" && apiKey != ""
  {
    if baseUrl != "" && apiKey != "" then LiveClient else MockClient
  }

  /** `selectedChatId` read as a condition: present and non-empty. */
  predicate Truthy(selected: Option<string>) {
    selected.Some? && selected.value != ""
  }

  /** `sessions.findIndex(s => s.id === selectedChatId)`, with -1 for no match. */
  function SelectedIndex(sessions: seq<Session>, selected: Option<string>): (r: int)
    ensures -1 <= r < |sessions|
    ensures r >= 0 ==> selected == Some(sessions[r].id)
    ensures r >= 0 ==> forall j :: 0 <= j < r ==> selected != Some(sessions[j].id)
    ensures r == -1 <==> forall j :: 0 <= j < |sessions| ==> selected != Some(sessions[j].id)
  {
    match FindIndex(sessions, (s: Session) => selected == Some(s.id))
    case None => -1
    case Some(i) => i
  }

  /** The index an arrow key moves to from `current`, before the range check. */
  function ArrowIndex(count: nat, current: int, up: bool): int {
    if up then (if current > 0 then current - 1 else count - 1)
    else (if current < count - 1 then current + 1 else 0)
  }

  /**
   * The session an arrow key selects: nothing in an empty list; from no
   * selection, Up goes to the last session and Down to the first; from the
   * session at `i`, Up and Down move one step and wrap around at the ends.
   */
  function Navigate(sessions: seq<Session>, selected: Option<string>, up: bool): (r: Option<nat>)
    ensures r.Some? ==> r.value < |sessions|
    ensures r.None? <==> |sessions| == 0
    ensures |sessions| > 0 && SelectedIndex(sessions, selected) == -1 ==>
      r == Some(if up then |sessions| - 1 else 0)
  {
    var n := ArrowIndex(|sessions|, SelectedIndex(sessions, selected), up);
    if 0 <= n < |sessions| then Some(n) else None
  }

  /** From the session at `i`, Up and Down move one step, wrapping around at the ends. */
  lemma NavigateSteps(sessions: seq<Session>, selected: Option<string>, up: bool)
    requires SelectedIndex(sessions, selected) >= 0
    ensures var i := SelectedIndex(sessions, selected);
      var n := |sessions|;
      Navigate(sessions, selected, up) == Some(if up then (i - 1 + n) % n else (i + 1) % n)
  {
    var i := SelectedIndex(sessions, selected);
    var n := |sessions|;
    if up {
      ModShift(i - 1, n);
    } else if i < n - 1 {
      ModShift(i + 1, n);
    } else {
      ModShift(0, n);
    }
  }

  /** An index at most one step outside `[0, n)` comes back into range by adding `n`; one inside is its own remainder. */
  lemma ModShift(x: int, n: int)
    requires 0 < n && -1 <= x < n
    ensures (x + n) % n == if x < 0 then n - 1 else x
    ensures x >= 0 ==> x % n == x
  {
    var q := (x + n) / n;
    assert (x + n) == q * n + (x + n) % n;
    assert q == if x < 0 then 0 else 1;
  }

  /** The session ids are pairwise distinct. */
  predicate DistinctIds(sessions: seq<Session>) {
    forall i, j :: 0 <= i < j < |sessions| ==> sessions[i].id != sessions[j].id
  }

  /** With distinct ids, the index of a session's own id is its position. */
  lemma SelectedIndexOfOwnId(sessions: seq<Session>, k: nat)
    requires DistinctIds(sessions) && k < |sessions|
    ensures SelectedIndex(sessions, Some(sessions[k].id)) == k
  {
    var r := SelectedIndex(sessions, Some(sessions[k].id));
    assert r >= 0 && r <= k by {
      assert Some(sessions[k].id) == Some(sessions[k].id);
    }
  }

  /** With distinct ids, Down then Up (and Up then Down) come back to the session selected before. */
  lemma NavigateInverse(sessions: seq<Session>, k: nat, up: bool)
    requires DistinctIds(sessions) && k < |sessions|
    ensures var j := Navigate(sessions, Some(sessions[k].id), up).value;
      Navigate(sessions, Some(sessions[j].id), !up) == Some(k)
  {
    var n := |sessions|;
    SelectedIndexOfOwnId(sessions, k);
    var j := Navigate(sessions, Some(sessions[k].id), up).value;
    SelectedIndexOfOwnId(sessions, j);
  }

  /** The handlers the page gives the shortcut hook: no settings toggle, and Delete only with a selection. */
  function PageHandlers(selected: Option<string>): (h: Handlers)
    ensures h.focusComposer && h.newChat && h.sendMessage && !h.toggleSettings
    ensures h.deleteChat <==> Truthy(selected)
  {
    Handlers(true, true, true, false, Truthy(selected))
  }

  /** Deleting the same id a second time changes nothing more. */
  lemma DeleteTwice(sessions: seq<Session>, current: Option<string>, id: string)
    ensures RemoveSession(RemoveSession(sessions, id), id) == RemoveSession(sessions, id)
    ensures PointerAfterDelete(PointerAfterDelete(current, id), id) == PointerAfterDelete(current, id)
  {
  }

  class Page {
    var store: Store
    var selectedChatId: Option<string>

    constructor (store: Store)
      ensures this.store == store && selectedChatId == None
    {
      this.store := store;
      selectedChatId := None;
    }

    /** The effect on `currentSession`: the selection follows the current session, or clears without one. */
    method SyncSelection()
      modifies this`selectedChatId
      ensures store.Current().Some? ==> selectedChatId == Some(store.Current().value.id)
      ensures store.Current().None? ==> selectedChatId == None
    {
      var current := store.Current();
      selectedChatId := if current.Some? then Some(current.value.id) else None;
    }

    /** `handleDeleteSession`: delete the chat and clear the selection. */
    method HandleDeleteSession(sessionId: string)
      modifies store, this`selectedChatId
      ensures store.sessions == RemoveSession(old(store.sessions), sessionId)
      ensures store.currentSessionId == PointerAfterDelete(old(store.currentSessionId), sessionId)
      ensures selectedChatId == None
    {
      store.DeleteChat(sessionId);
      selectedChatId := None;
    }

    /**
     * `createNewSession` as intended: the composer is cleared (its text is
     * not state of the page), then a blank session is put in front and
     * becomes both current and selected.
     */
    method CreateNewSession(freshId: string, systemId: string, now: Date)
      requires forall i :: 0 <= i < |store.sessions| ==> store.sessions[i].id != freshId
      modifies store, this`selectedChatId
      ensures store.sessions == [NewSession(NoPreset, freshId, systemId, now)] + old(store.sessions)
      ensures store.currentSessionId == Some(freshId) && selectedChatId == Some(freshId)
    {
      var id := CreateBlankChat(store, freshId, systemId, now);
      store.SetCurrentSession(Some(id));
      selectedChatId := Some(id);
    }

    /**
     * `createNewSession` as written. `ready` is the page's
     * `isLoaded && isAuthenticated`: only past the loading and sign-in
     * screens is the canvas rendered, and there the composer is mounted, with
     * the page's ref, exactly when a session is shown. Its handle has `focus`
     * and `sendMessage` but no `clearContent`, so with the composer mounted
     * the call throws a `TypeError` before `createChat` and nothing changes.
     * Otherwise the ref is null and a session is created.
     */
    method CreateNewSessionAsWritten(ready: bool, freshId: string, systemId: string, now: Date) returns (threw: bool)
      requires forall i :: 0 <= i < |store.sessions| ==> store.sessions[i].id != freshId
      modifies store, this`selectedChatId
      ensures threw <==> ready && old(store.Current()).Some?
      ensures threw ==>
        && store.sessions == old(store.sessions) && store.currentSessionId == old(store.currentSessionId)
        && selectedChatId == old(selectedChatId)
      ensures !threw ==>
        && store.sessions == [NewSession(NoPreset, freshId, systemId, now)] + old(store.sessions)
        && store.currentSessionId == Some(freshId) && selectedChatId == Some(freshId)
    {
      var composerMounted := ready && store.Current().Some?;
      if composerMounted {
        return true;
      }
      threw := false;
      CreateNewSession(freshId, systemId, now);
    }

    /** `handleSessionSelect`: the session becomes both current and selected. */
    method HandleSessionSelect(session: Session)
      modifies store`currentSessionId, this`selectedChatId
      ensures store.currentSessionId == Some(session.id) && selectedChatId == Some(session.id)
    {
      store.SetCurrentSession(Some(session.id));
      selectedChatId := Some(session.id);
    }

    /**
     * The page's own key listener, with the session list and the selection
     * its closure captured. Keys typed in a field are ignored. Delete with a
     * selection deletes that chat; ArrowUp and ArrowDown select (and make
     * current) the session `Navigate` picks in the captured list; any other
     * key does nothing.
     */
    method HandlePageKey(key: string, inField: bool, sessions: seq<Session>, selected: Option<string>)
      modifies store, this`selectedChatId
      ensures var deletes := !inField && key == "Delete" && Truthy(selected);
        var moves := !inField && !deletes && (key == "ArrowUp" || key == "ArrowDown") && |sessions| > 0;
        !deletes && !moves ==>
          && store.sessions == old(store.sessions) && store.currentSessionId == old(store.currentSessionId)
          && selectedChatId == old(selectedChatId)
      ensures !inField && key == "Delete" && Truthy(selected) ==>
        && store.sessions == RemoveSession(old(store.sessions), selected.value)
        && store.currentSessionId == PointerAfterDelete(old(store.currentSessionId), selected.value)
        && selectedChatId == None
      ensures !inField && (key == "ArrowUp" || key == "ArrowDown") && |sessions| > 0 ==>
        var id := sessions[Navigate(sessions, selected, key == "ArrowUp").value].id;
        && store.sessions == old(store.sessions)
        && store.currentSessionId == Some(id) && selectedChatId == Some(id)
    {
      if inField {
        return;
      }
      if key == "Delete" && Truthy(selected) {
        HandleDeleteSession(selected.value);
        return;
      }
      if key == "ArrowUp" || key == "ArrowDown" {
        var target := Navigate(sessions, selected, key == "ArrowUp");
        if target.Some? {
          var id := sessions[target.value].id;
          selectedChatId := Some(id);
          store.SetCurrentSession(Some(id));
        }
      }
    }

    /**
     * One key press as the page receives it: the shortcut hook acts first
     * (a new chat for Cmd/Ctrl+k, a delete for Delete with a selection; the
     * composer actions are not state of the page), then the page's listener
     * with the list and selection it captured. Both listeners are live on
     * the loading and sign-in screens too (`ready` false). Cmd/Ctrl+k runs
     * `createNewSession` as written, so it creates a session unless the
     * composer is mounted (`ready` and a session shown); the throw does not
     * keep the page's listener from running.
     * Delete deletes the selected chat twice, which ends exactly as one
     * delete; the arrows are handled by the page's listener alone.
     */
    method HandleKeyDown(e: KeyEvent, ready: bool, freshId: string, systemId: string, now: Date)
      returns (fired: Option<Action>)
      requires forall i :: 0 <= i < |store.sessions| ==> store.sessions[i].id != freshId
      modifies store, this`selectedChatId
      ensures fired == Dispatch(e, PageHandlers(old(selectedChatId)))
      ensures fired == Some(NewChat) && !(ready && old(store.Current()).Some?) ==>
        && store.sessions == [NewSession(NoPreset, freshId, systemId, now)] + old(store.sessions)
        && store.currentSessionId == Some(freshId) && selectedChatId == Some(freshId)
      ensures fired == Some(NewChat) && ready && old(store.Current()).Some? ==>
        && store.sessions == old(store.sessions) && store.currentSessionId == old(store.currentSessionId)
        && selectedChatId == old(selectedChatId)
      ensures !e.inField && e.key == "Delete" && Truthy(old(selectedChatId)) ==>
        && fired == Some(DeleteChat)
        && store.sessions == RemoveSession(old(store.sessions), old(selectedChatId).value)
        && store.currentSessionId == PointerAfterDelete(old(store.currentSessionId), old(selectedChatId).value)
        && selectedChatId == None
      ensures !e.inField && (e.key == "ArrowUp" || e.key == "ArrowDown") && |old(store.sessions)| > 0 ==>
        var id := old(store.sessions)[Navigate(old(store.sessions), old(selectedChatId), e.key == "ArrowUp").value].id;
        && fired == None
        && store.sessions == old(store.sessions)
        && store.currentSessionId == Some(id) && selectedChatId == Some(id)
      ensures fired != Some(NewChat) && !(!e.inField && e.key == "Delete" && Truthy(old(selectedChatId)))
              && !(!e.inField && (e.key == "ArrowUp" || e.key == "ArrowDown") && |old(store.sessions)| > 0) ==>
        && store.sessions == old(store.sessions) && store.currentSessionId == old(store.currentSessionId)
        && selectedChatId == old(selectedChatId)
    {
      var sessions := store.sessions;
      var selected := selectedChatId;
      fired := Dispatch(e, PageHandlers(selected));
      if fired == Some(NewChat) {
        var _ := CreateNewSessionAsWritten(ready, freshId, systemId, now);
      } else if fired == Some(DeleteChat) {
        HandleDeleteSession(selected.value);
      }
      HandlePageKey(e.key, e.inField, sessions, selected);
      if !e.inField && e.key == "Delete" && Truthy(selected) {
        DeleteTwice(sessions, old(store.currentSessionId), selected.value);
      }
    }
  }
}
