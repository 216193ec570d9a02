/**
 * The global keyboard shortcuts (`hooks/use-keyboard-shortcuts.ts`): a key
 * event picks at most one of the handlers the page supplied. Inside a text
 * field only Cmd/Ctrl+Enter (send) is recognised; elsewhere "/", Cmd/Ctrl+k,
 * Delete and Cmd/Ctrl+"," are tried in that order.
 */
module Shortcuts {
  import opened Wrappers

  /** The parts of a key event the shortcuts read; `inField` is a target that is an input, a textarea or a select. */
  datatype KeyEvent = KeyEvent(key: string, meta: bool, ctrl: bool, inField: bool)

  /** Which optional handlers the page supplied. */
  datatype Handlers = Handlers(
    focusComposer: bool,
    newChat: bool,
    sendMessage: bool,
    toggleSettings: bool,
    deleteChat: bool)

  datatype Action = FocusComposer | NewChat | SendMessage | ToggleSettings | DeleteChat

  /** The handler for the action was supplied. */
  predicate Supplied(h: Handlers, a: Action) {
    match a
    case FocusComposer => h.focusComposer
    case NewChat => h.newChat
    case SendMessage => h.sendMessage
    case ToggleSettings => h.toggleSettings
    case DeleteChat => h.deleteChat
  }

  /** Cmd or Ctrl is held. */
  predicate Command(e: KeyEvent) {
    e.meta || e.ctrl
  }

  /** `handleKeyDown`: the handler that fires for the event, if any. */
  function Dispatch(e: KeyEvent, h: Handlers): (r: Option<Action>)
    ensures r.Some? ==> Supplied(h, r.value)
    ensures e.inField ==> (r == Some(SendMessage) <==> Command(e) && e.key == "Enter" && h.sendMessage)
    ensures e.inField ==> r == None || r == Some(SendMessage)
  {
    if e.inField then
      if Command(e) && e.key == "Enter" && h.sendMessage then Some(SendMessage) else None
    else if e.key == "/" && h.focusComposer then Some(FocusComposer)
    else if Command(e) && e.key == "k" && h.newChat then Some(NewChat)
    else if e.key == "Delete" && h.deleteChat then Some(DeleteChat)
    else if Command(e) && e.key == "," && h.toggleSettings then Some(ToggleSettings)
    else None
  }

  /**
   * Outside a text field each action fires exactly when its key matches,
   * its handler is supplied, and no earlier check in the order "/",
   * Cmd/Ctrl+k, Delete, Cmd/Ctrl+"," matched; sending is never triggered.
   */
  lemma DispatchOutsideFields(e: KeyEvent, h: Handlers)
    requires !e.inField
    ensures var first := e.key == "/" && h.focusComposer;
      var second := Command(e) && e.key == "k" && h.newChat;
      var third := e.key == "Delete" && h.deleteChat;
      var fourth := Command(e) && e.key == "," && h.toggleSettings;
      && (Dispatch(e, h) == Some(FocusComposer) <==> first)
      && (Dispatch(e, h) == Some(NewChat) <==> !first && second)
      && (Dispatch(e, h) == Some(DeleteChat) <==> !first && !second && third)
      && (Dispatch(e, h) == Some(ToggleSettings) <==> !first && !second && !third && fourth)
      && (Dispatch(e, h) == None <==> !first && !second && !third && !fourth)
      && Dispatch(e, h) != Some(SendMessage)
  {
  }

  /** Cmd/Ctrl+Enter outside a text field, and an upper-case "K", do nothing. */
  lemma UnmatchedKeys(h: Handlers, meta: bool, ctrl: bool)
    ensures Dispatch(KeyEvent("Enter", meta, ctrl, false), h) == None
    ensures Dispatch(KeyEvent("K", meta, ctrl, false), h) == None
  {
  }

  /** Supplying fewer handlers never makes a different one fire: the event either keeps its action or drops to nothing or a later check. */
  lemma UnsuppliedNeverFires(e: KeyEvent, h: Handlers, a: Action)
    requires !Supplied(h, a)
    ensures Dispatch(e, h) != Some(a)
  {
  }
}
