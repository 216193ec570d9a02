/**
 * One message of the transcript (`components/app/message-bubble.tsx`): what
 * it displays, which actions it offers, and the edit state machine that
 * ends in `editMessage` or `deleteMessage` on the store.
 */
module MessageBubble {
  import opened Wrappers
  import opened ChatTypes
  import opened Text
  import opened ChatStore

  /** The text shown: the content, or "..." while an empty message is streaming, else nothing. */
  function DisplayText(m: Message): (r: string)
    ensures m.content != "" ==> r == m.content
    ensures m.content == "" ==> (r == "..." <==> m.Streaming()) && (r != "..." ==> r == "")
  {
    if m.content != "" then m.content
    else if m.Streaming() then "..."
    else ""
  }

  /** The action buttons under a message; `regenerateEnabled` only matters when `regenerate` is offered. */
  datatype Offered = Offered(copy: bool, edit: bool, delete: bool, regenerate: bool, regenerateEnabled: bool)

  /**
   * Outside edit mode every message can be copied; user messages can be
   * edited and deleted, the others regenerated, except while they stream.
   * In edit mode no action is offered.
   */
  function OfferedActions(m: Message, isEditing: bool): (r: Offered)
    ensures isEditing ==> !r.copy && !r.edit && !r.delete && !r.regenerate
    ensures !isEditing ==> r.copy
    ensures r.edit <==> !isEditing && m.role == User
    ensures r.delete <==> r.edit
    ensures r.regenerate <==> !isEditing && m.role != User
    ensures r.regenerate ==> (r.regenerateEnabled <==> !m.Streaming())
  {
    var shown := !isEditing;
    var isUser := m.role == User;
    Offered(shown, shown && isUser, shown && isUser, shown && !isUser, !m.Streaming())
  }

  class Bubble {
    const store: Store
    const sessionId: string
    const message: Message
    var isEditing: bool
    var editContent: string

    /** A bubble starts out of edit mode with the message's content as its draft. */
    constructor (store: Store, sessionId: string, message: Message)
      ensures this.store == store && this.sessionId == sessionId && this.message == message
      ensures !isEditing && editContent == message.content
    {
      this.store := store;
      this.sessionId := sessionId;
      this.message := message;
      isEditing := false;
      editContent := message.content;
    }

    /** `handleEdit`: enter edit mode with the current content as the draft. */
    method HandleEdit()
      modifies this
      ensures isEditing && editContent == message.content
    {
      isEditing := true;
      editContent := message.content;
    }

    /** Typing in the edit box. */
    method SetEditContent(text: string)
      modifies this`editContent
      ensures editContent == text
    {
      editContent := text;
    }

    /**
     * `handleSaveEdit`: when the trimmed draft differs from the content, the
     * message is edited to the trimmed draft; edit mode ends either way and
     * the draft is kept.
     */
    method HandleSaveEdit(now: Date) returns (edited: bool)
      modifies this`isEditing, store`sessions
      ensures edited <==> Trim(editContent) != message.content
      ensures var text, id := Trim(editContent), message.id;
        edited ==> store.sessions == UpdateWhere(old(store.sessions), sessionId,
          (s: Session) => EditSessionMessage(s, id, text, now))
      ensures !edited ==> store.sessions == old(store.sessions)
      ensures !isEditing
    {
      edited := Trim(editContent) != message.content;
      if edited {
        store.EditMessage(sessionId, message.id, Trim(editContent), now);
      }
      isEditing := false;
    }

    /** `handleCancelEdit`: leave edit mode and restore the draft to the content. */
    method HandleCancelEdit()
      modifies this
      ensures !isEditing && editContent == message.content
    {
      isEditing := false;
      editContent := message.content;
    }

    /** `handleDelete`: drop this message from its session. */
    method HandleDelete(now: Date)
      modifies store`sessions
      ensures var id := message.id;
        store.sessions == UpdateWhere(old(store.sessions), sessionId, (s: Session) => DropMessage(s, id, now))
    {
      store.DeleteMessage(sessionId, message.id, now);
    }

    /** `handleRegenerate`: the id handed to `onRegenerate`, when one was given. */
    method HandleRegenerate(hasCallback: bool) returns (requested: Option<string>)
      ensures hasCallback ==> requested == Some(message.id)
      ensures !hasCallback ==> requested.None?
    {
      requested := if hasCallback then Some(message.id) else None;
    }
  }

  /**
   * After a save that edits, the message in its session carries exactly the
   * trimmed draft, keeps its id, role and position, and the other messages
   * of the session are untouched.
   */
  lemma SaveWritesTrimmed(s: Session, messageId: string, draft: string, now: Date, k: nat)
    requires k < |s.messages| && s.messages[k].id == messageId
    ensures var r := EditSessionMessage(s, messageId, Trim(draft), now).messages;
      && |r| == |s.messages|
      && r[k].content == Trim(draft) && Trimmed(r[k].content)
      && r[k].id == messageId && r[k].role == s.messages[k].role
      && forall i :: 0 <= i < |r| && s.messages[i].id != messageId ==> r[i] == s.messages[i]
  {
    EditMessageEffect(s, messageId, Trim(draft), now);
  }
}
