/**
 * The message composer (`components/app/composer.tsx`): the draft text and
 * the attachments of the message being written. Submitting hands the
 * trimmed draft and the attachments to the page and empties both; uploads
 * and voice transcriptions add to them.
 */
module Composer {
  import opened Wrappers
  import opened ChatTypes
  import opened Text
  import opened ChatStore

  /** What a submit hands to `onSendMessage`. */
  datatype Outgoing = Outgoing(content: string, attachments: seq<UploadRef>)

  /** The draft after a transcription: appended after a space, or the text alone when the draft is empty. */
  function WithTranscription(message: string, text: string): (r: string)
    ensures message == "" ==> r == text
    ensures |r| == if message == "" then |text| else |message| + 1 + |text|
    ensures message != "" ==> r[..|message|] == message && r[|message|] == ' ' && r[|message| + 1..] == text
  {
    if message != "" then message + " " + text else text
  }

  class ComposerState {
    var message: string
    var attachments: seq<UploadRef>

    constructor ()
      ensures message == "" && attachments == []
    {
      message := "";
      attachments := [];
    }

    /** A submit goes through exactly when the draft is not blank and the composer is enabled. */
    predicate CanSend(disabled: bool)
      reads this
    {
      Trim(message) != "" && !disabled
    }

    /**
     * `handleSubmit` (also what the `sendMessage` handle and a plain Enter
     * call): a non-blank draft in an enabled composer is sent trimmed with
     * the attachments, and both are emptied; otherwise nothing happens.
     */
    method HandleSubmit(disabled: bool) returns (sent: Option<Outgoing>)
      modifies this
      ensures sent.Some? <==> old(CanSend(disabled))
      ensures sent.Some? ==>
        && sent.value == Outgoing(Trim(old(message)), old(attachments))
        && sent.value.content != "" && Trimmed(sent.value.content)
        && message == "" && attachments == []
      ensures sent.None? ==> message == old(message) && attachments == old(attachments)
    {
      if Trim(message) != "" && !disabled {
        sent := Some(Outgoing(Trim(message), attachments));
        message := "";
        attachments := [];
      } else {
        sent := None;
      }
    }

    /** `handleKeyDown`: Enter without Shift submits; any other key leaves the state alone. */
    method HandleKeyDown(key: string, shift: bool, disabled: bool) returns (sent: Option<Outgoing>)
      modifies this
      ensures !(key == "Enter" && !shift) ==> sent.None? && message == old(message) && attachments == old(attachments)
      ensures key == "Enter" && !shift ==>
        && (sent.Some? <==> old(CanSend(disabled)))
        && (sent.Some? ==> sent.value == Outgoing(Trim(old(message)), old(attachments)) && message == "" && attachments == [])
        && (sent.None? ==> message == old(message) && attachments == old(attachments))
    {
      sent := None;
      if key == "Enter" && !shift {
        sent := HandleSubmit(disabled);
      }
    }

    /** `handleFileUploadComplete`: the finished upload goes at the end. */
    method HandleFileUploadComplete(upload: UploadRef)
      modifies this`attachments
      ensures attachments == old(attachments) + [upload]
    {
      attachments := attachments + [upload];
    }

    /** `handleRemoveAttachment`: every attachment with that id goes. */
    method HandleRemoveAttachment(id: string)
      modifies this`attachments
      ensures attachments == DropUpload(old(attachments), id)
    {
      attachments := DropUpload(attachments, id);
    }

    /** `handleTranscription`: the recognised text joins the draft. */
    method HandleTranscription(text: string)
      modifies this`message
      ensures message == WithTranscription(old(message), text)
    {
      message := WithTranscription(message, text);
    }

    /** The prefill effect: a prefill that is not blank replaces the draft. */
    method ApplyPrefill(prefill: Option<string>)
      modifies this`message
      ensures prefill.Some? && Trim(prefill.value) != "" ==> message == prefill.value
      ensures !(prefill.Some? && Trim(prefill.value) != "") ==> message == old(message)
    {
      if prefill.Some? && Trim(prefill.value) != "" {
        message := prefill.value;
      }
    }

    /**
     * The reset effect: with a session id, no prefill and an empty draft,
     * the draft stays empty and the attachments are dropped.
     */
    method ResetForSession(sessionId: Option<string>, prefill: Option<string>)
      modifies this
      ensures var resets := sessionId.Some? && sessionId.value != "" && (prefill.None? || prefill.value == "") && old(message) == "";
        && (resets ==> message == "" && attachments == [])
        && (!resets ==> message == old(message) && attachments == old(attachments))
    {
      if sessionId.Some? && sessionId.value != "" && (prefill.None? || prefill.value == "") && message == "" {
        message := "";
        attachments := [];
      }
    }
  }
}
