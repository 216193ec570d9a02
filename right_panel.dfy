/**
 * The context panel (`components/app/right-panel.tsx`): the current
 * session's attachments with a count badge and a remove button, and the
 * citations gathered from its messages.
 */
module RightPanel {
  import opened Wrappers
  import opened ChatTypes
  import opened Text
  import opened Seqs
  import opened ChatStore

  /** `getFileIcon`: images by prefix, then anything mentioning "pdf" or "document" is text. */
  function PanelIcon(mime: string): (r: FileIcon)
    ensures r == ImageIcon <==> At(mime, "image/", 0)
    ensures r == TextIcon <==> !At(mime, "image/", 0) && (Contains(mime, "pdf") || Contains(mime, "document"))
  {
    if At(mime, "image/", 0) then ImageIcon
    else if Contains(mime, "pdf") || Contains(mime, "document") then TextIcon
    else GenericIcon
  }

  /** `handleRemoveAttachment`'s new list: missing attachments count as none. */
  function RemainingAttachments(s: Session, attachmentId: string): (r: seq<UploadRef>)
    ensures s.attachments.None? ==> r == []
    ensures forall i :: 0 <= i < |r| ==> r[i].id != attachmentId && r[i] in s.attachments.value
    ensures s.attachments.Some? ==> forall i :: 0 <= i < |s.attachments.value| && s.attachments.value[i].id != attachmentId ==>
      s.attachments.value[i] in r
  {
    DropUpload(s.attachments.GetOr([]), attachmentId)
  }

  /**
   * `handleRemoveAttachment`: without a session nothing happens; otherwise
   * the session's attachments are replaced by what remains.
   */
  method HandleRemoveAttachment(store: Store, session: Option<Session>, attachmentId: string, now: Date)
    modifies store`sessions
    ensures session.None? ==> store.sessions == old(store.sessions)
    ensures session.Some? ==> var rest := RemainingAttachments(session.value, attachmentId);
      store.sessions == UpdateWhere(old(store.sessions), session.value.id, (s: Session) => PatchSession(s, AttachmentsPatch(rest), now))
  {
    if session.None? {
      return;
    }
    store.UpdateSession(session.value.id, AttachmentsPatch(RemainingAttachments(session.value, attachmentId)), now);
  }

  /** The badge: the number of attachments, shown only when there are some. */
  function AttachmentBadge(session: Option<Session>): (r: Option<nat>)
    ensures r.Some? <==> session.Some? && session.value.attachments.Some? && |session.value.attachments.value| > 0
    ensures r.Some? ==> r.value == |session.value.attachments.value|
  {
    if session.Some? && session.value.attachments.Some? && |session.value.attachments.value| > 0 then
      Some(|session.value.attachments.value|)
    else None
  }

  /** `m.citations?.length` read as a condition. */
  predicate HasCitations(m: Message) {
    m.citations.Some? && |m.citations.value| > 0
  }

  /** Each message's citations, missing ones as none. */
  function CitationLists(msgs: seq<Message>): (r: seq<seq<Citation>>)
    ensures |r| == |msgs|
    ensures forall i :: 0 <= i < |msgs| ==> r[i] == msgs[i].citations.GetOr([])
  {
    seq(|msgs|, i requires 0 <= i < |msgs| => msgs[i].citations.GetOr([]))
  }

  /** The citations the panel lists: every message's citations, in message order. */
  function ShownCitations(msgs: seq<Message>): seq<Citation> {
    Flatten(CitationLists(msgs))
  }

  /** The citations card is shown with a session some message of which has citations. */
  predicate CitationsCardShown(session: Option<Session>) {
    session.Some? && exists k :: 0 <= k < |session.value.messages| && HasCitations(session.value.messages[k])
  }

  /** The card is shown exactly when it has something to list. */
  lemma CitationsCardIffAny(session: Option<Session>)
    ensures CitationsCardShown(session) <==> session.Some? && ShownCitations(session.value.messages) != []
  {
    if session.Some? {
      var msgs := session.value.messages;
      var lists := CitationLists(msgs);
      if ShownCitations(msgs) != [] {
        var k :| 0 <= k < |lists| && lists[k] != [];
        assert HasCitations(msgs[k]);
      }
    }
  }

  /** A message added at the end adds its citations at the end of the list. */
  lemma ShownCitationsSnoc(msgs: seq<Message>, m: Message)
    ensures ShownCitations(msgs + [m]) == ShownCitations(msgs) + m.citations.GetOr([])
  {
    assert CitationLists(msgs + [m]) == CitationLists(msgs) + [m.citations.GetOr([])];
    FlattenConcat(CitationLists(msgs), [m.citations.GetOr([])]);
    assert Flatten([m.citations.GetOr([])]) == m.citations.GetOr([]) + Flatten([]);
  }
}
