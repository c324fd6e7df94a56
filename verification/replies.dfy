/**
 Reply extraction: the text of the first assistant message in the
 listing of a thread's messages, in the order the remote service lists them.
 */
module Replies {
  import opened Wrappers
  import opened PyText

  const AssistantRole := "assistant"

  /** One content segment; `text` is `None` when the segment has no `text` attribute. */
  datatype Segment = Segment(text: Option<string>)

  datatype Message = Message(role: string, content: seq<Segment>)

  /** The text of every segment that has one, in order. */
  function SegmentTexts(content: seq<Segment>): (r: seq<string>)
    ensures |r| <= |content|
    ensures forall k :: 0 <= k < |r| ==> Segment(Some(r[k])) in content
    ensures forall g :: g in content && g.text.Some? ==> g.text.value in r
  {
    if |content| == 0 then []
    else
      var rest := SegmentTexts(content[1..]);
      assert forall g :: g in content[1..] ==> g in content;
      if content[0].text.Some? then [content[0].text.value] + rest else rest
  }

  /** Collecting texts commutes with splitting the segment list. */
  lemma {:induction false} SegmentTextsAppend(x: seq<Segment>, y: seq<Segment>)
    ensures SegmentTexts(x + y) == SegmentTexts(x) + SegmentTexts(y)
    decreases |x|
  {
    if |x| > 0 {
      assert (x + y)[1..] == x[1..] + y;
      SegmentTextsAppend(x[1..], y);
    } else {
      assert x + y == y;
    }
  }

  predicate NoAssistant(ms: seq<Message>)
  {
    forall k :: 0 <= k < |ms| ==> ms[k].role != AssistantRole
  }

  /** Message `k` is the first one in the listing with the assistant role. */
  predicate IsFirstAssistant(ms: seq<Message>, k: nat)
  {
    k < |ms| && ms[k].role == AssistantRole && NoAssistant(ms[..k])
  }

  /** The position of the first message with the assistant role, if any. */
  function FirstAssistant(ms: seq<Message>): (r: Option<nat>)
    ensures r.None? <==> NoAssistant(ms)
    ensures r.Some? ==> IsFirstAssistant(ms, r.value)
  {
    if |ms| == 0 then None
    else if ms[0].role == AssistantRole then Some(0)
    else
      match FirstAssistant(ms[1..])
      case None => None
      case Some(k) =>
        assert ms[..k + 1] == [ms[0]] + ms[1..][..k];
        Some(k + 1)
  }

  /** At most one position is the first assistant message. */
  lemma FirstAssistantUnique(ms: seq<Message>, i: nat, j: nat)
    requires IsFirstAssistant(ms, i) && IsFirstAssistant(ms, j)
    ensures i == j
  {
  }

  /** The reply text of one message: its segment texts joined by a space, then stripped. */
  function MessageText(m: Message): (r: string)
    ensures Trimmed(r)
    ensures exists i: nat :: StrippedAt(JoinSpace(SegmentTexts(m.content)), i, r)
  {
    Strip(JoinSpace(SegmentTexts(m.content)))
  }

  /**
   `get_last_assistant_message`: the listing is `None` when listing the
   thread's messages raised. The first assistant message of the listing
   gives the reply; without one the reply is empty.
   */
  function LastAssistantReply(listing: Option<seq<Message>>): (r: string)
    ensures listing.None? ==> r == ""
    ensures listing.Some? && NoAssistant(listing.value) ==> r == ""
    ensures listing.Some? ==>
              forall k: nat :: IsFirstAssistant(listing.value, k) ==> r == MessageText(listing.value[k])
    ensures Trimmed(r)
  {
    match listing
    case None => ""
    case Some(ms) =>
      match FirstAssistant(ms)
      case None => ""
      case Some(k) =>
        assert forall i :: IsFirstAssistant(ms, i) ==> i == k by {
          forall i | IsFirstAssistant(ms, i)
            ensures i == k
          {
            FirstAssistantUnique(ms, i, k);
          }
        }
        MessageText(ms[k])
  }

  /** Messages after the first assistant message never change the reply. */
  lemma LaterMessagesIgnored(ms: seq<Message>, k: nat, more: seq<Message>)
    requires k < |ms| && ms[k].role == AssistantRole
    ensures LastAssistantReply(Some(ms + more)) == LastAssistantReply(Some(ms))
  {
    var first := FirstAssistant(ms);
    assert first.Some?;
    var i := first.value;
    assert (ms + more)[..i] == ms[..i];
    assert IsFirstAssistant(ms + more, i);
  }
}
