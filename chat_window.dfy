/**
 * The conversation pane of src/components/chat/ChatWindow.js: the optimistic
 * send over the state `(messages, newMessage, sending)`, the own-message
 * test, and the choice of the other participant. The server's answer, the
 * clock and the stored user id are parameters; `alert` and the parent's
 * callbacks are returned as an effect value.
 */
module ChatWindow {
  import opened Common
  import opened Api

  /** A message's `sender`: a populated user record (whose `_id` may be absent), a bare id string, or nothing. */
  datatype Sender = Populated(id: Option<string>) | Bare(ref: string) | NoSender

  datatype Message = Message(id: string, sender: Sender, text: string)

  /** A chat participant; only `_id` is read. */
  datatype Participant = Participant(id: string)

  /** What `toString` gives for a populated sender object. */
  const ObjectText := "[object Object]"

  /**
   * `sender?._id?.toString() === currentUserId || sender?.toString() === currentUserId`.
   * The second test compares an object's text "[object Object]" with the id.
   */
  predicate IsOwn(m: Message, currentUserId: Option<string>)
    ensures IsOwn(m, currentUserId) ==> currentUserId.Some?
    ensures m.sender.NoSender? ==> !IsOwn(m, currentUserId)
    ensures m.sender.Bare? ==> (IsOwn(m, currentUserId) <==> currentUserId == Some(m.sender.ref))
    ensures m.sender.Populated? && currentUserId != Some(ObjectText) ==>
      (IsOwn(m, currentUserId) <==> m.sender.id.Some? && m.sender.id == currentUserId)
    ensures m.sender.Populated? && currentUserId == Some(ObjectText) ==> IsOwn(m, currentUserId)
  {
    match m.sender
    case Populated(id) => (id.Some? && id == currentUserId) || currentUserId == Some(ObjectText)
    case Bare(ref) => currentUserId == Some(ref)
    case NoSender => false
  }

  /**
   * The common cases of `IsOwn`'s contract, collected for callers: without a
   * stored user id nothing is own; a populated or bare sender with the user's
   * id is.
   */
  lemma IsOwnCases(m: Message, uid: string)
    ensures !IsOwn(m, None)
    ensures m.sender == Populated(Some(uid)) ==> IsOwn(m, Some(uid))
    ensures m.sender == Bare(uid) ==> IsOwn(m, Some(uid))
    ensures m.sender.NoSender? ==> !IsOwn(m, Some(uid))
  {
  }

  /** `chat.participants.find(p => p._id.toString() !== currentUserId)`. */
  function OtherParticipant(participants: seq<Participant>, currentUserId: Option<string>): (r: Option<Participant>)
    ensures r.Some? ==> r.value in participants && Some(r.value.id) != currentUserId
    ensures r.None? <==> forall i :: 0 <= i < |participants| ==> Some(participants[i].id) == currentUserId
    ensures currentUserId.None? && |participants| > 0 ==> r == Some(participants[0])
  {
    Find(participants, (p: Participant) => Some(p.id) != currentUserId)
  }

  /** The participant found is the first one who is not the current user: everyone before it is. */
  lemma OtherParticipantIsFirst(participants: seq<Participant>, currentUserId: Option<string>)
    ensures var r := OtherParticipant(participants, currentUserId);
      r.Some? ==> exists i :: 0 <= i < |participants| && participants[i] == r.value
                           && forall j :: 0 <= j < i ==> Some(participants[j].id) == currentUserId
  {
    var other := (p: Participant) => Some(p.id) != currentUserId;
    var found := FindIndex(participants, other);
    if found.Some? {
      var i := found.value;
      assert forall j :: 0 <= j < i ==> !other(participants[j]);
      assert participants[i] == OtherParticipant(participants, currentUserId).value;
    }
  }

  // ---------------------------------------------------------------------------
  // The optimistic send

  const MutualFollowAlert := "Both users must follow each other to send messages."
  const SendErrorAlert := "Error sending message. Please try again."

  /** The message shown while the request is in flight. */
  function TempMessage(currentUserId: Option<string>, nowMs: nat, text: string): (m: Message)
    ensures |m.id| > 5 && m.id[..5] == "temp-"
    ensures m.sender == Populated(currentUserId) && m.text == text
  {
    Message("temp-" + NatToString(nowMs), Populated(currentUserId), text)
  }

  /** `messages.filter(m => m._id !== id)`. */
  function Without(ms: seq<Message>, id: string): seq<Message> {
    Filter(ms, (m: Message) => m.id != id)
  }

  /**
   * Removing a temporary message appended after messages with other ids
   * gives back exactly the list it was appended to: a send answered by an
   * error, with no other change to the list in between, leaves the list as
   * it was before the send.
   */
  lemma WithoutAppended(ms: seq<Message>, temp: Message)
    requires forall i :: 0 <= i < |ms| ==> ms[i].id != temp.id
    ensures Without(ms + [temp], temp.id) == ms
  {
    var keep := (m: Message) => m.id != temp.id;
    FilterAppend(ms, [temp], keep);
    FilterAllPass(ms, keep);
    assert Filter([temp], keep) == [];
  }

  /** A send that got past the guard: the temporary message and the trimmed text. */
  datatype PendingSend = PendingSend(temp: Message, text: string)

  /** The answer to the POST: a status with the body's `messageData`, or a rejection. */
  datatype SendOutcome = Answered(status: int, messageData: Option<Message>) | Rejected(error: HttpError)

  /** What the handler does besides its own state: call the parent, refetch, or alert. */
  datatype SendEffect =
    | NotifyNewMessage(chatId: string, message: Message)
    | RefetchMessages
    | AlertAndRefreshChats(text: string)
    | Alert(text: string)

  /** The state of the pane that a send updates. */
  class ChatWindowState {
    var messages: seq<Message>
    var newMessage: string
    var sending: bool

    constructor ()
      ensures messages == [] && newMessage == "" && !sending
    {
      messages := [];
      newMessage := "";
      sending := false;
    }

    /** The input's `onChange`. */
    method SetInput(text: string)
      modifies this
      ensures newMessage == text && messages == old(messages) && sending == old(sending)
    {
      newMessage := text;
    }

    /**
     * The part of `handleSendMessage` before the request: nothing happens for
     * a blank input or while a send is in flight; otherwise the temporary
     * message goes at the end and the input is cleared.
     */
    method BeginSend(currentUserId: Option<string>, nowMs: nat) returns (pending: Option<PendingSend>)
      modifies this
      ensures pending.None? <==> Trim(old(newMessage)) == [] || old(sending)
      ensures pending.None? ==>
        messages == old(messages) && newMessage == old(newMessage) && sending == old(sending)
      ensures pending.Some? ==>
        && pending.value.text == Trim(old(newMessage))
        && pending.value.temp == TempMessage(currentUserId, nowMs, pending.value.text)
        && messages == old(messages) + [pending.value.temp]
        && newMessage == "" && sending
    {
      var text := Trim(newMessage);
      if text == [] || sending {
        return None;
      }
      sending := true;
      var temp := TempMessage(currentUserId, nowMs, text);
      messages := messages + [temp];
      newMessage := "";
      pending := Some(PendingSend(temp, text));
    }

    /**
     * The part after the request, on whatever `messages` holds by then. With
     * a `messageData` the temporary message is swapped for it; a 201 without
     * one refetches and leaves the list; anything else removes the temporary
     * message and puts the text back. `sending` ends false on every path.
     */
    method FinishSend(chatId: string, p: PendingSend, outcome: SendOutcome) returns (effect: SendEffect)
      modifies this
      ensures !sending
      ensures outcome.Answered? && outcome.messageData.Some? ==>
        && messages == Without(old(messages), p.temp.id) + [outcome.messageData.value]
        && newMessage == old(newMessage)
        && effect == NotifyNewMessage(chatId, outcome.messageData.value)
      ensures outcome.Answered? && outcome.messageData.None? && outcome.status == 201 ==>
        messages == old(messages) && newMessage == old(newMessage) && effect == RefetchMessages
      ensures outcome.Answered? && outcome.messageData.None? && outcome.status != 201 ==>
        messages == Without(old(messages), p.temp.id) && newMessage == p.text && effect == Alert(SendErrorAlert)
      ensures outcome.Rejected? ==>
        && messages == Without(old(messages), p.temp.id) && newMessage == p.text
        && effect == match StatusOf(outcome.error)
                     case Some(403) => AlertAndRefreshChats(MutualFollowAlert)
                     case Some(201) => RefetchMessages
                     case Some(200) => RefetchMessages
                     case _ => Alert(SendErrorAlert)
    {
      var failure: Option<HttpError> := None;
      match outcome {
        case Answered(status, Some(posted)) =>
          messages := Without(messages, p.temp.id) + [posted];
          effect := NotifyNewMessage(chatId, posted);
        case Answered(status, None) =>
          if status == 201 {
            effect := RefetchMessages;
          } else {
            // `throw new Error('Unexpected response format')`: no response attached
            failure := Some(HttpError(None, "Unexpected response format"));
          }
        case Rejected(e) =>
          failure := Some(e);
      }
      if failure.Some? {
        messages := Without(messages, p.temp.id);
        newMessage := p.text;
        var status := StatusOf(failure.value);
        if status == Some(403) {
          effect := AlertAndRefreshChats(MutualFollowAlert);
        } else if status == Some(201) || status == Some(200) {
          effect := RefetchMessages;
        } else {
          effect := Alert(SendErrorAlert);
        }
      }
      sending := false;
    }
  }

  /** A successful send, with no other change in between, ends with the server's message last. */
  lemma SuccessfulSendAppendsPosted(ms: seq<Message>, p: PendingSend, posted: Message)
    requires forall i :: 0 <= i < |ms| ==> ms[i].id != p.temp.id
    ensures Without(ms + [p.temp], p.temp.id) + [posted] == ms + [posted]
  {
    WithoutAppended(ms, p.temp);
  }
}
