/**
 * The chat page of src/components/chat/Chat.js: the chat list it owns, the
 * selected chat, the marker that stops a `userId` query parameter from being
 * handled twice, and the address bar it rewrites. Server answers are
 * parameters; `alert` texts are returned.
 */
module Chat {
  import opened Common
  import opened Api
  import opened ChatWindow

  /** A chat as the list holds it; `messages` is newest first and may be absent. */
  datatype ChatRec = ChatRec(id: string, participants: seq<Participant>, messages: Option<seq<Message>>,
                             lastMessageAt: Option<int>)

  /** `handleNewMessage`: the chat with that id gets the message in front; every other chat is untouched. */
  function WithNewMessage(chats: seq<ChatRec>, chatId: string, m: Message, nowMs: int): (r: seq<ChatRec>)
    ensures |r| == |chats|
    ensures forall i :: 0 <= i < |chats| && chats[i].id != chatId ==> r[i] == chats[i]
    ensures forall i :: 0 <= i < |chats| && chats[i].id == chatId ==>
      && r[i].id == chatId && r[i].participants == chats[i].participants
      && r[i].messages == Some([m] + chats[i].messages.GetOr([]))
      && r[i].lastMessageAt == Some(nowMs)
  {
    seq(|chats|, i requires 0 <= i < |chats| =>
      if chats[i].id == chatId
      then chats[i].(messages := Some([m] + chats[i].messages.GetOr([])), lastMessageAt := Some(nowMs))
      else chats[i])
  }

  /** A new message adds exactly one message to the matching chats and none to the others. */
  lemma NewMessageCounts(chats: seq<ChatRec>, chatId: string, m: Message, nowMs: int, i: int)
    requires 0 <= i < |chats|
    ensures var r := WithNewMessage(chats, chatId, m, nowMs);
      |r[i].messages.GetOr([])| == |chats[i].messages.GetOr([])| + (if chats[i].id == chatId then 1 else 0)
  {
  }

  /** `chat.participants.find(p => p._id.toString() === userId)` finds someone. */
  predicate HasParticipant(c: ChatRec, userId: string) {
    exists i :: 0 <= i < |c.participants| && c.participants[i].id == userId
  }

  const StartChatMutualAlert := "Both users must follow each other to start a chat."
  const StartChatErrorAlert := "Error starting chat. Please try again."

  /** The page's state. `location` is the address the history shows. */
  class ChatPage {
    var chats: seq<ChatRec>
    var loading: bool
    var selected: Option<ChatRec>
    var processedUserId: Option<string>
    var location: string

    constructor (location: string)
      ensures chats == [] && loading && selected.None? && processedUserId.None? && this.location == location
    {
      chats := [];
      loading := true;
      selected := None;
      processedUserId := None;
      this.location := location;
    }

    /** `fetchChats`: the list is replaced on success; loading ends either way. */
    method FetchChats(reply: Reply<seq<ChatRec>>)
      modifies this
      ensures chats == if reply.Ok? then reply.data else old(chats)
      ensures !loading
      ensures selected == old(selected) && processedUserId == old(processedUserId) && location == old(location)
    {
      if reply.Ok? {
        chats := reply.data;
      }
      loading := false;
    }

    /**
     * The effect on the `userId` query parameter. It fires only for a present
     * parameter, after loading, and when that parameter is not already being
     * handled. An existing chat with that participant is selected and the
     * marker cleared; otherwise the marker is kept and a chat with that user
     * is requested (`createFor`).
     */
    method UserIdParamEffect(userIdParam: Option<string>) returns (createFor: Option<string>)
      modifies this
      ensures chats == old(chats) && loading == old(loading)
      ensures !(Truthy(userIdParam) && !old(loading) && old(processedUserId) != userIdParam) ==>
        createFor.None? && selected == old(selected) && processedUserId == old(processedUserId)
        && location == old(location)
      ensures Truthy(userIdParam) && !old(loading) && old(processedUserId) != userIdParam ==>
        var found := FindIndex(old(chats), (c: ChatRec) => HasParticipant(c, userIdParam.value));
        && (found.Some? ==>
              && selected == Some(old(chats)[found.value])
              && location == "/chat/" + old(chats)[found.value].id
              && processedUserId.None? && createFor.None?)
        && (found.None? ==>
              && createFor == userIdParam && processedUserId == userIdParam
              && selected == old(selected) && location == old(location))
    {
      createFor := None;
      if Truthy(userIdParam) && !loading && processedUserId != userIdParam {
        processedUserId := userIdParam;
        var found := FindIndex(chats, (c: ChatRec) => HasParticipant(c, userIdParam.value));
        if found.Some? {
          selected := Some(chats[found.value]);
          location := "/chat/" + chats[found.value].id;
          processedUserId := None;
        } else {
          createFor := userIdParam;
        }
      }
    }

    /**
     * The end of `handleStartChatWithUser`: a created chat is selected and put
     * first; a failure alerts and rewrites the address to "/chat". The marker
     * is cleared either way.
     */
    method FinishStartChat(reply: Reply<ChatRec>) returns (alert: Option<string>)
      modifies this
      ensures processedUserId.None? && loading == old(loading)
      ensures reply.Ok? ==>
        && chats == [reply.data] + old(chats) && selected == Some(reply.data)
        && location == "/chat/" + reply.data.id && alert.None?
      ensures reply.Err? ==>
        && chats == old(chats) && selected == old(selected) && location == "/chat"
        && alert == Some(if StatusOf(reply.error) == Some(403) then StartChatMutualAlert else StartChatErrorAlert)
    {
      match reply {
        case Ok(newChat) =>
          selected := Some(newChat);
          chats := [newChat] + chats;
          location := "/chat/" + newChat.id;
          processedUserId := None;
          alert := None;
        case Err(e) =>
          processedUserId := None;
          if StatusOf(e) == Some(403) {
            alert := Some(StartChatMutualAlert);
          } else {
            alert := Some(StartChatErrorAlert);
          }
          location := "/chat";
      }
    }

    /**
     * A failed create followed by another run of the `userId` effect with the
     * parameter still present (the rewritten address does not change the
     * router's query parameters, and any change to `chats` re-runs the effect):
     * the marker was cleared, so the same chat is requested again.
     */
    method RetryAfterFailedCreate(userIdParam: Option<string>, failure: HttpError)
      returns (alert: Option<string>, createFor: Option<string>)
      requires Truthy(userIdParam) && !loading
      requires forall i :: 0 <= i < |chats| ==> !HasParticipant(chats[i], userIdParam.value)
      modifies this
      ensures alert.Some? && location == "/chat"
      ensures createFor == userIdParam && processedUserId == userIdParam
      ensures chats == old(chats) && selected == old(selected)
    {
      alert := FinishStartChat(Err(failure));
      createFor := UserIdParamEffect(userIdParam);
    }

    /**
     * The effect on the `chatId` route parameter, skipped while a `userId`
     * parameter is present. A chat in the list is selected; one that is not is
     * refetched once loading is over (`refetch` is that answer), and selected
     * only if the fresh list has it.
     */
    method ChatIdEffect(chatId: Option<string>, userIdParam: Option<string>, refetch: Reply<seq<ChatRec>>)
      returns (refetched: bool)
      modifies this
      ensures loading == old(loading) && processedUserId == old(processedUserId) && location == old(location)
      ensures !(Truthy(chatId) && !Truthy(userIdParam)) ==>
        !refetched && chats == old(chats) && selected == old(selected)
      ensures Truthy(chatId) && !Truthy(userIdParam) ==>
        var inList := FindIndex(old(chats), (c: ChatRec) => c.id == chatId.value);
        && (inList.Some? ==> !refetched && chats == old(chats) && selected == Some(old(chats)[inList.value]))
        && (inList.None? && old(loading) ==> !refetched && chats == old(chats) && selected == old(selected))
        && (inList.None? && !old(loading) ==> refetched && FetchedById(old(chats), old(selected), chatId.value, refetch, chats, selected))
    {
      refetched := false;
      if Truthy(chatId) && !Truthy(userIdParam) {
        var inList := FindIndex(chats, (c: ChatRec) => c.id == chatId.value);
        if inList.Some? {
          selected := Some(chats[inList.value]);
        } else if !loading {
          refetched := true;
          FetchChatById(chatId.value, refetch);
        }
      }
    }

    /** `fetchChatById`: the fresh list and the chat are taken only if the chat is in it. */
    method FetchChatById(id: string, reply: Reply<seq<ChatRec>>)
      modifies this
      ensures FetchedById(old(chats), old(selected), id, reply, chats, selected)
      ensures loading == old(loading) && processedUserId == old(processedUserId) && location == old(location)
    {
      if reply.Ok? {
        var found := FindIndex(reply.data, (c: ChatRec) => c.id == id);
        if found.Some? {
          selected := Some(reply.data[found.value]);
          chats := reply.data;
        }
      }
    }
  }

  /** The list and selection after `fetchChatById(id)` answered with `reply`. */
  predicate FetchedById(oldChats: seq<ChatRec>, oldSelected: Option<ChatRec>, id: string,
                        reply: Reply<seq<ChatRec>>, chats: seq<ChatRec>, selected: Option<ChatRec>) {
    var found := if reply.Ok? then FindIndex(reply.data, (c: ChatRec) => c.id == id) else None;
    if found.Some? then chats == reply.data && selected == Some(reply.data[found.value]) && selected.value.id == id
    else chats == oldChats && selected == oldSelected
  }
}
