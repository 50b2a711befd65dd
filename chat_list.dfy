/**
 * The sidebar of src/components/chat/ChatList.js: the mutual-follow list it
 * fetches, the "start new chat" candidates, the preview of each chat's
 * latest message and its relative time label. The clock is a parameter:
 * times are integer milliseconds.
 */
module ChatList {
  import opened Common
  import opened Api
  import opened ChatWindow
  import opened Chat

  // ---------------------------------------------------------------------------
  // Mutual follows

  /** The ids of a user list: `new Set(users.map(u => u._id.toString()))`. */
  function IdsOf(users: seq<Participant>): (ids: set<string>)
    ensures forall i :: 0 <= i < |users| ==> users[i].id in ids
    ensures forall id :: id in ids ==> exists i :: 0 <= i < |users| && users[i].id == id
  {
    set i | 0 <= i < |users| :: users[i].id
  }

  /** The followers that the user also follows, in the followers' order. */
  function Mutual(followers: seq<Participant>, following: seq<Participant>): (r: seq<Participant>)
    ensures IsSubsequence(r, followers)
    ensures forall i :: 0 <= i < |r| ==> r[i].id in IdsOf(following)
    ensures forall i :: 0 <= i < |followers| ==> (followers[i] in r <==> followers[i].id in IdsOf(following))
  {
    var followingIds := IdsOf(following);
    FilterIsSubsequence(followers, (f: Participant) => f.id in followingIds);
    Filter(followers, (f: Participant) => f.id in followingIds)
  }

  /** The mutual ids are exactly the ids present in both lists. */
  lemma MutualIds(followers: seq<Participant>, following: seq<Participant>)
    ensures IdsOf(Mutual(followers, following)) == IdsOf(followers) * IdsOf(following)
  {
    var a := Mutual(followers, following);
    forall id | id in IdsOf(a) ensures id in IdsOf(followers) {
      var i :| 0 <= i < |a| && a[i].id == id;
      assert a[i] in followers;
      var j :| 0 <= j < |followers| && followers[j] == a[i];
    }
    forall id | id in IdsOf(followers) * IdsOf(following) ensures id in IdsOf(a) {
      var j :| 0 <= j < |followers| && followers[j].id == id;
      assert followers[j] in a;
      var k :| 0 <= k < |a| && a[k] == followers[j];
    }
  }

  /** Mutual follow is symmetric: swapping the two lists gives the same ids. */
  lemma MutualIdsSymmetric(followers: seq<Participant>, following: seq<Participant>)
    ensures IdsOf(Mutual(followers, following)) == IdsOf(Mutual(following, followers))
  {
    MutualIds(followers, following);
    MutualIds(following, followers);
  }

  class ChatListState {
    var mutualFollows: seq<Participant>
    var loading: bool

    constructor ()
      ensures mutualFollows == [] && loading
    {
      mutualFollows := [];
      loading := true;
    }

    /**
     * `fetchMutualFollows`. Without a stored user id nothing is requested and
     * loading never ends. Otherwise the following list is fetched, then the
     * followers; an absent list counts as empty; a failed request ends
     * loading and keeps the old list.
     */
    method FetchMutualFollows(store: LocalStorage, following: Reply<Option<seq<Participant>>>,
                              followers: Reply<Option<seq<Participant>>>)
      returns (requests: seq<string>)
      modifies this
      ensures var uid := store.GetItem(UserIdKey);
        && (!Truthy(uid) ==> requests == [] && mutualFollows == old(mutualFollows) && loading == old(loading))
        && (Truthy(uid) ==>
              && !loading
              && requests == ["/profile/" + uid.value + "/following"]
                             + (if following.Ok? then ["/profile/" + uid.value + "/followers"] else [])
              && mutualFollows == if following.Ok? && followers.Ok?
                                  then Mutual(followers.data.GetOr([]), following.data.GetOr([]))
                                  else old(mutualFollows))
    {
      var uid := store.GetItem(UserIdKey);
      if !Truthy(uid) {
        return [];
      }
      requests := ["/profile/" + uid.value + "/following"];
      if following.Err? {
        loading := false;
        return;
      }
      requests := requests + ["/profile/" + uid.value + "/followers"];
      if followers.Err? {
        loading := false;
        return;
      }
      mutualFollows := Mutual(followers.data.GetOr([]), following.data.GetOr([]));
      loading := false;
    }
  }

  // ---------------------------------------------------------------------------
  // Candidates for a new chat

  /** Some chat's other participant is this user. */
  predicate HasChatWith(chats: seq<ChatRec>, userId: string, currentUserId: Option<string>) {
    exists i :: 0 <= i < |chats| && ChatPartner(chats[i], currentUserId) == Some(userId)
  }

  /** The id of a chat's other participant, if it has one. */
  function ChatPartner(c: ChatRec, currentUserId: Option<string>): Option<string> {
    match OtherParticipant(c.participants, currentUserId)
    case None => None
    case Some(p) => Some(p.id)
  }

  /** The mutual follows offered for a new chat: those without a chat already. */
  function Candidates(mutual: seq<Participant>, chats: seq<ChatRec>, currentUserId: Option<string>)
    : (r: seq<Participant>)
    ensures IsSubsequence(r, mutual)
    ensures forall i :: 0 <= i < |r| ==> !HasChatWith(chats, r[i].id, currentUserId)
    ensures forall i :: 0 <= i < |mutual| ==> (mutual[i] in r <==> !HasChatWith(chats, mutual[i].id, currentUserId))
  {
    var free := (u: Participant) => !HasChatWith(chats, u.id, currentUserId);
    FilterIsSubsequence(mutual, free);
    Filter(mutual, free)
  }

  /** Once a chat with a user is put in the list, that user is no longer a candidate. */
  lemma NewChatRemovesCandidate(mutual: seq<Participant>, chats: seq<ChatRec>, currentUserId: Option<string>,
                                c: ChatRec, u: Participant)
    requires ChatPartner(c, currentUserId) == Some(u.id)
    ensures u !in Candidates(mutual, [c] + chats, currentUserId)
  {
    assert ([c] + chats)[0] == c;
    assert HasChatWith([c] + chats, u.id, currentUserId);
  }

  // ---------------------------------------------------------------------------
  // The preview line

  /** `getLastMessage`: the first message of a non-empty list, else null. */
  function LastMessage(c: ChatRec): Option<Message> {
    if c.messages.Some? && |c.messages.value| > 0 then Some(c.messages.value[0]) else None
  }

  /** A message added by the page's `handleNewMessage` becomes that chat's preview. */
  lemma NewMessageIsPreviewed(chats: seq<ChatRec>, chatId: string, m: Message, nowMs: int, i: int)
    requires 0 <= i < |chats| && chats[i].id == chatId
    ensures LastMessage(WithNewMessage(chats, chatId, m, nowMs)[i]) == Some(m)
  {
  }

  /** `lastMessage.sender?._id === localStorage.getItem('userId')`: strict, without `toString`. */
  predicate YouPrefix(m: Message, storedUserId: Option<string>) {
    m.sender.Populated? && m.sender.id.Some? && m.sender.id == storedUserId
  }

  /**
   * A "You: " preview is always an own message by the pane's test; the
   * converse fails for a sender stored as a bare id, which the pane counts
   * as own and the preview does not.
   */
  lemma YouPrefixImpliesOwn(m: Message, storedUserId: Option<string>)
    ensures YouPrefix(m, storedUserId) ==> IsOwn(m, storedUserId)
    ensures m.sender == Bare("u1") ==> IsOwn(m, Some("u1")) && !YouPrefix(m, Some("u1"))
  {
  }

  // ---------------------------------------------------------------------------
  // Relative time

  /** The label `formatTime` picks; the last bucket is a locale date, whose text is not modelled. */
  datatype TimeLabel = NoTime | JustNow | MinutesAgo(n: nat) | HoursAgo(n: nat) | DaysAgo(n: nat) | LocaleDate

  const MinuteMs := 60000
  const HourMs := 3600000
  const DayMs := 86400000

  /**
   * `formatTime(timestamp)` with `diff = now - timestamp`: floor divisions by
   * a minute, an hour and a day, tested in that order.
   */
  function FormatTime(timestamp: Option<int>, nowMs: int): (l: TimeLabel)
    ensures timestamp.None? <==> l == NoTime
    ensures timestamp.Some? ==>
      var diff := nowMs - timestamp.value;
      && (l == JustNow <==> diff < MinuteMs)
      && (l.MinutesAgo? <==> MinuteMs <= diff < HourMs)
      && (l.MinutesAgo? ==> l.n == diff / MinuteMs && 1 <= l.n < 60)
      && (l.HoursAgo? <==> HourMs <= diff < DayMs)
      && (l.HoursAgo? ==> l.n == diff / HourMs && 1 <= l.n < 24)
      && (l.DaysAgo? <==> DayMs <= diff < 7 * DayMs)
      && (l.DaysAgo? ==> l.n == diff / DayMs && 1 <= l.n < 7)
      && (l == LocaleDate <==> 7 * DayMs <= diff)
  {
    match timestamp
    case None => NoTime
    case Some(t) =>
      var diff := nowMs - t;
      var minutes := diff / MinuteMs;
      var hours := diff / HourMs;
      var days := diff / DayMs;
      if minutes < 1 then JustNow
      else if minutes < 60 then MinutesAgo(minutes)
      else if hours < 24 then HoursAgo(hours)
      else if days < 7 then DaysAgo(days)
      else LocaleDate
  }

  /** The text of a label, `None` for the locale date. */
  function LabelText(l: TimeLabel): Option<string> {
    match l
    case NoTime => Some("")
    case JustNow => Some("Just now")
    case MinutesAgo(n) => Some(NatToString(n) + "m ago")
    case HoursAgo(n) => Some(NatToString(n) + "h ago")
    case DaysAgo(n) => Some(NatToString(n) + "d ago")
    case LocaleDate => None
  }

  /** The order of the buckets, from most recent to oldest. */
  function Rank(l: TimeLabel): nat {
    match l
    case NoTime => 0
    case JustNow => 0
    case MinutesAgo(_) => 1
    case HoursAgo(_) => 2
    case DaysAgo(_) => 3
    case LocaleDate => 4
  }

  /** An older timestamp never gets a more recent bucket. */
  lemma FormatTimeMonotone(t1: int, t2: int, nowMs: int)
    requires t2 <= t1
    ensures Rank(FormatTime(Some(t1), nowMs)) <= Rank(FormatTime(Some(t2), nowMs))
  {
  }
}
