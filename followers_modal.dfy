/**
 * The followers dialog of src/components/profile/FollowersModal.js: when it
 * fetches, the follow-status map it builds from the viewer's own following
 * list, the follow toggle, removing a follower, and which buttons each entry
 * shows. `window.confirm` and server answers are parameters.
 */
module FollowersModal {
  import opened Common
  import opened Api

  /** The body of `GET /profile/:id/followers`. */
  datatype FollowersBody = FollowersBody(followers: Option<seq<UserRef>>, canRemove: Option<bool>)

  const ToggleErrorAlert := "Error updating follow status"
  const RemoveErrorAlert := "Error removing follower"

  /** The effect fetches only while open and given a user id. */
  predicate ShouldFetch(isOpen: bool, userId: Option<string>) {
    isOpen && Truthy(userId)
  }

  /** Each follower's id mapped to whether the viewer follows them. */
  function StatusMap(followers: seq<UserRef>, followingIds: set<string>): map<string, bool> {
    MapOf(followers, (f: UserRef) => f.id, (f: UserRef) => f.id in followingIds)
  }

  /** When every value is decided by its key, each entry of the filled map is that decision. */
  lemma {:induction false} MapOfValueByKey(xs: seq<UserRef>, key: UserRef -> string, val: UserRef -> bool,
                                           ids: set<string>)
    requires forall x :: val(x) == (key(x) in ids)
    ensures forall k :: k in MapOf(xs, key, val) ==> MapOf(xs, key, val)[k] == (k in ids)
  {
    if xs != [] {
      MapOfValueByKey(xs[..|xs| - 1], key, val, ids);
    }
  }

  /** The status map has an entry for every follower, saying whether the viewer follows them. */
  lemma StatusMapMeaning(followers: seq<UserRef>, followingIds: set<string>)
    ensures var m := StatusMap(followers, followingIds);
      && (forall i :: 0 <= i < |followers| ==> followers[i].id in m)
      && (forall k :: k in m ==> (m[k] <==> k in followingIds))
  {
    var key := (f: UserRef) => f.id;
    var val := (f: UserRef) => f.id in followingIds;
    MapOfKeys(followers, key, val);
    MapOfValueByKey(followers, key, val, followingIds);
    forall i | 0 <= i < |followers| ensures followers[i].id in MapOf(followers, key, val) {
      assert key(followers[i]) in KeysOf(followers, key);
    }
  }

  /** The ids of a user list. */
  function IdsOf(users: seq<UserRef>): set<string> {
    set i | 0 <= i < |users| :: users[i].id
  }

  /**
   * The map the fetch installs: empty without a stored user id or when the
   * viewer's list cannot be had; otherwise an entry for every follower, true
   * exactly when the viewer's following list holds that id.
   */
  function StatusMapFor(followers: seq<UserRef>, currentUserId: Option<string>,
                        following: Reply<Option<seq<UserRef>>>): (m: map<string, bool>)
    ensures !Truthy(currentUserId) || following.Err? ==> m == map[]
    ensures Truthy(currentUserId) && following.Ok? ==>
      && (forall i :: 0 <= i < |followers| ==> followers[i].id in m)
      && (forall k :: k in m ==> (m[k] <==> k in IdsOf(following.data.GetOr([]))))
  {
    if Truthy(currentUserId) && following.Ok? then
      var ids := IdsOf(following.data.GetOr([]));
      StatusMapMeaning(followers, ids);
      StatusMap(followers, ids)
    else map[]
  }

  /** `handleUserClick`: one's own entry does nothing; any other opens that profile and closes the dialog. */
  function UserClick(followerId: string, currentUserId: Option<string>): (nav: Option<string>)
    ensures nav.None? <==> currentUserId == Some(followerId)
    ensures nav.Some? ==> nav.value == "/profile/" + followerId
  {
    if Some(followerId) != currentUserId then Some("/profile/" + followerId) else None
  }

  /** The Remove button: only when the owner may remove, and never on one's own entry. */
  predicate ShowRemove(canRemove: bool, followerId: string, currentUserId: Option<string>) {
    canRemove && Some(followerId) != currentUserId
  }

  /** The Follow button: never on one's own entry. */
  predicate ShowFollow(followerId: string, currentUserId: Option<string>) {
    Some(followerId) != currentUserId
  }

  /** One's own entry offers nothing at all; any entry with Remove also has Follow. */
  lemma OwnEntryInert(canRemove: bool, followerId: string, currentUserId: Option<string>)
    ensures currentUserId == Some(followerId) ==>
      !ShowRemove(canRemove, followerId, currentUserId) && !ShowFollow(followerId, currentUserId)
      && UserClick(followerId, currentUserId).None?
    ensures ShowRemove(canRemove, followerId, currentUserId) ==> ShowFollow(followerId, currentUserId)
  {
  }

  /** The dialog's state. */
  class FollowersModalState {
    var followers: seq<UserRef>
    var loading: bool
    var canRemove: bool
    var followingStatus: map<string, bool>

    constructor ()
      ensures followers == [] && loading && !canRemove && followingStatus == map[]
    {
      followers := [];
      loading := true;
      canRemove := false;
      followingStatus := map[];
    }

    /**
     * `fetchFollowers` for `userId`: the list and the owner's `canRemove` flag
     * are taken from the answer, then the viewer's following list is fetched
     * to fill the status map; loading ends either way.
     */
    method FetchFollowers(userId: string, currentUserId: Option<string>, reply: Reply<FollowersBody>,
                          following: Reply<Option<seq<UserRef>>>)
      returns (requests: seq<string>)
      modifies this
      ensures !loading
      ensures reply.Err? ==>
        && requests == ["/profile/" + userId + "/followers"]
        && followers == old(followers) && canRemove == old(canRemove) && followingStatus == old(followingStatus)
      ensures reply.Ok? ==>
        && requests == ["/profile/" + userId + "/followers"]
                       + (if Truthy(currentUserId) then ["/profile/" + currentUserId.value + "/following"] else [])
        && followers == reply.data.followers.GetOr([])
        && canRemove == reply.data.canRemove.GetOr(false)
        && followingStatus == StatusMapFor(followers, currentUserId, following)
    {
      loading := true;
      requests := ["/profile/" + userId + "/followers"];
      if reply.Err? {
        loading := false;
        return;
      }
      var list := reply.data.followers.GetOr([]);
      followers := list;
      canRemove := reply.data.canRemove.GetOr(false);
      var statusMap: map<string, bool> := map[];
      if Truthy(currentUserId) {
        requests := requests + ["/profile/" + currentUserId.value + "/following"];
        if following.Ok? {
          var followingIds := IdsOf(following.data.GetOr([]));
          statusMap := FillMap(list, (f: UserRef) => f.id, (f: UserRef) => f.id in followingIds);
        }
      }
      followingStatus := statusMap;
      loading := false;
    }

    /** The effect on opening: fetch only when `ShouldFetch` holds. */
    method OpenEffect(isOpen: bool, userId: Option<string>, currentUserId: Option<string>,
                      reply: Reply<FollowersBody>, following: Reply<Option<seq<UserRef>>>)
      returns (requests: seq<string>)
      modifies this
      ensures !ShouldFetch(isOpen, userId) ==>
        requests == [] && followers == old(followers) && loading == old(loading)
        && canRemove == old(canRemove) && followingStatus == old(followingStatus)
      ensures ShouldFetch(isOpen, userId) ==> !loading
      ensures ShouldFetch(isOpen, userId) && reply.Err? ==>
        && requests == ["/profile/" + userId.value + "/followers"]
        && followers == old(followers) && canRemove == old(canRemove) && followingStatus == old(followingStatus)
      ensures ShouldFetch(isOpen, userId) && reply.Ok? ==>
        && requests == ["/profile/" + userId.value + "/followers"]
                       + (if Truthy(currentUserId) then ["/profile/" + currentUserId.value + "/following"] else [])
        && followers == reply.data.followers.GetOr([])
        && canRemove == reply.data.canRemove.GetOr(false)
        && followingStatus == StatusMapFor(followers, currentUserId, following)
    {
      requests := [];
      if ShouldFetch(isOpen, userId) {
        requests := FetchFollowers(userId.value, currentUserId, reply, following);
      }
    }

    /** `handleFollowToggle`: only the target's entry takes the server's answer. */
    method HandleFollowToggle(targetUserId: string, reply: Reply<bool>) returns (alert: Option<string>)
      modifies this
      ensures followers == old(followers) && loading == old(loading) && canRemove == old(canRemove)
      ensures reply.Ok? ==> followingStatus == old(followingStatus)[targetUserId := reply.data] && alert.None?
      ensures reply.Err? ==> followingStatus == old(followingStatus) && alert == Some(ToggleErrorAlert)
    {
      if reply.Ok? {
        followingStatus := followingStatus[targetUserId := reply.data];
        alert := None;
      } else {
        alert := Some(ToggleErrorAlert);
      }
    }

    /**
     * `handleRemoveFollower`: nothing without confirmation; otherwise the
     * DELETE is sent and, on success, exactly that follower leaves the list
     * and the parent's `onUpdate` (when given) is called.
     */
    method HandleRemoveFollower(userId: string, followerId: string, confirmed: bool, reply: Reply<()>,
                                hasOnUpdate: bool)
      returns (request: Option<string>, notified: bool, alert: Option<string>)
      modifies this
      ensures loading == old(loading) && canRemove == old(canRemove) && followingStatus == old(followingStatus)
      ensures !confirmed ==> request.None? && !notified && alert.None? && followers == old(followers)
      ensures confirmed ==> request == Some("/profile/" + userId + "/followers/" + followerId)
      ensures confirmed && reply.Ok? ==>
        followers == RemoveById(old(followers), followerId) && notified == hasOnUpdate && alert.None?
      ensures confirmed && reply.Err? ==>
        followers == old(followers) && !notified && alert == Some(RemoveErrorAlert)
    {
      request, notified, alert := None, false, None;
      if !confirmed {
        return;
      }
      request := Some("/profile/" + userId + "/followers/" + followerId);
      if reply.Ok? {
        followers := RemoveById(followers, followerId);
        notified := hasOnUpdate;
      } else {
        alert := Some(RemoveErrorAlert);
      }
    }
  }
}
