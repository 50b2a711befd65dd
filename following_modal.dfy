/**
 * The following dialog of src/components/profile/FollowingModal.js: when it
 * fetches, its `canUnfollow` flag, and the unfollow handler that either drops
 * the user from the list or refetches it. `window.confirm` and server
 * answers are parameters.
 */
module FollowingModal {
  import opened Common
  import opened Api

  /** The body of `GET /profile/:id/following`. */
  datatype FollowingBody = FollowingBody(following: Option<seq<UserRef>>, canUnfollow: Option<bool>)

  /** The effect fetches only while open and given a user id. */
  predicate ShouldFetch(isOpen: bool, userId: Option<string>) {
    isOpen && Truthy(userId)
  }

  /** `'Error unfollowing user: ' + (server message || error.message)`. */
  function UnfollowErrorText(err: HttpError): (text: string)
    ensures text == "Error unfollowing user: " + ServerMessageOr(err, err.message)
    ensures err.response.None? ==> text == "Error unfollowing user: " + err.message
  {
    "Error unfollowing user: " + ServerMessageOr(err, err.message)
  }

  /** What the unfollow handler does with the list. */
  datatype UnfollowResult = NotAsked | Removed | Refetched | Failed(alert: string)

  /** The dialog's state. The Unfollow buttons show exactly when `canUnfollow` holds. */
  class FollowingModalState {
    var following: seq<UserRef>
    var loading: bool
    var canUnfollow: bool

    constructor ()
      ensures following == [] && loading && !canUnfollow
    {
      following := [];
      loading := true;
      canUnfollow := false;
    }

    /** `fetchFollowing`: list and flag from the answer, with defaults [] and false; loading ends either way. */
    method FetchFollowing(reply: Reply<FollowingBody>)
      modifies this
      ensures !loading
      ensures reply.Ok? ==>
        following == reply.data.following.GetOr([]) && canUnfollow == reply.data.canUnfollow.GetOr(false)
      ensures reply.Err? ==> following == old(following) && canUnfollow == old(canUnfollow)
    {
      loading := true;
      if reply.Ok? {
        following := reply.data.following.GetOr([]);
        canUnfollow := reply.data.canUnfollow.GetOr(false);
      }
      loading := false;
    }

    /** The effect on opening: fetch only when `ShouldFetch` holds. */
    method OpenEffect(isOpen: bool, userId: Option<string>, reply: Reply<FollowingBody>) returns (fetched: bool)
      modifies this
      ensures fetched == ShouldFetch(isOpen, userId)
      ensures !fetched ==> following == old(following) && loading == old(loading) && canUnfollow == old(canUnfollow)
      ensures fetched ==> !loading
      ensures fetched && reply.Ok? ==>
        following == reply.data.following.GetOr([]) && canUnfollow == reply.data.canUnfollow.GetOr(false)
      ensures fetched && reply.Err? ==> following == old(following) && canUnfollow == old(canUnfollow)
    {
      fetched := ShouldFetch(isOpen, userId);
      if fetched {
        FetchFollowing(reply);
      }
    }

    /**
     * `handleUnfollow`: nothing without confirmation. The follow endpoint
     * toggles; an answer that is not "following" drops exactly that user
     * (compared by `_id`) and calls `onUpdate` when given; a "still
     * following" answer refetches instead.
     */
    method HandleUnfollow(targetUserId: string, confirmed: bool, reply: Reply<Option<bool>>, hasOnUpdate: bool)
      returns (result: UnfollowResult, notified: bool)
      modifies this
      ensures loading == old(loading) && canUnfollow == old(canUnfollow)
      ensures !confirmed ==> result == NotAsked && !notified && following == old(following)
      ensures confirmed && reply.Ok? && reply.data != Some(true) ==>
        result == Removed && following == RemoveById(old(following), targetUserId) && notified == hasOnUpdate
      ensures confirmed && reply.Ok? && reply.data == Some(true) ==>
        result == Refetched && following == old(following) && !notified
      ensures confirmed && reply.Err? ==>
        result == Failed(UnfollowErrorText(reply.error)) && following == old(following) && !notified
    {
      notified := false;
      if !confirmed {
        return NotAsked, false;
      }
      match reply {
        case Ok(isFollowing) =>
          if isFollowing != Some(true) {
            following := RemoveById(following, targetUserId);
            notified := hasOnUpdate;
            result := Removed;
          } else {
            result := Refetched;
          }
        case Err(e) =>
          result := Failed(UnfollowErrorText(e));
      }
    }
  }
}
