/**
 * The "Discover People" page of src/components/people/People.js: the query
 * it sends, the follow-status map it builds from the answer, and the follow
 * toggle that updates one user's card. A missing `isFollowing` reads as
 * `false`, as the page's `|| false` does.
 */
module People {
  import opened Common
  import opened Api

  /** A user card: id, whether the viewer follows them, and their follower count. */
  datatype Person = Person(id: string, isFollowing: bool, followersCount: int)

  /** The query of `GET /profile/discover`. */
  datatype DiscoverParams = DiscoverParams(sortBy: string, search: Option<string>)

  const DefaultSortBy := "followers"
  const ToggleErrorAlert := "Error updating follow status. Please try again."

  /** `sortBy` always; `search` trimmed, and only when the trimmed text is non-empty. */
  function Params(sortBy: string, search: string): (p: DiscoverParams)
    ensures p.sortBy == sortBy
    ensures p.search.Some? <==> !AllSpace(search)
    ensures p.search.Some? ==> p.search.value == Trim(search) && p.search.value != []
  {
    TrimEmptyIffAllSpace(search);
    var t := Trim(search);
    if t != [] then DiscoverParams(sortBy, Some(t)) else DiscoverParams(sortBy, None)
  }

  /** Spaces around the search text do not change the query. */
  lemma ParamsIgnoreSurroundingSpace(sortBy: string, search: string)
    ensures Params(sortBy, Trim(search)) == Params(sortBy, search)
  {
    TrimIdempotent(search);
  }

  /** The card after a toggle answered with `isFollowing`: the count goes up by one, or down to no less than 0. */
  function Toggled(u: Person, isFollowing: bool): (r: Person)
    ensures r.id == u.id && r.isFollowing == isFollowing
    ensures isFollowing ==> r.followersCount == u.followersCount + 1
    ensures !isFollowing ==> r.followersCount == if u.followersCount - 1 > 0 then u.followersCount - 1 else 0
    ensures u.followersCount >= 0 ==> r.followersCount >= 0
  {
    u.(isFollowing := isFollowing,
       followersCount := if isFollowing then u.followersCount + 1
                         else if u.followersCount - 1 > 0 then u.followersCount - 1 else 0)
  }

  /** `users.map(...)`: only the cards with that id change. */
  function ToggledUsers(users: seq<Person>, userId: string, isFollowing: bool): (r: seq<Person>)
    ensures |r| == |users|
    ensures forall i :: 0 <= i < |users| ==> r[i] == if users[i].id == userId then Toggled(users[i], isFollowing) else users[i]
  {
    seq(|users|, i requires 0 <= i < |users| =>
      if users[i].id == userId then Toggled(users[i], isFollowing) else users[i])
  }

  /** A follow answered "following" then an unfollow answered "not following" restores a non-negative count. */
  lemma FollowThenUnfollowRestores(users: seq<Person>, userId: string)
    requires forall i :: 0 <= i < |users| && users[i].id == userId ==> !users[i].isFollowing && users[i].followersCount >= 0
    ensures ToggledUsers(ToggledUsers(users, userId, true), userId, false) == users
  {
    var r := ToggledUsers(ToggledUsers(users, userId, true), userId, false);
    forall i | 0 <= i < |users| ensures r[i] == users[i] {
    }
  }

  function PersonId(u: Person): string { u.id }

  function PersonFollowed(u: Person): bool { u.isFollowing }

  /** The `followingStatus` map built from a user list: each id mapped to its `isFollowing`. */
  function StatusMap(users: seq<Person>): map<string, bool> {
    MapOf(users, PersonId, PersonFollowed)
  }

  /** With distinct ids, the status map built from a list reads back each user's `isFollowing`. */
  lemma StatusMapReadsBack(users: seq<Person>, i: nat)
    requires i < |users|
    requires forall j, k :: 0 <= j < k < |users| ==> users[j].id != users[k].id
    ensures FlagOf(StatusMap(users), users[i].id) == users[i].isFollowing
  {
    MapOfLastWins(users, PersonId, PersonFollowed, i);
  }

  /** The page's state. */
  class PeoplePage {
    var users: seq<Person>
    var loading: bool
    var search: string
    var sortBy: string
    var followingStatus: map<string, bool>

    constructor ()
      ensures users == [] && loading && search == "" && sortBy == DefaultSortBy && followingStatus == map[]
    {
      users := [];
      loading := true;
      search := "";
      sortBy := DefaultSortBy;
      followingStatus := map[];
    }

    /**
     * `fetchUsers`: the query from the current filters; on success the list
     * is replaced and the status map rebuilt from it; loading ends either way.
     */
    method FetchUsers(reply: Reply<seq<Person>>) returns (params: DiscoverParams)
      modifies this
      ensures params == Params(sortBy, search)
      ensures !loading && search == old(search) && sortBy == old(sortBy)
      ensures reply.Ok? ==>
        users == reply.data && followingStatus == StatusMap(reply.data)
      ensures reply.Err? ==> users == old(users) && followingStatus == old(followingStatus)
    {
      loading := true;
      if reply.Ok? {
        var status := FillMap(reply.data, PersonId, PersonFollowed);
        users, followingStatus := reply.data, status;
      }
      loading := false;
      params := Params(sortBy, search);
    }

    /**
     * `handleFollowToggle`: the server's answer is written to the target's
     * status entry and card; a failure changes nothing and alerts.
     */
    method HandleFollowToggle(userId: string, reply: Reply<bool>) returns (alert: Option<string>)
      modifies this
      ensures loading == old(loading) && search == old(search) && sortBy == old(sortBy)
      ensures reply.Ok? ==>
        && followingStatus == old(followingStatus)[userId := reply.data]
        && users == ToggledUsers(old(users), userId, reply.data)
        && alert.None?
      ensures reply.Err? ==>
        users == old(users) && followingStatus == old(followingStatus) && alert == Some(ToggleErrorAlert)
    {
      match reply {
        case Ok(isFollowing) =>
          followingStatus := followingStatus[userId := isFollowing];
          users := ToggledUsers(users, userId, isFollowing);
          alert := None;
        case Err(_) =>
          alert := Some(ToggleErrorAlert);
      }
    }
  }

  /** A toggle changes the status read for the target only. */
  lemma ToggleChangesOnlyTarget(status: map<string, bool>, userId: string, isFollowing: bool, other: string)
    ensures FlagOf(status[userId := isFollowing], userId) == isFollowing
    ensures other != userId ==> FlagOf(status[userId := isFollowing], other) == FlagOf(status, other)
  {
  }
}
