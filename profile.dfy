/**
 * The profile page of src/components/profile/Profile.js: what `fetchProfile`
 * derives from the answer (the follow flag, whether a chat may be opened,
 * the seeded edit form), which actions the header offers, and what the edit
 * form uploads. The stored user id, the route's `userId` and server answers
 * are parameters.
 */
module Profile {
  import opened Common
  import opened Api

  /** The profile's user record as the page reads it. */
  datatype ProfileUser = ProfileUser(name: string, bio: Option<string>, avatar: Option<string>,
                                     isFollowing: Option<bool>, followersCount: Option<int>,
                                     followers: Option<seq<string>>)

  /** An uploaded file, opaque to the page. */
  datatype FileRef = FileRef(name: string)

  /** The avatar field of the edit form: the stored path text, or a newly chosen file. */
  datatype AvatarField = AvatarText(path: string) | AvatarFile(file: FileRef)

  datatype EditData = EditData(name: string, bio: string, avatar: AvatarField)

  /** One part of the multipart body. */
  datatype FormPart = TextPart(field: string, text: string) | FilePart(field: string, file: FileRef)

  /** True when `id` occurs in the `followers` id list. */
  predicate FollowedBy(u: ProfileUser, id: string) {
    u.followers.Some? && exists i :: 0 <= i < |u.followers.value| && u.followers.value[i] == id
  }

  /**
   * `canChat`: never without a stored id or on one's own profile; otherwise
   * the viewer follows them, their follower count is positive and their
   * followers include the viewer.
   */
  function CanChat(u: ProfileUser, currentUserId: Option<string>, routeUserId: string): (r: bool)
    ensures !Truthy(currentUserId) || currentUserId == Some(routeUserId) ==> !r
    ensures Truthy(currentUserId) && currentUserId != Some(routeUserId) ==>
      (r <==> u.isFollowing == Some(true)
              && u.followersCount.Some? && u.followersCount.value > 0
              && FollowedBy(u, currentUserId.value))
  {
    if Truthy(currentUserId) && currentUserId != Some(routeUserId) then
      u.isFollowing == Some(true) && u.followersCount.Some? && u.followersCount.value > 0
      && FollowedBy(u, currentUserId.value)
    else false
  }

  /** `user.isFollowing || false`. */
  function IsFollowing(u: ProfileUser): bool {
    u.isFollowing == Some(true)
  }

  /** The edit form seeded from the record: bio and avatar default to "". */
  function Seed(u: ProfileUser): (e: EditData)
    ensures e.name == u.name
    ensures e.bio == if u.bio.Some? then u.bio.value else ""
    ensures e.avatar == AvatarText(if u.avatar.Some? then u.avatar.value else "")
  {
    EditData(u.name, u.bio.GetOr(""), AvatarText(u.avatar.GetOr("")))
  }

  /** The multipart body of `handleEdit`: name, bio, and the avatar only when it is a new file. */
  function FormParts(e: EditData): (parts: seq<FormPart>)
    ensures |parts| >= 2 && parts[0] == TextPart("name", e.name) && parts[1] == TextPart("bio", e.bio)
    ensures (exists i :: 0 <= i < |parts| && parts[i].FilePart?) <==> e.avatar.AvatarFile?
    ensures e.avatar.AvatarFile? ==> parts == [parts[0], parts[1], FilePart("avatar", e.avatar.file)]
  {
    var base := [TextPart("name", e.name), TextPart("bio", e.bio)];
    if e.avatar.AvatarFile? then
      var parts := base + [FilePart("avatar", e.avatar.file)];
      assert parts[2].FilePart?;
      parts
    else base
  }

  /** Saving the form as seeded never uploads the avatar again. */
  lemma SeededFormSendsNoFile(u: ProfileUser)
    ensures FormParts(Seed(u)) == [TextPart("name", u.name), TextPart("bio", u.bio.GetOr(""))]
  {
  }

  /** The header's actions. */
  datatype Actions = EditButton | FollowButtons(following: bool, chat: bool) | NoActions

  /**
   * Edit on one's own profile; Follow/Unfollow, plus Chat when allowed, for a
   * signed-in viewer of someone else's profile; nothing otherwise.
   */
  function ActionsFor(currentUserId: Option<string>, routeUserId: string, isFollowing: bool, canChat: bool)
    : (a: Actions)
    ensures a == EditButton <==> currentUserId == Some(routeUserId)
    ensures a.FollowButtons? <==> Truthy(currentUserId) && currentUserId != Some(routeUserId)
    ensures a.FollowButtons? ==> a.following == isFollowing && a.chat == canChat
  {
    if currentUserId == Some(routeUserId) then EditButton
    else if Truthy(currentUserId) then FollowButtons(isFollowing, canChat)
    else NoActions
  }

  /** The Chat button is shown only when `CanChat` holds for the loaded record. */
  lemma ChatButtonNeedsCanChat(u: ProfileUser, currentUserId: Option<string>, routeUserId: string)
    ensures var a := ActionsFor(currentUserId, routeUserId, IsFollowing(u), CanChat(u, currentUserId, routeUserId));
      a.FollowButtons? && a.chat ==> IsFollowing(u) && FollowedBy(u, currentUserId.value)
  {
  }

  /** What `GET /profile/:id` answers: the user record (absent in a malformed body) and the recent quiz ids. */
  datatype ProfileResponse = ProfileResponse(user: Option<ProfileUser>, recentQuizzes: Option<seq<string>>)

  /** The page's state. */
  class ProfilePage {
    var profile: Option<ProfileUser>
    var recentQuizzes: seq<string>
    var isEditing: bool
    var editData: EditData
    var loading: bool
    var isFollowing: bool
    var canChat: bool

    constructor ()
      ensures profile.None? && recentQuizzes == [] && !isEditing && editData == EditData("", "", AvatarText(""))
      ensures loading && !isFollowing && !canChat
    {
      profile := None;
      recentQuizzes := [];
      isEditing := false;
      editData := EditData("", "", AvatarText(""));
      loading := true;
      isFollowing := false;
      canChat := false;
    }

    /**
     * `fetchProfile`. A record sets every derived field; a body without one
     * clears the profile and stops at the first read of it; a failed request
     * changes nothing. Loading ends on every path.
     */
    method FetchProfile(currentUserId: Option<string>, routeUserId: string, reply: Reply<ProfileResponse>)
      modifies this
      ensures !loading && isEditing == old(isEditing)
      ensures reply.Ok? && reply.data.user.Some? ==>
        var u := reply.data.user.value;
        && profile == Some(u) && recentQuizzes == reply.data.recentQuizzes.GetOr([])
        && isFollowing == IsFollowing(u) && canChat == CanChat(u, currentUserId, routeUserId)
        && editData == Seed(u)
      ensures reply.Ok? && reply.data.user.None? ==>
        && profile.None? && recentQuizzes == reply.data.recentQuizzes.GetOr([])
        && isFollowing == old(isFollowing) && canChat == old(canChat) && editData == old(editData)
      ensures reply.Err? ==>
        && profile == old(profile) && recentQuizzes == old(recentQuizzes)
        && isFollowing == old(isFollowing) && canChat == old(canChat) && editData == old(editData)
    {
      if reply.Ok? {
        profile := reply.data.user;
        recentQuizzes := reply.data.recentQuizzes.GetOr([]);
        if reply.data.user.Some? {
          var u := reply.data.user.value;
          isFollowing := IsFollowing(u);
          canChat := CanChat(u, currentUserId, routeUserId);
          editData := Seed(u);
        }
      }
      loading := false;
    }

    /** A new file chosen in the avatar input. */
    method ChooseAvatar(file: FileRef)
      modifies this
      ensures editData == old(editData).(avatar := AvatarFile(file))
      ensures profile == old(profile) && isEditing == old(isEditing) && recentQuizzes == old(recentQuizzes)
      ensures loading == old(loading) && isFollowing == old(isFollowing) && canChat == old(canChat)
    {
      editData := editData.(avatar := AvatarFile(file));
    }

    /**
     * `handleEdit`: the body is sent; success closes the form and asks for a
     * refetch; failure alerts and leaves the form open.
     */
    method HandleEdit(reply: Reply<()>) returns (parts: seq<FormPart>, refetch: bool, alert: Option<string>)
      modifies this
      ensures parts == FormParts(old(editData)) && editData == old(editData) && profile == old(profile)
      ensures loading == old(loading) && isFollowing == old(isFollowing) && canChat == old(canChat)
      ensures recentQuizzes == old(recentQuizzes)
      ensures reply.Ok? ==> !isEditing && refetch && alert.None?
      ensures reply.Err? ==> isEditing == old(isEditing) && !refetch && alert == Some("Error updating profile")
    {
      parts := FormParts(editData);
      if reply.Ok? {
        isEditing := false;
        refetch := true;
        alert := None;
      } else {
        refetch := false;
        alert := Some("Error updating profile");
      }
    }

    /** `handleFollowToggle`: the flag follows the server's answer and the profile is refetched. */
    method HandleFollowToggle(reply: Reply<bool>) returns (refetch: bool, alert: Option<string>)
      modifies this
      ensures profile == old(profile) && canChat == old(canChat) && editData == old(editData)
      ensures loading == old(loading) && isEditing == old(isEditing) && recentQuizzes == old(recentQuizzes)
      ensures reply.Ok? ==> isFollowing == reply.data && refetch && alert.None?
      ensures reply.Err? ==> isFollowing == old(isFollowing) && !refetch && alert == Some("Error updating follow status")
    {
      if reply.Ok? {
        isFollowing := reply.data;
        refetch := true;
        alert := None;
      } else {
        refetch := false;
        alert := Some("Error updating follow status");
      }
    }
  }
}
