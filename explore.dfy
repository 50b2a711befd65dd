/**
 * The quiz browser of src/components/explore/Explore.js: the query it sends,
 * paging by append or replace, the tag filter toggle, and the saved-quiz and
 * followed-creator sets that the server's answers update. Server answers
 * are parameters; `alert` is returned as a value.
 */
module Explore {
  import opened Common
  import opened Api

  /** Only the id of a quiz card matters here. */
  datatype Quiz = Quiz(id: string)

  /** The page size the list asks for. */
  const PageSize := 10
  const DefaultSortBy := "date"
  const SaveErrorAlert := "Error saving quiz. Please try again."
  const FollowErrorAlert := "Error following creator. Please try again."

  /** The query of `GET /quizzes/explore`; an absent field is not sent. */
  datatype ExploreParams = ExploreParams(page: int, limit: int, sortBy: string,
                                         search: Option<string>, tags: Option<seq<string>>,
                                         difficulty: Option<string>)

  /** `page`, `limit` and `sortBy` always; the three filters only when non-empty. */
  function QueryParams(pageNum: int, sortBy: string, search: string, tags: seq<string>,
                       difficulty: string): (p: ExploreParams)
    ensures p.page == pageNum && p.limit == PageSize && p.sortBy == sortBy
    ensures p.search.Some? <==> search != ""
    ensures p.search.Some? ==> p.search.value == search
    ensures p.tags.Some? <==> |tags| > 0
    ensures p.tags.Some? ==> p.tags.value == tags
    ensures p.difficulty.Some? <==> difficulty != ""
    ensures p.difficulty.Some? ==> p.difficulty.value == difficulty
  {
    ExploreParams(pageNum, PageSize, sortBy,
                  if search != "" then Some(search) else None,
                  if |tags| > 0 then Some(tags) else None,
                  if difficulty != "" then Some(difficulty) else None)
  }

  /**
   * `handleTagToggle` on the tag list: a present tag is filtered out (every
   * occurrence), an absent one is appended at the end.
   */
  function ToggleTag(tags: seq<string>, tag: string): (r: seq<string>)
    ensures tag in r <==> tag !in tags
    ensures forall i :: 0 <= i < |tags| && tags[i] != tag ==> tags[i] in r
    ensures forall i :: 0 <= i < |r| && r[i] != tag ==> r[i] in tags
    ensures tag !in tags ==> r == tags + [tag]
    ensures tag in tags ==> IsSubsequence(r, tags)
  {
    if tag in tags then
      FilterIsSubsequence(tags, (t: string) => t != tag);
      Filter(tags, (t: string) => t != tag)
    else tags + [tag]
  }

  /** Selecting an absent tag and deselecting it again gives back the original list. */
  lemma ToggleAbsentTagTwice(tags: seq<string>, tag: string)
    requires tag !in tags
    ensures ToggleTag(ToggleTag(tags, tag), tag) == tags
  {
    var keep := (t: string) => t != tag;
    FilterAppend(tags, [tag], keep);
    FilterAllPass(tags, keep);
    assert Filter([tag], keep) == [];
  }

  /**
   * A set entry set from a server boolean: `add` when it holds, `delete`
   * otherwise. Used for both the saved quizzes and the followed creators.
   */
  function Applied(s: set<string>, id: string, present: bool): (r: set<string>)
    ensures id in r <==> present
    ensures forall x :: x != id ==> (x in r <==> x in s)
  {
    if present then s + {id} else s - {id}
  }

  /** Applying the same answer twice changes nothing more; applying the opposite answer undoes a change. */
  lemma AppliedUndo(s: set<string>, id: string, present: bool)
    ensures Applied(Applied(s, id, present), id, present) == Applied(s, id, present)
    ensures (id in s <==> !present) ==> Applied(Applied(s, id, present), id, !present) == s
  {
  }

  /** The page's state. */
  class ExplorePage {
    var quizzes: seq<Quiz>
    var loading: bool
    var search: string
    var selectedTags: seq<string>
    var difficulty: string
    var sortBy: string
    var page: int
    var hasMore: bool
    var savedQuizIds: set<string>
    var followingUserIds: set<string>

    constructor ()
      ensures quizzes == [] && loading && search == "" && selectedTags == [] && difficulty == ""
      ensures sortBy == DefaultSortBy && page == 1 && hasMore
      ensures savedQuizIds == {} && followingUserIds == {}
    {
      quizzes := [];
      loading := true;
      search, selectedTags, difficulty := "", [], "";
      sortBy := DefaultSortBy;
      page := 1;
      hasMore := true;
      savedQuizIds, followingUserIds := {}, {};
    }

    /** The mount effect: the saved ids, and the followed ids when a user id is stored. */
    method FetchSets(store: LocalStorage, saved: Reply<seq<Quiz>>, following: Reply<Option<seq<UserRef>>>)
      returns (requests: seq<string>)
      modifies this
      ensures saved.Ok? ==> savedQuizIds == set i | 0 <= i < |saved.data| :: saved.data[i].id
      ensures saved.Err? ==> savedQuizIds == old(savedQuizIds)
      ensures var uid := store.GetItem(UserIdKey);
        && (Truthy(uid) && following.Ok? ==>
              followingUserIds == set i | 0 <= i < |following.data.GetOr([])| :: following.data.GetOr([])[i].id)
        && (!(Truthy(uid) && following.Ok?) ==> followingUserIds == old(followingUserIds))
        && requests == ["/quizzes/saved"] + (if Truthy(uid) then ["/profile/" + uid.value + "/following"] else [])
      ensures quizzes == old(quizzes) && page == old(page) && selectedTags == old(selectedTags)
      ensures loading == old(loading) && hasMore == old(hasMore)
      ensures search == old(search) && difficulty == old(difficulty) && sortBy == old(sortBy)
    {
      requests := ["/quizzes/saved"];
      if saved.Ok? {
        savedQuizIds := set i | 0 <= i < |saved.data| :: saved.data[i].id;
      }
      var uid := store.GetItem(UserIdKey);
      if Truthy(uid) {
        requests := requests + ["/profile/" + uid.value + "/following"];
        if following.Ok? {
          var list := following.data.GetOr([]);
          followingUserIds := set i | 0 <= i < |list| :: list[i].id;
        }
      }
    }

    /**
     * `fetchQuizzes(pageNum, append)` with the answer's `quizzes`: appended
     * after the list or replacing it; `hasMore` says whether a full page came.
     */
    method FetchQuizzes(pageNum: int, append: bool, reply: Reply<seq<Quiz>>) returns (params: ExploreParams)
      modifies this
      ensures params == QueryParams(pageNum, sortBy, search, selectedTags, difficulty)
      ensures !loading
      ensures reply.Ok? && append ==> quizzes == old(quizzes) + reply.data
      ensures reply.Ok? && !append ==> quizzes == reply.data
      ensures reply.Ok? ==> (hasMore <==> |reply.data| == PageSize)
      ensures reply.Err? ==> quizzes == old(quizzes) && hasMore == old(hasMore)
      ensures search == old(search) && selectedTags == old(selectedTags) && difficulty == old(difficulty)
      ensures sortBy == old(sortBy) && page == old(page)
      ensures savedQuizIds == old(savedQuizIds) && followingUserIds == old(followingUserIds)
    {
      loading := true;
      params := ExploreParams(pageNum, PageSize, sortBy, None, None, None);
      if search != "" {
        params := params.(search := Some(search));
      }
      if |selectedTags| > 0 {
        params := params.(tags := Some(selectedTags));
      }
      if difficulty != "" {
        params := params.(difficulty := Some(difficulty));
      }
      if reply.Ok? {
        if append {
          quizzes := quizzes + reply.data;
        } else {
          quizzes := reply.data;
        }
        hasMore := |reply.data| == PageSize;
      }
      loading := false;
    }

    /** `handleSearch`: the text changes and paging restarts at 1. */
    method HandleSearch(text: string)
      modifies this
      ensures search == text && page == 1
      ensures quizzes == old(quizzes) && selectedTags == old(selectedTags) && difficulty == old(difficulty)
      ensures sortBy == old(sortBy) && hasMore == old(hasMore) && loading == old(loading)
      ensures savedQuizIds == old(savedQuizIds) && followingUserIds == old(followingUserIds)
    {
      search := text;
      page := 1;
    }

    /** `handleTagToggle`: the tag list toggles and paging restarts at 1. */
    method HandleTagToggle(tag: string)
      modifies this
      ensures selectedTags == ToggleTag(old(selectedTags), tag) && page == 1
      ensures quizzes == old(quizzes) && search == old(search) && difficulty == old(difficulty)
      ensures sortBy == old(sortBy) && hasMore == old(hasMore) && loading == old(loading)
      ensures savedQuizIds == old(savedQuizIds) && followingUserIds == old(followingUserIds)
    {
      selectedTags := ToggleTag(selectedTags, tag);
      page := 1;
    }

    /** `handleLoadMore`: the next page, fetched in append mode. */
    method HandleLoadMore(reply: Reply<seq<Quiz>>) returns (params: ExploreParams)
      modifies this
      ensures page == old(page) + 1
      ensures params == QueryParams(page, sortBy, search, selectedTags, difficulty)
      ensures !loading
      ensures reply.Ok? ==> quizzes == old(quizzes) + reply.data && (hasMore <==> |reply.data| == PageSize)
      ensures reply.Err? ==> quizzes == old(quizzes) && hasMore == old(hasMore)
      ensures search == old(search) && selectedTags == old(selectedTags) && difficulty == old(difficulty)
      ensures sortBy == old(sortBy)
      ensures savedQuizIds == old(savedQuizIds) && followingUserIds == old(followingUserIds)
    {
      page := page + 1;
      params := FetchQuizzes(page, true, reply);
    }

    /** `handleSaveToggle`: the answer's `saved` flag decides the quiz's membership. */
    method HandleSaveToggle(quizId: string, reply: Reply<bool>) returns (alert: Option<string>)
      modifies this
      ensures reply.Ok? ==> savedQuizIds == Applied(old(savedQuizIds), quizId, reply.data) && alert.None?
      ensures reply.Err? ==> savedQuizIds == old(savedQuizIds) && alert == Some(SaveErrorAlert)
      ensures followingUserIds == old(followingUserIds) && quizzes == old(quizzes) && page == old(page)
      ensures search == old(search) && selectedTags == old(selectedTags) && difficulty == old(difficulty)
      ensures sortBy == old(sortBy) && hasMore == old(hasMore) && loading == old(loading)
    {
      alert := None;
      match reply {
        case Ok(isSaved) =>
          var next := savedQuizIds;
          if isSaved {
            next := next + {quizId};
          } else {
            next := next - {quizId};
          }
          savedQuizIds := next;
        case Err(_) =>
          alert := Some(SaveErrorAlert);
      }
    }

    /** `handleFollowCreator`: the answer's `isFollowing` flag decides the creator's membership. */
    method HandleFollowCreator(creatorId: string, reply: Reply<bool>) returns (alert: Option<string>)
      modifies this
      ensures reply.Ok? ==> followingUserIds == Applied(old(followingUserIds), creatorId, reply.data) && alert.None?
      ensures reply.Err? ==> followingUserIds == old(followingUserIds) && alert == Some(FollowErrorAlert)
      ensures savedQuizIds == old(savedQuizIds) && quizzes == old(quizzes) && page == old(page)
      ensures search == old(search) && selectedTags == old(selectedTags) && difficulty == old(difficulty)
      ensures sortBy == old(sortBy) && hasMore == old(hasMore) && loading == old(loading)
    {
      alert := None;
      match reply {
        case Ok(isFollowing) =>
          var next := followingUserIds;
          if isFollowing {
            next := next + {creatorId};
          } else {
            next := next - {creatorId};
          }
          followingUserIds := next;
        case Err(_) =>
          alert := Some(FollowErrorAlert);
      }
    }
  }
}
