# Noyledge client state, modelled in Dafny

Noyledge is a quiz and social single-page application. Users sign in with a password, through Google, or through CAS single
sign-on. They then browse and take quizzes, follow each other and chat with mutual followers, and administrators moderate
reported questions. This project models the client-side state logic of its React front end:

- the session kept in `localStorage` and in the authentication context (restore, update, logout, token expiry);
- the axios interceptors that attach the bearer token and react to a 401;
- the route guard and the role-based dashboard;
- the sign-in flows (password, sign-up, CAS callback, OAuth role selection);
- the chat pages (optimistic send, mutual-follow candidates, the chat list's relative time);
- the people, profile, followers and following pages (follow toggles, status maps, removal);
- the quiz explorer, quiz attempt and question editor;
- the moderation list of reports, and the analytics duration display.

Each source file is one Dafny module of the same name, and one module `Common` holds what they share: JavaScript
truthiness, `trim`, `filter`, decimal rendering, a key/value map built from a list, and `localStorage`.

How the model is built:

- **Changing state.** A component whose handlers change state is a class. Its fields are the component's state
  variables, and its methods are the handlers.
- **Side effects.** Server answers, `window.confirm`, the clock, the stored user id and the token decoder are method
  parameters. What a handler does to the outside world is returned as a value: the request it sends, the alert it shows,
  the route it navigates to, whether it refetches.
- **The session.** `AuthContext.Session` holds `auth`, `loading` and a `LocalStorage`. Each handler that touches the
  session is proved against a pure snapshot function: `AfterRestore`, `AfterUpdateAuth`, `AfterLogout`, `AfterLogin`,
  `AfterRegister` or `AfterCompletion`. The lemmas then relate those functions to each other. Examples: a login is an
  `updateAuth`; a reload after an `updateAuth` rebuilds the same session; a reload after a logout stays signed out.

## Model

| member | source | states |
|---|---|---|
| Common.Trim | src/components/people/People.js:23 | the result is no longer than the input and neither starts nor ends with JavaScript white space |
| Common.TrimCutsOnlySpace | src/components/people/People.js:23 | the result is an infix of the input, and everything cut from either end is white space |
| Common.TrimEmptyIffAllSpace | src/components/people/People.js:23 | `trim()` is empty exactly when every character is white space |
| Common.TrimIdempotent | src/components/people/People.js:23 | trimming twice is trimming once |
| Common.NatToStringRoundTrip | src/components/chat/ChatWindow.js:62 | reading back the decimal digits of `${n}` gives n, so the rendering is injective |
| Common.Filter | src/components/chat/ChatWindow.js:97 | `filter` keeps exactly the elements satisfying the test, and nothing else |
| Common.FilterIsSubsequence | src/components/chat/ChatWindow.js:97 | `filter` keeps the order of what it keeps |
| Common.FilterAppend | src/components/chat/ChatWindow.js:97 | filtering a concatenation is concatenating the filtered parts |
| Common.RemoveById | src/components/profile/FollowersModal.js:93 | removing by `_id` keeps every other user in order and leaves none with that id |
| Common.RemoveByIdIdempotent | src/components/profile/FollowingModal.js:43 | removing the same id twice is removing it once |
| Common.FindIndex | src/components/chat/ChatList.js:58-61 | `find` gives the first match, and nothing only when no element matches |
| Common.FillMap | src/components/profile/FollowersModal.js:37-40 | the `forEach` that fills a `Map` produces the map the list defines, later entries overriding earlier ones |
| Common.MapOfKeys | src/components/people/People.js:31-35 | the map's keys are exactly the keys of the list's elements |
| Common.MapOfLastWins | src/components/people/People.js:31-35 | an element whose key does not occur later in the list is what the map holds for that key |
| Common.LocalStorage.SetItem | src/context/AuthContext.js:70-72 | `setItem` writes one key and leaves the others |
| Common.LocalStorage.RemoveItem | src/context/AuthContext.js:33-34 | `removeItem` deletes one key and leaves the others |
| Api.BaseUrl | src/utils/api.js:4-9 | the base URL is the environment's URL, or the default host, followed by "/api" |
| Api.BearerFor | src/utils/api.js:15-19 | a header is produced exactly when the stored token is truthy, and it starts with "Bearer " |
| Api.BearerRoundTrip | src/utils/api.js:17 | stripping "Bearer " from the header gives back the token (section 2.1 of RFC 6750) |
| Api.InterceptRequest | src/utils/api.js:13-24 | sets `Authorization` from a truthy token or deletes it, and leaves every other header unchanged |
| Api.InterceptResponse | src/utils/api.js:27-41 | passes the outcome through; on a 401 removes "token" and "userId" and redirects to "/login", except on the login and register pages |
| Api.ServerMessageOr | src/components/auth/Login.js:23 | the server's truthy `message` wins over the fallback text |
| AuthContext.Split | src/context/AuthContext.js:26 | `split` gives at least one part, none containing the separator, and a single part exactly when the separator is absent |
| AuthContext.SplitJoin | src/context/AuthContext.js:26 | joining the parts with the separator gives the string back |
| AuthContext.PayloadSegmentBetweenDots | src/context/AuthContext.js:26 | the decoded segment is the text between the first and the second '.', the payload of section 7.1 of RFC 7515 |
| AuthContext.DecodeToken | src/context/AuthContext.js:26 | a token without '.' never decodes; a token with one decodes to exactly the decoder's reading of its second segment |
| AuthContext.ExpiryBoundary | src/context/AuthContext.js:29-31 | an absent `exp` never expires; a token is still valid at exactly `exp` seconds and expired one millisecond later (section 4.1.4 of RFC 7519) |
| AuthContext.IsExpired | src/context/AuthContext.js:29-31 | only a present, non-zero `exp` can expire, and only once the clock is past `exp` seconds; a clock a whole second past a positive `exp` is expired |
| AuthContext.Initial | src/context/AuthContext.js:8-11 | the context starts with no user, the stored token, and loading |
| AuthContext.AfterRestore | src/context/AuthContext.js:15-66 | a restore ends loading, touches no key but "token" and "userId", and never invents a token |
| AuthContext.AfterUpdateAuth | src/context/AuthContext.js:69-78 | `updateAuth` stores the token, stores the id only when it is truthy, and sets auth to the user and token |
| AuthContext.AfterLogout | src/context/AuthContext.js:81-85 | logout removes both keys and signs out |
| AuthContext.RestoreWithoutToken | src/context/AuthContext.js:17-22 | with no stored token only loading changes |
| AuthContext.RestoreRejectsBadToken | src/context/AuthContext.js:29-37 | an undecodable or expired token wipes both keys and signs out |
| AuthContext.RestoreAcceptsGoodToken | src/context/AuthContext.js:39-53 | a valid unexpired token signs in the payload's user with that token, writing "userId" only when the payload has one |
| AuthContext.RestoreIdempotent | src/context/AuthContext.js:15-66 | restoring twice is restoring once |
| AuthContext.RestoreAfterUpdateAuth | src/context/AuthContext.js:69-78 | after `updateAuth` with a valid token whose payload names the same user, a reload rebuilds the same session |
| AuthContext.RestoreAfterLogout | src/context/AuthContext.js:81-85 | after logout a reload stays signed out |
| AuthContext.Session.RestoreSession | src/context/AuthContext.js:15-66 | the imperative restore with its try/catch/finally yields exactly `AfterRestore` of the prior state |
| AuthContext.Session.UpdateAuth | src/context/AuthContext.js:69-78 | the method yields exactly `AfterUpdateAuth` |
| AuthContext.Session.Logout | src/context/AuthContext.js:81-85 | the method yields exactly `AfterLogout` |
| ProtectedRoute.Guard | src/components/common/ProtectedRoute.js:5-24 | children render exactly when loading is over, a token and a user are present, and the role (if any) matches; otherwise loading, "/login" or "/" in that order |
| ProtectedRoute.GuardPrecedence | src/components/common/ProtectedRoute.js:9-16 | loading wins over everything, and an unauthenticated visitor is sent to "/login" whatever the role |
| ProtectedRoute.SignedOutIsRedirected | src/components/common/ProtectedRoute.js:14-16 | a signed-out visitor is redirected to "/login" |
| App.DashboardFor | src/App.js:37-45 | no user redirects to "/login"; the admin panel is shown exactly for role "admin", the user panel for every other role |
| App.Render | src/App.js:20-29 | unguarded routes render their page directly; a guarded page is reached only past the guard |
| App.AdminPagesNeedAdmin | src/App.js:27-29 | quiz creation, question editing and results render exactly for an authenticated admin |
| App.DashboardBehindGuard | src/App.js:24 | the dashboard shows a loading placeholder, the login redirect or one of the two panels |
| App.QuizNeedsNoRole | src/App.js:23 | "/quiz/:id" shows the attempt page exactly when loading is over and the visitor is authenticated, whatever the role |
| App.ModeratorGetsUserPanel | src/App.js:37-45 | a "moderator" sees the user panel |
| Navbar.ProfileLink | src/components/common/Navbar.js:18 | the profile link is "/profile/" followed by the stored id, or "null" without one |
| Navbar.Links | src/components/common/Navbar.js:25-61 | links show exactly when visible; the reports link exactly for admins; the profile and chat links always |
| Navbar.VisibleIffAuthenticated | src/components/common/Navbar.js:25-27 | the bar shows exactly for an authenticated session |
| Navbar.HandleLogout | src/components/common/Navbar.js:20-23 | logout clears the session and navigates to "/login" |
| Navbar.HiddenAfterLogout | src/components/common/Navbar.js:20-27 | after logout the bar is hidden |
| Login.AfterLogin | src/components/auth/Login.js:14-25 | a login writes "token" and "userId" (as text, even when missing) and sets auth, leaving other keys |
| Login.LoginIsUpdateAuth | src/components/auth/Login.js:17-21 | with both fields present a login is exactly `updateAuth` |
| Login.LoginWithoutIdStoresUndefined | src/components/auth/Login.js:19 | a response without `_id` stores the text "undefined" under "userId" |
| Login.HandleSubmit | src/components/auth/Login.js:14-25 | success yields `AfterLogin` and "/dashboard"; the handler's own failure path writes nothing and alerts the server message or "Login failed" |
| Login.SubmitThroughInterceptor | src/utils/api.js:27-41 | a submit whose answer passes the response interceptor first: a 401 arrives with "token" and "userId" already removed and everything else of the session kept, then alerts; no redirect from "/login"; any other answer behaves as `Login.HandleSubmit` |
| Register.AfterRegister | src/components/auth/Register.js:17-20 | a sign-up writes only "token" and sets auth |
| Register.RegisterKeepsStaleUserId | src/components/auth/Register.js:17-20 | sign-up and login agree on auth and token, but sign-up leaves an earlier session's "userId" in place |
| Register.RegisterForm.constructor | src/components/auth/Register.js:10 | the role starts at "user", the first option |
| Register.RegisterForm.SelectRole | src/components/auth/Register.js:51 | the chosen role is taken and name, email and password stay |
| Register.RegisterForm.HandleSubmit | src/components/auth/Register.js:14-24 | success yields `AfterRegister` and "/dashboard"; failure alerts the server message or "Registration failed" |
| CasCallback.SignedInUser | src/components/auth/CasCallback.js:27-42 | the fetched user when there is one, otherwise the user built from the token's payload |
| CasCallback.HandleCallback | src/components/auth/CasCallback.js:11-50 | an error, a missing token and an undecodable token each redirect to their login error without touching the session; otherwise the profile is requested, the session updated and "/dashboard" reached |
| CasCallback.CallbackSignsIn | src/components/auth/CasCallback.js:27-45 | whatever the profile request did, a decodable token signs the user in |
| CasCallback.ExpiredTokenAcceptedThenWiped | src/components/auth/CasCallback.js:21-24 | the callback does not check `exp`, so an expired token signs in and the next reload signs out |
| CasCallback.FallbackSurvivesReload | src/components/auth/CasCallback.js:36-42 | after a failed profile request, a reload with a valid token rebuilds the same session |
| RoleSelection.Load | src/components/auth/RoleSelection.js:18-42 | a truthy `data` parameter wins and is written back; otherwise the stored copy is parsed; with neither, loading fails with the no-data message; each failure has its message |
| RoleSelection.ReloadReadsWriteBack | src/components/auth/RoleSelection.js:24-33 | assuming as a hypothesis that parsing a non-empty serialized copy gives the data back (as `JSON.parse` of `JSON.stringify` does), a visit that loads the `data` parameter writes a copy, and the next visit without the parameter loads the same data from it |
| RoleSelection.RequestFor | src/components/auth/RoleSelection.js:63-82 | Google and CAS get their bodies with the chosen role, the avatar defaulting to ""; any other provider gets no request |
| RoleSelection.ErrorText | src/components/auth/RoleSelection.js:94-97 | "Error: " then the server message, else the error's message, else "An error occurred" |
| RoleSelection.AfterCompletion | src/components/auth/RoleSelection.js:84-90 | completion removes the stored provider data, stores the token and (when present) the user id, keeps every other stored key, and signs that user in |
| RoleSelection.RoleSelectionPage.LoadUserData | src/components/auth/RoleSelection.js:18-42 | the effect's state and storage writes are exactly what `Load` decides |
| RoleSelection.RoleSelectionPage.SelectRole | src/components/auth/RoleSelection.js:129 | the chosen role is taken; the user data, loading and error stay |
| RoleSelection.RoleSelectionPage.HandleSubmit | src/components/auth/RoleSelection.js:44-101 | no role, then no data, are refused without a request; an unknown provider, a tokenless answer and a rejection each set their error and leave the session; a token completes the sign-in; loading ends on every path that started it |
| ChatWindow.IsOwn | src/components/chat/ChatWindow.js:183-184 | own only with a stored id; never without a sender; a bare sender is own exactly when it is the stored id; a populated sender is own exactly when its `_id` is the stored id, except that a stored id of "[object Object]" matches every populated sender through `toString()` |
| ChatWindow.IsOwnCases | src/components/chat/ChatWindow.js:183-184 | collects named cases of `IsOwn`'s contract: nothing is own without a stored id; a populated or bare sender with the user's id is own; no sender is never own |
| ChatWindow.OtherParticipant | src/components/chat/ChatWindow.js:115-117 | the first participant who is not the current user, and none only when all are |
| ChatWindow.OtherParticipantIsFirst | src/components/chat/ChatWindow.js:115-117 | every participant before the one found is the current user |
| ChatWindow.TempMessage | src/components/chat/ChatWindow.js:57-63 | the temporary message has an id starting "temp-", the current user as sender and the trimmed text |
| ChatWindow.WithoutAppended | src/components/chat/ChatWindow.js:97 | removing the temporary message gives back exactly the list it was appended to |
| ChatWindow.ChatWindowState.BeginSend | src/components/chat/ChatWindow.js:53-68 | a blank input or a send in flight does nothing; otherwise the temporary message goes last, the input clears and sending starts |
| ChatWindow.ChatWindowState.SetInput | src/components/chat/ChatWindow.js:228 | the input takes the typed text; the messages and the sending flag stay |
| ChatWindow.ChatWindowState.FinishSend | src/components/chat/ChatWindow.js:70-112 | `messageData` replaces the temporary message and notifies the parent; a bare 201 refetches; any failure removes it and restores the text, alerting by status (403: mutual follow and refresh); sending always ends |
| ChatWindow.SuccessfulSendAppendsPosted | src/components/chat/ChatWindow.js:76-83 | a successful send with no change in between ends with the server's message last |
| Chat.WithNewMessage | src/components/chat/Chat.js:114-128 | only the chat with that id changes: the message prepended, `lastMessageAt` set |
| Chat.NewMessageCounts | src/components/chat/Chat.js:114-128 | the target chat gains exactly one message |
| Chat.ChatPage.FetchChats | src/components/chat/Chat.js:61-71 | the list is replaced on success, kept on failure; loading ends |
| Chat.ChatPage.UserIdParamEffect | src/components/chat/Chat.js:23-45 | a truthy `userId` parameter, once loading is over and while the marker does not hold it, selects the first chat with that user and clears the marker, or sets the marker and asks to create one; the marker blocks a second request for the same value only until the create answers |
| Chat.ChatPage.FinishStartChat | src/components/chat/Chat.js:90-112 | a created chat is prepended and selected; a 403 or other failure alerts its message |
| Chat.ChatPage.RetryAfterFailedCreate | src/components/chat/Chat.js:23-45 | a found or created chat, or a failed create, clears the marker (Chat.js:99-111), so a later run of the effect with the parameter still present, and still no chat with that user, requests the same chat again |
| Chat.ChatPage.ChatIdEffect | src/components/chat/Chat.js:48-59 | skipped while a `userId` parameter is present; a `chatId` already in the list is selected without a request; a missing one is refetched only once loading is over, and selected only if the fresh list has it |
| Chat.ChatPage.FetchChatById | src/components/chat/Chat.js:73-84 | the list is refreshed and the chat with that id selected when present |
| ChatList.Mutual | src/components/chat/ChatList.js:16-39 | mutual follows are the followers who are also followed, in follower order |
| ChatList.MutualIds | src/components/chat/ChatList.js:16-39 | their ids are the intersection of the two id sets |
| ChatList.MutualIdsSymmetric | src/components/chat/ChatList.js:16-39 | the mutual ids do not depend on which list is filtered |
| ChatList.ChatListState.FetchMutualFollows | src/components/chat/ChatList.js:16-39 | both lists are fetched for the stored id, and the result is `Mutual` of them |
| ChatList.Candidates | src/components/chat/ChatList.js:158-166 | the new-chat candidates are exactly the mutual follows without a chat yet |
| ChatList.NewChatRemovesCandidate | src/components/chat/ChatList.js:158-166 | a new chat with a user removes them from the candidates |
| ChatList.NewMessageIsPreviewed | src/components/chat/ChatList.js:63-69 | after a new message, that chat's preview is that message |
| ChatList.YouPrefixImpliesOwn | src/components/chat/ChatList.js:141 | the "You: " prefix implies the message is own, but a bare-id own message does not get it |
| ChatList.FormatTime | src/components/chat/ChatList.js:71-85 | no timestamp gives no label; otherwise "Just now", minutes, hours, days or a date, by the elapsed time |
| ChatList.FormatTimeMonotone | src/components/chat/ChatList.js:71-85 | an older timestamp never gets a finer label than a newer one |
| People.Params | src/components/people/People.js:22-25 | the sort is always sent; the search only when non-blank, and then trimmed |
| People.ParamsIgnoreSurroundingSpace | src/components/people/People.js:22-25 | surrounding white space does not change the query |
| People.Toggled | src/components/people/People.js:64-77 | a follow adds one follower, an unfollow removes one but never below zero |
| People.ToggledUsers | src/components/people/People.js:64-77 | only users with the target id change |
| People.FollowThenUnfollowRestores | src/components/people/People.js:64-77 | following then unfollowing restores the list |
| People.StatusMapReadsBack | src/components/people/People.js:31-35 | with unique ids, the status map reads back each user's `isFollowing` |
| People.PeoplePage.FetchUsers | src/components/people/People.js:19-42 | users and status map from the answer on success, kept on failure; loading ends |
| People.PeoplePage.HandleFollowToggle | src/components/people/People.js:48-82 | the status entry and the card of the target follow the answer; failure alerts and changes nothing |
| People.ToggleChangesOnlyTarget | src/components/people/People.js:57-61 | only the target's status entry changes |
| Profile.CanChat | src/components/profile/Profile.js:36-45 | chat is possible only for another, signed-in viewer, and then exactly when `isFollowing` holds, the follower count is positive and the viewer is among the profile owner's followers; all three say that the viewer follows them, and nothing checks that they follow the viewer |
| Profile.Seed | src/components/profile/Profile.js:47-51 | the edit form is seeded from the profile with "" defaults and no file |
| Profile.FormParts | src/components/profile/Profile.js:83-94 | name and bio are always sent; a file part exactly when a new avatar file was chosen |
| Profile.SeededFormSendsNoFile | src/components/profile/Profile.js:86-88 | an unchanged form sends no file |
| Profile.ActionsFor | src/components/profile/Profile.js:153-185 | one's own profile offers Edit; another signed-in viewer gets the Follow/Unfollow button, and Chat when `canChat` holds |
| Profile.ChatButtonNeedsCanChat | src/components/profile/Profile.js:153-185 | the chat button is offered only when chat is possible |
| Profile.ProfilePage.FetchProfile | src/components/profile/Profile.js:27-57 | the profile, follow state, chat flag and edit form all come from the answer; loading ends |
| Profile.ProfilePage.HandleEdit | src/components/profile/Profile.js:80-102 | the form is sent; success leaves edit mode and refetches; failure alerts and keeps edit mode; the profile, form, quizzes, follow and chat flags and loading are unchanged |
| Profile.ProfilePage.ChooseAvatar | src/components/profile/Profile.js:213 | the form's avatar becomes the chosen file; every other field of the page stays |
| Profile.ProfilePage.HandleFollowToggle | src/components/profile/Profile.js:63-72 | the follow state follows the answer and the profile is refetched; failure alerts and keeps it; every other field is unchanged |
| FollowersModal.StatusMapMeaning | src/components/profile/FollowersModal.js:33-40 | every follower has a status entry, and an entry holds exactly when the viewer follows that id |
| FollowersModal.StatusMapFor | src/components/profile/FollowersModal.js:27-45 | the status map is empty without a stored id or when the viewer's list cannot be fetched; otherwise every follower has an entry, true exactly when the viewer's following list holds that id |
| FollowersModal.UserClick | src/components/profile/FollowersModal.js:79-84 | one's own entry does nothing; any other opens that profile |
| FollowersModal.OwnEntryInert | src/components/profile/FollowersModal.js:122-160 | one's own entry shows no button and does not navigate; Remove appears only with Follow |
| FollowersModal.FollowersModalState.FetchFollowers | src/components/profile/FollowersModal.js:18-52 | list and `canRemove` from the answer with defaults; the viewer's following list is fetched only with a stored id; loading ends |
| FollowersModal.FollowersModalState.OpenEffect | src/components/profile/FollowersModal.js:54-58 | no request and no change unless open and given a user id; otherwise the requests and the new state are those of `FetchFollowers` on the same answers |
| FollowersModal.FollowersModalState.HandleFollowToggle | src/components/profile/FollowersModal.js:60-77 | only the target's entry takes the answer; failure alerts |
| FollowersModal.FollowersModalState.HandleRemoveFollower | src/components/profile/FollowersModal.js:86-101 | nothing without confirmation; success removes exactly that follower and calls `onUpdate` when given; failure alerts |
| FollowingModal.FollowingModalState.FetchFollowing | src/components/profile/FollowingModal.js:20-31 | list and `canUnfollow` from the answer with defaults [] and false; loading ends |
| FollowingModal.FollowingModalState.OpenEffect | src/components/profile/FollowingModal.js:14-18 | the fetch runs exactly when open and given a user id, and then the new state is that of `FetchFollowing` on the same answer; otherwise nothing changes |
| FollowingModal.FollowingModalState.HandleUnfollow | src/components/profile/FollowingModal.js:33-55 | nothing without confirmation; a falsy `isFollowing` removes exactly that user and calls `onUpdate`; a truthy one refetches; failure alerts the server message or the error's |
| FollowingModal.UnfollowErrorText | src/components/profile/FollowingModal.js:53 | "Error unfollowing user: " then the server message, else the error's own message; without a response always the error's message |
| Explore.QueryParams | src/components/explore/Explore.js:60-68 | page, limit 10 and sort always; search, tags and difficulty exactly when non-empty |
| Explore.ToggleTag | src/components/explore/Explore.js:101-106 | a present tag is removed everywhere, an absent one appended last; no other tag changes |
| Explore.ToggleAbsentTagTwice | src/components/explore/Explore.js:102-106 | toggling an absent tag twice restores the list |
| Explore.Applied | src/components/explore/Explore.js:125-133 | the id is present exactly when the server says so; other ids are unchanged |
| Explore.ExplorePage.FetchSets | src/components/explore/Explore.js:22-46 | the saved ids from the answer; the followed ids only with a stored user id; the list, filters, page and flags are unchanged |
| Explore.ExplorePage.FetchQuizzes | src/components/explore/Explore.js:57-84 | the page is appended or replaces the list; `hasMore` exactly when a full page of 10 came; failure keeps both |
| Explore.ExplorePage.HandleTagToggle | src/components/explore/Explore.js:101-108 | the tags toggle and paging restarts at 1; nothing else changes |
| Explore.ExplorePage.HandleSearch | src/components/explore/Explore.js:96-99 | the search text changes and paging restarts at 1; nothing else changes |
| Explore.ExplorePage.HandleLoadMore | src/components/explore/Explore.js:110-116 | the page advances by one and is requested with the current filters; its quizzes are appended and `hasMore` says whether a full page came; a failure keeps both; loading ends; filters and sets are unchanged |
| Explore.ExplorePage.HandleSaveToggle | src/components/explore/Explore.js:118-138 | the saved set follows the answer; failure alerts and changes nothing; every other field is unchanged |
| Explore.ExplorePage.HandleFollowCreator | src/components/explore/Explore.js:140-160 | the followed set follows the answer; failure alerts and changes nothing; every other field is unchanged |
| QuizAttempt.AnswerFor | src/components/dashboard/QuizAttempt.js:68 | a lookup finds nothing exactly when no entry has that question id |
| QuizAttempt.Select | src/components/dashboard/QuizAttempt.js:27-29 | a new question adds one entry; an answered one keeps the count |
| QuizAttempt.SelectAppendsNew | src/components/dashboard/QuizAttempt.js:27-29 | an unanswered question's entry goes after all existing entries, which stay as they were |
| QuizAttempt.SelectOverwritesFirst | src/components/dashboard/QuizAttempt.js:27-29 | an answered question's first entry takes the new text in place; every other entry keeps its position and content |
| QuizAttempt.SelectReadsBack | src/components/dashboard/QuizAttempt.js:27-29 | after a selection the question reads the chosen text and every other is unchanged |
| QuizAttempt.SelectKeepsUniqueKeys | src/components/dashboard/QuizAttempt.js:27-29 | selections keep one entry per question |
| QuizAttempt.ReselectOverwrites | src/components/dashboard/QuizAttempt.js:28 | choosing again overwrites the earlier choice |
| QuizAttempt.SelectedIsChecked | src/components/dashboard/QuizAttempt.js:68 | the chosen option shows checked and no other option of that question does |
| QuizAttempt.PayloadOf | src/components/dashboard/QuizAttempt.js:32-38 | the payload carries the quiz id and one entry per answer, in order |
| QuizAttempt.PayloadOnePerQuestion | src/components/dashboard/QuizAttempt.js:32-38 | exactly one entry per answered question, carrying its answer, and none for an unanswered one |
| QuizAttempt.QuizAttemptPage.HandleSelect | src/components/dashboard/QuizAttempt.js:27-29 | the chosen option is checked, other answers are unchanged, keys stay unique |
| QuizAttempt.QuizAttemptPage.HandleSubmit | src/components/dashboard/QuizAttempt.js:31-43 | the payload is sent; the result is stored and the page marked submitted only on success |
| AddQuestions.ErrorMessage | src/components/admin/AddQuestions.js:54-58 | with a response: its status and the server message or "Something went wrong"; without: the connection message |
| AddQuestions.ErrorMessagesDistinguishCause | src/components/admin/AddQuestions.js:54-58 | a connection failure never reads like a server error |
| AddQuestions.AddQuestionsForm.constructor | src/components/admin/AddQuestions.js:7-10 | the form starts blank with four empty options and option 0 correct |
| AddQuestions.AddQuestionsForm.HandleOptionChange | src/components/admin/AddQuestions.js:12-16 | only the given option changes and the count stays |
| AddQuestions.AddQuestionsForm.HandleSubmit | src/components/admin/AddQuestions.js:18-60 | without a token only the message changes and nothing is sent; 200 or 201 resets the form; other answers keep it and set their message |
| Reports.ParamsFor | src/components/admin/Reports.js:15 | no status for "all", the filter itself otherwise |
| Reports.Label | src/components/admin/Reports.js:110 | the label is the last six characters of the id, or the whole id when shorter |
| Reports.OnlyPendingOffersActions | src/components/admin/Reports.js:169-177 | Fix, Ignore and Delete only for a pending report not being edited |
| Reports.ReportsPage.FetchReports | src/components/admin/Reports.js:13-23 | the filter's params are sent; the list is replaced on success; loading ends |
| Reports.ReportsPage.SetFilter | src/components/admin/Reports.js:82-102 | the filter becomes the button's status; the reports, the editing target, the form and loading stay |
| Reports.ReportsPage.StartEditingShared | src/components/admin/Reports.js:61-67 | as written: the form is seeded with the text (default "") and the report's own option objects (default []) |
| Reports.ReportsPage.StartEditing | src/components/admin/Reports.js:61-67 | seeded with copies: same texts and flags in fresh objects, so the form shares nothing with any report |
| Reports.CopyOptions | src/components/admin/Reports.js:65 | copies are fresh, pairwise distinct, and carry the same texts and flags |
| Reports.ReportsPage.EditOption | src/components/admin/Reports.js:154-158 | only option `idx`'s object gets the new text; every other option object keeps its text; the reports, filter, loading and editing target are unchanged |
| Reports.ReportsPage.EditQuestionText | src/components/admin/Reports.js:146 | only the form's question text changes; the options, reports, editing target, filter and loading stay |
| Reports.ReportsPage.Cancel | src/components/admin/Reports.js:164 | editing ends and nothing else changes: the form, including the option objects it holds, the reports, filter and loading stay |
| Reports.ReportsPage.HandleFix | src/components/admin/Reports.js:29-39 | the form is sent; success ends editing, refetches and alerts success; failure alerts the error and keeps editing; reports, form, filter and loading are unchanged |
| Reports.HandleIgnore | src/components/admin/Reports.js:41-48 | a refetch exactly on success |
| Reports.HandleDelete | src/components/admin/Reports.js:50-59 | a request exactly when confirmed, and a refetch only after a successful delete |
| Reports.CancelAfterSharedEditShowsEdit | src/components/admin/Reports.js:154-164 | as written, an edit then Cancel changes the report's preview |
| Reports.CancelAfterEditKeepsPreview | src/components/admin/Reports.js:131-139 | with copies, an edit then Cancel leaves the preview unchanged |
| Analytics.ClockOf | src/components/admin/Analytics.js:45-47 | hours, minutes and seconds add back up to the input, with minutes and seconds below 60 |
| Analytics.ClockUnique | src/components/admin/Analytics.js:45-47 | that split is the only one with minutes and seconds below 60 |
| Analytics.FormatTime | src/components/admin/Analytics.js:44 | a falsy or zero input gives "0s" |
| Analytics.FormatTimeRoundTrip | src/components/admin/Analytics.js:43-55 | reading the display back gives the seconds it was made from |
| Analytics.FormatTimeUnits | src/components/admin/Analytics.js:49-54 | hours appear exactly from 3600 s, minutes exactly from 60 s, seconds always |
| Analytics.AverageTimeText | src/components/admin/Analytics.js:83 | an absent average shows as "0s", and the text reads back as the average or 0 |
| Analytics.DistributionNeedsAttempts | src/components/admin/Analytics.js:133 | the distribution panel shows exactly when the attempt count is above zero |

## Left out

- Rendering: JSX, CSS classes, icons and the recharts charts are presentation only. The model keeps only the decisions the
  markup makes: which buttons, links and labels appear.
- HTTP transport: axios, the 10-second timeout and request timing. Each server answer is a method parameter: a body on
  success, or an error with an optional status and message.
- Token decoding: `atob` and `JSON.parse` are a decoder function given as a parameter. `atob` reads standard base64
  (section 4 of RFC 4648), not the URL-safe alphabet that JWTs use (section 5). Some valid tokens therefore take the
  invalid-token branch; the model does not decide which.
- Timers and concurrency: the message polling in the chat window and React's effect scheduling are not modelled.
  Neither are async races: overlapping sends, the fetch fired inside the `setPage` updater, and state read after an
  `await`. Each handler runs to completion on the state it started from. Effects that a dependency change re-runs are
  separate methods, called by whoever changes the dependency.
- Clock and locale: `Date.now()` is an integer millisecond parameter. The expiry test compares `exp * 1000` with it,
  instead of the floating-point `Date.now() / 1000`. `toLocaleString`, `toDateString`, the chat window's message times,
  the final date branch of the chat list's labels and the expiry styling of reports are left out.
- Floating point: the average score's `toFixed(1)` (src/components/profile/Profile.js:227) and the per-quiz percentage `Math.round` (src/components/profile/Profile.js:264) are left out.
- Analytics.FormatTime: works on whole seconds only; fractional seconds from the server are not modelled.
- Browser effects: `window.confirm` is a boolean parameter. `alert`, `navigate` and `onUpdate`/`onClose` callbacks are
  returned values. The chat page's `window.history.replaceState` is its `location` field, and the interceptor's
  assignment to `window.location.href` is its returned redirect, read against a `pathname` parameter. The role-selection
  page's `replaceState`, which only cleans the address bar, and the multipart upload itself are left out.
- Interceptor and handlers: every request's answer passes `Api.InterceptResponse` before the handler sees it. Only
  Login.SubmitThroughInterceptor composes the two. The failure contracts of Register.RegisterForm.HandleSubmit,
  CasCallback.HandleCallback and RoleSelection.RoleSelectionPage.HandleSubmit cover only the handler's own writes: on a
  401 the interceptor has already removed "token" and "userId" before their catch runs.
- Pages whose only logic is fetch-and-render: Home, Dashboard, SavedQuizzes, AdminQuizResults, UserPanel, CreateQuiz,
  AdminPanel and AdminQuizList. Likewise the explorer's category list and the analytics page's five parallel fetches,
  which store the answers as they are.
- Explore.ExplorePage.FetchQuizzes: a successful answer without a `quizzes` array is not modelled. In the source that
  throws inside the handler and only ends loading.
- Response shapes: FollowersModal.FollowersModalState.HandleFollowToggle, People.PeoplePage.HandleFollowToggle,
  Profile.ProfilePage.HandleFollowToggle and the explorer's toggles take the server's flag as a boolean. An answer whose flag is missing, which the source would store
  as `undefined`, is not modelled.
- QuizAttempt.Select: the answers object is its entries in insertion order. JavaScript lists integer-like keys first; the
  server's question ids are never integer-like, so that ordering is not modelled.
- Avatars: `API_BASE_URL` is imported by several pages but not exported by src/utils/api.js, so avatar URLs render with
  an `undefined` prefix. This affects display only and is not modelled.
- The questions fetch of the quiz attempt page and the explorer's categories fetch only store the answer and are left
  out.

## Findings

| source | as written | input that shows it | evidently intended | confidence | as-written member | corrected member |
|---|---|---|---|---|---|---|
| src/components/admin/Reports.js:61-67 | `startEditing` seeds the form with the report's own option objects, and the option field (lines 154-158) writes `optionText` into that shared object | a pending report whose first option reads "A": press Fix, type "B" into the first option, press Cancel; the report's preview now reads "B" although nothing was saved, and pressing Fix again seeds "B" | the form edits copies of the options, so Cancel discards the edit and the list shows the server's text until a fix is saved | not executed; high | Reports.CancelAfterSharedEditShowsEdit | Reports.CancelAfterEditKeepsPreview |
