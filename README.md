# videocave: a verified model of the domain rules

videocave is a video-sharing application: an Express/Mongoose REST backend
(channels, videos, playlists, subscriptions, watch history) and a React
frontend. This project models, in Dafny, the parts of it that carry real
rules:

- **Backend controllers** (`video.controller.js`, `playlist.controller.js`,
  `subscription.controller.js`). The MongoDB collections are sequences of
  documents inside a store object, `Models.Db`, and each handler is a method
  that changes that store. The methods are proved against pure functions:
  - the guard chains, with each error's status and message;
  - the watch-history move-to-front;
  - the `$pull` of a video id;
  - the subscription toggle;
  - the `$match`/`$sort`/`$skip`/`$limit` stages;
  - the group-by-newest rule for the latest videos of followed channels.

  Route ids reach the handlers already classified as missing, rejected by
  `isValidObjectId`, or well formed (`Models.PathId`).
- **The authentication slice** (`authSlice.ts`). The Redux state and its
  copy in `localStorage` are a class with the two reducers. The initial
  state read at page load is a function of the stored text.
- **The form validators**: the registration, profile, login and
  video-upload forms, plus what each submit handler does. zod and
  react-hook-form rules become issue lists in schema order. JavaScript
  truthiness, `typeof`, property access, object spread, template text and
  UTF-16 string length are modelled in `JsModel`.

Where the code and the project's own design description disagree, the model
follows the code:
- **Playlist contents.** A playlist is described as holding only published,
  existing videos. The code checks this only when a video is added; later
  unpublishing or deleting the video leaves it listed.
- **Toggling a subscription twice.** It is described as restoring the
  original rows. It does so exactly when the row was absent. When the row
  was present, the recreated row is appended at the end, so the rows match
  only up to order (`SubscriptionController.ToggleTwiceRestores`).
- **`sortBy=popular` on the listing.** It is described as ordering
  `GET /videos` by views. `getAllVideos` actually sorts on the field named
  by `sortBy`, so `popular` sorts on a field no video has. The model takes
  `sortBy` as one of the sortable fields; the `popular` keyword exists only
  in `getPublishedVideosByChannel`.

## Model

| member | source | states |
|---|---|---|
| Models.IndexOf | backend/src/controllers/video.controller.js:170-172 | `findIndex`: -1 exactly when absent; otherwise the first position holding the id |
| Models.RemoveAt | backend/src/controllers/video.controller.js:174 | `splice(i, 1)`: one element shorter; the elements before `i` stay in place and those after shift down by one |
| Models.WithoutMembership | backend/src/controllers/playlist.controller.js:327-331 | `$pull` leaves no occurrence of the id, keeps every other element, and never lengthens the array |
| Models.WithoutAbsent | backend/src/controllers/playlist.controller.js:327-331 | pulling an id that is not listed changes nothing |
| Models.Find | backend/src/controllers/video.controller.js:451 | `findById`: the first document with that `_id`, and `None` exactly when no document has it |
| Models.FindUnique | backend/src/controllers/video.controller.js:451 | in a collection with unique ids, each document is found at its own position |
| Models.RemoveDoc | backend/src/controllers/video.controller.js:477 | deleting a document keeps the other ids unique, and its own id then finds nothing |
| Aggregation.MatchDocs | backend/src/controllers/video.controller.js:224-233 | `$match` output: only documents meeting the condition, each kept exactly as many times as in the input |
| Aggregation.Compare | backend/src/controllers/video.controller.js:647-649 | `$sort` comparison: a three-way result |
| Aggregation.CompareAntisymmetric | backend/src/controllers/video.controller.js:647-649 | swapping the operands negates the comparison |
| Aggregation.SingleKeyOrder | backend/src/controllers/video.controller.js:239-247 | `{field: 1}` orders by the field ascending; `{field: -1}` orders it descending |
| Aggregation.TwoKeyOrder | backend/src/controllers/video.controller.js:302-305 | with two keys, the second key only breaks ties of the first |
| Aggregation.Insert | backend/src/controllers/video.controller.js:647-649 | inserting into a sorted sequence keeps it sorted and adds exactly that document |
| Aggregation.SortDocs | backend/src/controllers/video.controller.js:647-649 | `$sort` output is sorted under the keys and is a permutation of the input |
| Aggregation.SkipLimit | backend/src/controllers/video.controller.js:651-656 | `$skip (p-1)·l`, `$limit l`: fails unless p ≥ 1 and l ≥ 1; at most l items; item k is input item (p-1)·l+k; exact length of a partial last page; empty past the end |
| Aggregation.TotalPages | backend/src/controllers/video.controller.js:669 | `Math.ceil(total/limit)`: the pages cover every item, and the last page is non-empty |
| Aggregation.Paginate | backend/src/controllers/video.controller.js:659-671 | listing body: the current page, the total, the ceil total pages and the page's items |
| Aggregation.ItemOnItsPage | backend/src/controllers/video.controller.js:652-655 | every item is on page ⌊index/l⌋+1, at offset index mod l, and that page is at most totalPages |
| Aggregation.PageOfSorted | backend/src/controllers/video.controller.js:646-656 | a page of a sorted listing is sorted and holds only listed documents |
| Aggregation.PageBeyondLastIsEmpty | backend/src/controllers/video.controller.js:652-669 | a page past totalPages is empty |
| VideoController.MoveToFront | backend/src/controllers/video.controller.js:170-177 | after viewing, the first entry is the video; the length is unchanged if the video was already there, otherwise one longer; no other id appears or disappears |
| VideoController.MoveToFrontKeepsOthersInOrder | backend/src/controllers/video.controller.js:170-177 | every other entry keeps its relative order |
| VideoController.MoveToFrontOfDuplicateFree | backend/src/controllers/video.controller.js:170-177 | on a duplicate-free history, the result is the video followed by the other entries in order |
| VideoController.MoveToFrontNoDup | backend/src/controllers/video.controller.js:170-177 | a duplicate-free history stays duplicate-free |
| VideoController.MoveToFrontIdempotent | backend/src/controllers/video.controller.js:170-177 | viewing the same video twice in a row leaves the history as the first view did |
| VideoController.WithViewCounted | backend/src/controllers/video.controller.js:79-82 | `$inc views` keeps every document's id and position |
| VideoController.GetVideoById | backend/src/controllers/video.controller.js:68-209 | the two 400 id errors leave the store unchanged; a well-formed id counts a view and updates the requester's history, even for a missing video; 500 when the requester is gone |
| VideoController.LastSegment | backend/src/controllers/video.controller.js:471 | `split("/").pop()` contains no separator |
| VideoController.LastSegmentIsSuffix | backend/src/controllers/video.controller.js:471 | `pop()` returns a suffix of the URL, preceded by a separator when shorter than the URL |
| VideoController.FirstSegment | backend/src/controllers/video.controller.js:471 | `split(".")[0]` contains no separator |
| VideoController.FirstSegmentIsPrefix | backend/src/controllers/video.controller.js:471 | `[0]` returns a prefix of the input, followed by a separator when shorter than the input |
| VideoController.PublicId | backend/src/controllers/video.controller.js:471-472 | the public id contains neither `/` nor `.` |
| VideoController.LastSegmentAfterSeparator | backend/src/controllers/video.controller.js:471 | the text after the last `/` is what `pop()` returns |
| VideoController.FirstSegmentBeforeSeparator | backend/src/controllers/video.controller.js:471 | the text before the first `.` is what `[0]` returns |
| VideoController.PublicIdOfUploadUrl | backend/src/controllers/video.controller.js:471-472 | `…/<name>.<ext>` yields `<name>` |
| VideoController.DeleteVideo | backend/src/controllers/video.controller.js:439-486 | 400 when the id is missing or malformed; 400 "already deleted" when absent; 401 for a non-owner (ids compared as strings); every error leaves the store unchanged; only the owner removes the video, which is then unfindable; the HTTP answer's data is `{}`, and the result is the pair of public ids handed to `deleteFromCloudinary` |
| VideoController.WithPublishToggled | backend/src/controllers/video.controller.js:715 | only the `isPublished` flag of that video changes, and it is negated |
| VideoController.ToggleTwiceRestores | backend/src/controllers/video.controller.js:715-717 | toggling twice restores the collection |
| VideoController.TogglePublishStatus | backend/src/controllers/video.controller.js:696-722 | the id errors, then 400 for an absent video; otherwise only that flag is negated, and no ownership check is made |
| VideoController.PublishVideo | backend/src/controllers/video.controller.js:14-66 | the four errors in order (empty title or description; missing files; video upload failed; thumbnail upload failed); on success the new video belongs to the requester and carries the upload URLs and duration |
| VideoController.ChannelPipeline | backend/src/controllers/video.controller.js:223-251 | owner and published `$match`, then `createdAt` -1 for latest, +1 for oldest, `views` -1 for popular; any other `sortBy` throws "Invalid sortBy value: …" |
| VideoController.ChannelPipelineResult | backend/src/controllers/video.controller.js:223-265 | the pipeline returns exactly the channel's published videos, each as often as stored, sorted by the chosen key |
| VideoController.SortedBySingleKey | backend/src/controllers/video.controller.js:237-248 | a single-key sort orders neighbours by that field |
| VideoController.GetPublishedVideosByChannel | backend/src/controllers/video.controller.js:211-282 | id errors; the sort keyword error; succeeds exactly for a well-formed id with `latest`, `oldest` or `popular`; only the owner's published videos, all of them; newest first, oldest first or most viewed first |
| VideoController.GetVideosDataByChannel | backend/src/controllers/video.controller.js:284-306 | all of the channel's videos, unpublished before published, newest first within each group |
| VideoController.GetAllVideos | backend/src/controllers/video.controller.js:609-674 | defaults `createdAt`/-1/page 1/limit 100; the page is the `$skip`/`$limit` window (items (p-1)·l onwards) of some sorted arrangement of exactly the published videos; totals over all published videos with ceil pages; a database error for a bad direction, page or limit |
| VideoController.SearchVideosPage | backend/src/controllers/video.controller.js:586-601 | search paging defaults to page 1 of 10; item k is match (p-1)·l+k; ceil total pages |
| PlaylistController.AuthorizedOwner | backend/src/controllers/playlist.controller.js:8-12 | holds exactly when the two ids print the same |
| PlaylistController.CreatePlaylist | backend/src/controllers/playlist.controller.js:14-40 | 400 unless both name and description are truthy; otherwise a new empty playlist owned by the requester is appended |
| PlaylistController.RouteIds | backend/src/controllers/playlist.controller.js:203-209 | the "not provided" error when either id is missing, then "Invalid" when either is malformed |
| PlaylistController.AddVideoCheck | backend/src/controllers/playlist.controller.js:200-245 | succeeds exactly when the ids are well formed, the playlist exists and is the requester's, the video is not yet listed, and the video exists and is published; the first failing check's status and message otherwise |
| PlaylistController.AddVideoToPlaylist | backend/src/controllers/playlist.controller.js:200-266 | on success the video id is appended at the end and nothing else changes; on every rejection the store is unchanged |
| PlaylistController.AddKeepsNoDup | backend/src/controllers/playlist.controller.js:224-253 | thanks to the "already part" guard, a duplicate-free playlist stays duplicate-free |
| PlaylistController.AddThenRemoveRestores | backend/src/controllers/playlist.controller.js:250-328 | `$pull` after `$push` of an unlisted id restores the list |
| PlaylistController.RemoveVideoCheck | backend/src/controllers/playlist.controller.js:268-323 | the add checks up to ownership, then 400 "This video is not part of this playlist" |
| PlaylistController.RemoveVideoFromPlaylist | backend/src/controllers/playlist.controller.js:268-340 | on success every occurrence is pulled and the rest keep their order; on rejection nothing changes |
| PlaylistController.OwnedPlaylistCheck | backend/src/controllers/playlist.controller.js:347-363 | the missing/invalid id errors, "doesn't exist", then 401 for a non-owner |
| PlaylistController.Renamed | backend/src/controllers/playlist.controller.js:371-378 | each given field is replaced, each absent one kept; owner and videos are untouched |
| PlaylistController.RenameIdempotent | backend/src/controllers/playlist.controller.js:371-378 | sending the same update twice equals sending it once |
| PlaylistController.UpdatePlaylist | backend/src/controllers/playlist.controller.js:342-395 | the ownership checks, then 400 unless name or description is truthy; only the owner's request changes the playlist |
| PlaylistController.DeletePlaylist | backend/src/controllers/playlist.controller.js:397-432 | the ownership checks; a non-owner leaves the playlist in place; the owner's delete makes the id unfindable |
| PlaylistController.ResolveSound | backend/src/controllers/playlist.controller.js:66-78 | the listed ids are looked up: at most one video per listed id, each an existing video whose id is listed; ids with no video drop out |
| PlaylistController.ResolveComplete | backend/src/controllers/playlist.controller.js:66-78 | every existing listed video appears |
| PlaylistController.ResolveConcat | backend/src/controllers/playlist.controller.js:66-88 | the videos come out in the order of the playlist's list |
| PlaylistController.ResolveCount | backend/src/controllers/playlist.controller.js:66-88 | with unique video ids, each existing video appears as many times as its id is listed |
| PlaylistController.UserPlaylists | backend/src/controllers/playlist.controller.js:59-99 | exactly the owner's playlists that resolve to at least one video, each with its resolved videos |
| PlaylistController.UserPlaylistsDistinct | backend/src/controllers/playlist.controller.js:79-89 | `$group` by `_id`: with unique playlist ids, no playlist appears twice in the listing |
| PlaylistController.GetUserPlaylists | backend/src/controllers/playlist.controller.js:42-110 | the id errors; 401 unless the user is the requester; otherwise the listing, each playlist once |
| SubscriptionController.Toggled | backend/src/controllers/subscription.controller.js:33-56 | an existing row for the pair is deleted, otherwise the pair is appended |
| SubscriptionController.ToggleKeepsOtherRows | backend/src/controllers/subscription.controller.js:30-36 | rows for any other pair are untouched |
| SubscriptionController.ToggleFlips | backend/src/controllers/subscription.controller.js:33-56 | a toggle flips whether the pair is subscribed, and at most one row per pair is kept |
| SubscriptionController.ToggleTwiceRestores | backend/src/controllers/subscription.controller.js:33-68 | two toggles restore the rows: exactly when the pair was absent, up to order when it was present |
| SubscriptionController.ChannelCheck | backend/src/controllers/subscription.controller.js:11-26 | "channeId is missing", then `<id> is not a valid channel id`, then `channel Id <id> is not available in DB`, in that order; passes exactly for the id of an existing user |
| SubscriptionController.ToggleSubscription | backend/src/controllers/subscription.controller.js:8-69 | the errors are exactly `ChannelCheck`'s and leave the rows unchanged; otherwise "Subscription removed successfully" after deleting, or "Subscription added successfully" after creating |
| SubscriptionController.SubscribersOf | backend/src/controllers/subscription.controller.js:91-104 | no longer than the rows; a user is listed exactly when they follow the channel |
| SubscriptionController.SubscribersOfRows | backend/src/controllers/subscription.controller.js:91-104 | one entry per row: each user appears as many times as there are rows of them following the channel |
| SubscriptionController.ChannelsOf | backend/src/controllers/subscription.controller.js:172-185 | no longer than the rows; a channel is listed exactly when it is followed |
| SubscriptionController.ChannelsOfRows | backend/src/controllers/subscription.controller.js:172-185 | one entry per row: each channel appears as many times as there are rows of the subscriber following it |
| SubscriptionController.ToggleCount | backend/src/controllers/subscription.controller.js:33-127 | a toggle moves that channel's subscriber total by exactly one and leaves every other channel's total alone |
| SubscriptionController.UsersAmong | backend/src/controllers/subscription.controller.js:105-122 | `$lookup` on an id array: exactly the users listed, each once |
| SubscriptionController.UsersAmongFitsRows | backend/src/controllers/subscription.controller.js:105-127 | the looked-up users never outnumber the rows |
| SubscriptionController.SubscribersListing | backend/src/controllers/subscription.controller.js:91-149 | `totalSubscribers` is the length of `SubscribersOf`, hence the channel's row count by `SubscribersOfRows`, 0 with an empty list when there are none; the list is exactly the subscribers' profiles |
| SubscriptionController.GetChannelSubscribers | backend/src/controllers/subscription.controller.js:71-153 | the id errors, then the listing for an existing channel |
| SubscriptionController.SubscriptionsListing | backend/src/controllers/subscription.controller.js:172-231 | `totalSubscribedChannels` is the length of `ChannelsOf`, hence the subscriber's row count by `ChannelsOfRows`, 0 with an empty list when there are none; the list is exactly the followed channels |
| SubscriptionController.SubscriberCheck | backend/src/controllers/subscription.controller.js:158-170 | "Subscriber Id is missing", "Invlaid  Subscriber ID", "Subscriber doesn't exist in DB", in that order |
| SubscriptionController.GetUserSubscriptions | backend/src/controllers/subscription.controller.js:155-235 | the subscriber checks, then the listing |
| SubscriptionController.Distinct | backend/src/controllers/subscription.controller.js:327-328 | `$group` by channel: each channel once, the same channels |
| SubscriptionController.Newest | backend/src/controllers/subscription.controller.js:321-331 | `$sort createdAt -1` then `$first`: a video of the group that no other video of the group is newer than |
| SubscriptionController.LatestPerChannel | backend/src/controllers/subscription.controller.js:267-331 | each entry is a video of one of the channels, and is the newest of its channel |
| SubscriptionController.LatestPerChannelCovers | backend/src/controllers/subscription.controller.js:318-331 | every channel that owns a video is represented |
| SubscriptionController.LatestPerChannelDistinct | backend/src/controllers/subscription.controller.js:327-331 | no channel is represented twice |
| SubscriptionController.LatestVideos | backend/src/controllers/subscription.controller.js:255-365 | only newest videos of followed channels; `[]` with no subscriptions |
| SubscriptionController.LatestVideosComplete | backend/src/controllers/subscription.controller.js:255-365 | one entry per followed channel that owns a video, none for the others |
| SubscriptionController.GetLatestVideoFromSubscribedChannels | backend/src/controllers/subscription.controller.js:237-370 | the subscriber checks, then the latest-video list |
| JsModel.Get | frontend/src/components/LoginForm.tsx:28-32 | guarded or optional-chained property access: `undefined` on a non-object; otherwise the value stored under that key (plain access on `null`/`undefined` throws and is handled by the callers) |
| JsModel.Spread | frontend/src/components/LoginForm.tsx:60 | `{...v}` is always an object: a copy of an object, `{}` for `undefined`, `null` and other falsy primitives |
| JsModel.Utf16Length | frontend/src/components/RegisterForm.tsx:21 | `length` counts UTF-16 code units: between one and two per character |
| JsModel.Check | frontend/src/components/RegisterForm.tsx:19-38 | one zod check: no issue exactly when it holds |
| JsModel.ErrorToastText | frontend/src/components/LoginForm.tsx:68 | `${err?.data?.error}` is the server's message when it is a string, and "undefined" when there is no `data` |
| AuthSlice.ReadKey | frontend/src/slices/authSlice.ts:5-6 | a missing key parses to `null`; parsing throws exactly on the stored text "undefined" |
| AuthSlice.Or | frontend/src/slices/authSlice.ts:5-6 | `a \|\| b` picks `a` when truthy, else `b` |
| AuthSlice.InitialState | frontend/src/slices/authSlice.ts:4-7 | `user` is the stored user or `null`; `isLoggedIn` is the stored status or `false`; empty storage gives the logged-out state; loading fails when either key throws |
| AuthSlice.SetUserCredentialsStep | frontend/src/slices/authSlice.ts:13-19 | logged in with the payload as user; both keys written; every other key untouched |
| AuthSlice.LogoutUserStep | frontend/src/slices/authSlice.ts:21-26 | logged out with a `null` user; only `loginStatus` removed |
| AuthSlice.AuthStore.SetUserCredentials | frontend/src/slices/authSlice.ts:13-19 | the store's state and storage become what `SetUserCredentialsStep` gives |
| AuthSlice.AuthStore.LogoutUser | frontend/src/slices/authSlice.ts:21-26 | the store's state and storage become what `LogoutUserStep` gives |
| AuthSlice.Load | frontend/src/slices/authSlice.ts:4-11 | the store starts from `InitialState`; loading fails exactly when that throws |
| AuthSlice.NormalizeSafe | frontend/src/slices/authSlice.ts:4-18 | a value with no `undefined` inside survives the `JSON.stringify`/`JSON.parse` round trip unchanged |
| AuthSlice.ReloadAfterSetUserCredentials | frontend/src/slices/authSlice.ts:4-18 | reloading after login gives `isLoggedIn` true and the payload as JSON returns it (or `null` when falsy); an `undefined` payload makes the reload throw |
| AuthSlice.ReloadReproducesLogin | frontend/src/slices/authSlice.ts:4-18 | for a JSON object, array or `null` payload, reloading reproduces exactly the logged-in state |
| AuthSlice.ReloadAfterLogout | frontend/src/slices/authSlice.ts:4-25 | after logout a reload reads `isLoggedIn` false but still reads the stored user |
| AuthSlice.LogoutThenReloadRestoresUser | frontend/src/slices/authSlice.ts:4-26 | login then logout leaves `user` null in memory, yet a reload brings the user object back with `isLoggedIn` false |
| AuthSlice.SetUserCredentialsIdempotent | frontend/src/slices/authSlice.ts:13-19 | applying `setUserCredentials` twice equals applying it once |
| AuthSlice.LogoutUserIdempotent | frontend/src/slices/authSlice.ts:21-26 | applying `logoutUser` twice equals applying it once |
| RegisterForm.FullNameIssues | frontend/src/components/RegisterForm.tsx:19-26 | no issue exactly for 3 to 50 characters of letters and white space; each message appears exactly when its check fails |
| RegisterForm.PasswordIssues | frontend/src/components/RegisterForm.tsx:29-38 | no issue exactly for at least 8 characters with an uppercase letter, a lowercase letter, a digit and a listed special character; every issue is on `password` |
| RegisterForm.PasswordIssueMessages | frontend/src/components/RegisterForm.tsx:29-38 | each of the five messages appears exactly when its check fails |
| RegisterForm.RegisterIssues | frontend/src/components/RegisterForm.tsx:17-44 | the form passes exactly when the name, the email, the password and the confirmation all pass; a mismatch puts "Passwords must match" on `confirmPassword`, last |
| RegisterForm.NameLengthIsCharCount | frontend/src/components/RegisterForm.tsx:21-26 | a name of letters and white space has a `length` equal to its character count |
| RegisterForm.AcceptedFullNameLength | frontend/src/components/RegisterForm.tsx:19-26 | an accepted name has 3 to 50 characters |
| RegisterForm.OnRegisterSubmit | frontend/src/components/RegisterForm.tsx:67-85 | success: toast, submitted email recorded, modal opened; failure: only the error toast |
| RegisterForm.Submit | frontend/src/components/RegisterForm.tsx:56-67 | the handler runs only when the schema reports no issue |
| RegisterForm.ModalOpensOnlyAfterRegistration | frontend/src/components/RegisterForm.tsx:67-85 | the modal opens exactly after a valid submission the server accepted, and then shows the submitted email |
| ProfileForm.FileIssues | frontend/src/components/UpdateUserProfile.tsx:18-32 | a required file that is absent gives "File is required"; an absent optional file passes; a present file passes exactly when its type is JPEG, PNG or GIF |
| ProfileForm.UserNameIssues | frontend/src/components/UpdateUserProfile.tsx:35-42 | no issue exactly for 2 to 30 letters, digits or underscores; each message appears exactly when its check fails |
| ProfileForm.UserNameLengthIsCharCount | frontend/src/components/UpdateUserProfile.tsx:37-42 | a user name of allowed characters has a `length` equal to its character count |
| ProfileForm.ProfileIssues | frontend/src/components/UpdateUserProfile.tsx:34-45 | the form passes exactly when the user name, a present avatar of an allowed type, and an absent or allowed cover image all pass; an absent avatar is reported; an absent cover image never is |
| ProfileForm.MimeWhitelist | frontend/src/components/UpdateUserProfile.tsx:18-32 | a supplied file passes exactly when its type is one of the three listed |
| LoginForm.IsErrorResponseShape | frontend/src/components/LoginForm.tsx:25-34 | `isErrorReponse` holds exactly for an object with a numeric `status` and an object `data` whose `error`, `success` and `errors` are a string, a boolean and an array |
| LoginForm.LoginIssues | frontend/src/components/LoginForm.tsx:36-53 | passes exactly with a valid email and a password of at least 8 characters; a password never typed is "Required" |
| LoginForm.Caught | frontend/src/components/LoginForm.tsx:65-70 | the `catch` clause: nothing dispatched, no navigation, and a toast with the server's message exactly for an `isErrorReponse` error |
| LoginForm.OnLoginSubmit | frontend/src/components/LoginForm.tsx:56-71 | a non-null response dispatches a copy of the response's user (always an object), shows the success toast and navigates to "/"; a `null`/`undefined` response throws at `response.data` and does nothing; failure toasts the server's message only for an `isErrorReponse` error |
| LoginForm.Submit | frontend/src/components/LoginForm.tsx:48-56 | nothing happens unless the schema reports no issue |
| LoginForm.LoginSurvivesReload | frontend/src/components/LoginForm.tsx:60 | after a login that dispatched (any non-null response), a reload never throws: it reads `isLoggedIn` true and the dispatched user |
| VideoUploadModal.SizeProperty | frontend/src/components/VideoUploadModal.tsx:46-49 | a `FileList` has no `size`; a `File` has its byte size |
| VideoUploadModal.SizeRule | frontend/src/components/VideoUploadModal.tsx:190-194 | the callback reports its message exactly when the value has a numeric `size` above the limit |
| VideoUploadModal.FileRuleAsWritten | frontend/src/components/VideoUploadModal.tsx:188-194 | as written: "required" exactly for an empty `FileList`, and nothing else is ever reported |
| VideoUploadModal.AsWrittenSizeLimitNeverFires | frontend/src/components/VideoUploadModal.tsx:190-216 | as written, any chosen file passes whatever its size |
| VideoUploadModal.OversizedVideoPassesAsWritten | frontend/src/components/VideoUploadModal.tsx:190-194 | a 200 MiB video passes the 100 MiB rule as written |
| VideoUploadModal.FileRule | frontend/src/components/VideoUploadModal.tsx:188-216 | a chosen file passes exactly when its size is at most the limit; no file gives the required message |
| VideoUploadModal.TextRule | frontend/src/components/VideoUploadModal.tsx:155-172 | `required`: only the empty string fails |
| VideoUploadModal.UploadIssuesAsWritten | frontend/src/components/VideoUploadModal.tsx:155-217 | as written: passes exactly when title and description are non-empty and a video and a thumbnail are chosen, whatever their sizes |
| VideoUploadModal.OversizedUploadAcceptedAsWritten | frontend/src/components/VideoUploadModal.tsx:155-217 | as written, a form with a 200 MiB video reports no error, though the intended rules report it as too large |
| VideoUploadModal.UploadIssues | frontend/src/components/VideoUploadModal.tsx:155-217 | as intended (corrected half of ## Findings): passes exactly when title and description are non-empty, a video of at most 100·1024·1024 bytes and a thumbnail of at most 6·1024·1024 bytes are chosen; an oversize file is reported |
| VideoUploadModal.IntendedRulesAddSizeLimits | frontend/src/components/VideoUploadModal.tsx:190-216 | as intended, a form passes exactly when it passes as written and both files are within their limits |
| VideoUploadModal.SizeLimitBoundaries | frontend/src/components/VideoUploadModal.tsx:190-216 | as intended (corrected half of ## Findings): sizes exactly at the limits pass; one byte more is refused |
| VideoUploadModal.ProgressAfter | frontend/src/components/VideoUploadModal.tsx:68 | the progress shown is the latest progress event's value |
| VideoUploadModal.UploadModal.HandleFormSubmit | frontend/src/components/VideoUploadModal.tsx:45-80 | records the title and thumbnail preview; follows the progress events; a successful response sets progress to 100 with a toast; a failed request toasts the error and hides the progress view; a `null`/`undefined` response throws at `response.success`, toasts "undefined" and hides the progress view |
| VideoUploadModal.UploadModal.Submit | frontend/src/components/VideoUploadModal.tsx:147 | as written: the handler runs exactly when no field reports an error under the rules as written, so an oversize file is uploaded; a successful response then sets progress to 100 and toasts success |
| VideoUploadModal.UploadModal.SubmitIntended | frontend/src/components/VideoUploadModal.tsx:147 | as intended (corrected half of ## Findings): the handler runs only when the files are also within the size limits |

## Left out

- Cloudinary uploads and deletes, Mongoose and MongoDB themselves, HTTP envelopes and the Express error middleware. The upload results are parameters of `PublishVideo`; any database failure is one `DatabaseError`.
- `isValidObjectId` is not modelled; route ids arrive already classified. Ids compare as their hex text, so two spellings of the same id (upper/lower case) are not modelled.
- Fields the pipelines `$project` or `$lookup` for display (owner details, avatars, likes, comments, `updatedAt`) are not modelled; the model keeps the documents themselves.
- The `$text`/`$regex` search of `searchVideosAndChannels` is not modelled; only its paging over the matched videos is (`SearchVideosPage`).
- `updateVideo`, `getPlaylistById` and the like/comment controllers are outside the modelled core.
- Dead branches are not modelled as behaviour: the not-found check after `updateOne` in `getVideoById` (it tests the update result, which is always an object); the `!createPlaylist` test, which tests the function itself; the failure branch after `Subscription.create`; and the 500 after `findByIdAndUpdate`/`findByIdAndDelete` once the document was found.
- `UpdatePlaylist`: assumes Mongoose strips update keys whose value is `undefined`, so an absent field keeps its stored value.
- `VideoController.PublishVideo`: the Video schema's default for `isPublished` is not part of this model and is a parameter.
- `SubscriptionController.ToggleSubscription`: a user may subscribe to themself, as in the code; there is no check against it.
- `PlaylistController.UserPlaylists`: the order of the playlists produced by `$group` is unspecified in MongoDB; the contracts state membership and, in `UserPlaylistsDistinct`, that each playlist appears once, not order.
- `SubscriptionController.LatestVideos`: the order of the `$group` output is unspecified; the contract states membership and one entry per channel, not order. Among videos of one channel with equal `createdAt`, which one `$first` picks is not fixed either; the contract only says no video of the channel is newer.
- `VideoController.GetAllVideos`: `sortBy` is one of the modelled fields (`createdAt`, `views`, `isPublished`); the code sorts on any field name a client sends, and a name no video has leaves the order to MongoDB. Which sorted arrangement of tied videos the page is cut from is not fixed either (see `Aggregation.SortDocs`).
- `Aggregation.SortDocs`: ties are returned in some order; the contract states sortedness and permutation only.
- The check-then-update race in `addVideoToPlaylist` and all concurrency are out of scope; requests are sequential.
- Token refresh, routing, rendering, React state batching, toasts' timing and the 800 ms navigation delay are not modelled; navigation is recorded as its target.
- zod's `.email()` check and `URL.createObjectURL` are parameters (`emailAccepted`, `objectUrl`).
- `JsModel.Spread`: spreading a string is modelled per code point; JavaScript splits characters outside the Basic Multilingual Plane into two surrogate halves.
- The `TypeError` thrown by a property read on a `null` or `undefined` response is modelled without its engine-specific message (`JsModel.ThrownTypeError`); the handlers only ever test it for `data`.
- Numbers are integers: NaN, infinities and fractional progress values are not modelled.
- `AuthSlice.ReloadReproducesLogin`: covers payloads without `undefined` inside; for others, `ReloadAfterSetUserCredentials` states what JSON drops.
- `updateUserPostEmailVerification`, imported by `UpdateUserProfile.tsx`, is not exported by `authSlice.ts`; that action is not part of this model.
- react-hook-form's emptiness test for a file input is taken as "no file chosen".

## Findings

| source | as written | input that shows it | evidently intended | confidence | as-written member | corrected member |
|---|---|---|---|---|---|---|
| frontend/src/components/VideoUploadModal.tsx:190-216 | the `validate` callbacks read `file.size`, but react-hook-form passes a file input's `FileList`, which has no `size`, so `undefined > limit` is false and the limits never fire | a `FileList` holding one 200·1024·1024-byte video | reject a chosen video over 100 MiB and a thumbnail over 6 MiB (`FileList[0].size`) | not executed | VideoUploadModal.OversizedVideoPassesAsWritten | VideoUploadModal.FileRule |
| frontend/src/components/VideoUploadModal.tsx:147-216 | `handleSubmit` runs the upload whenever the rules as written report nothing, so an oversize video is uploaded and a success toast shown | title "t", description "d", a 200·1024·1024-byte video, a 1 KiB thumbnail | refuse the form with "Upload a file with size less than 100 MB" and leave the dialog unchanged | not executed | VideoUploadModal.OversizedUploadAcceptedAsWritten | VideoUploadModal.SizeLimitBoundaries |
