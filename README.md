# youreview core, modelled in Dafny

youreview is a Next.js app where each signed-in user keeps a yearly Top 10 list of movies,
music and books. The user picks titles from searches against outside providers, drags the
list into order, edits notes and links, views a yearly recap and shares the list as an image.
This project models the logic behind that, one module per source file or tight group of
files:

- `Username` (username.dfy): normalising and validating usernames, and the reserved names.
- `ProfileFormModel` (profile_form.dfy): the profile form's client-side check, its
  availability lookup and submit flow. The component's state is a class.
- `Profiles` (profiles.dfy): the `profiles` table as a class, the `setUsername` server
  action, the availability endpoint and the profile update route. Postgres `ilike` is
  spelled out for the patterns these callers can build.
- `Top10Store` (items.dfy): the lists and items tables as a class, with `updateItem` and
  `deleteItem` and their ownership checks.
- `Reorder` (reorder.dfy): the two reorder routes. They validate the body, check ownership
  and ids, and produce the `reorder_top10` call. The call's outcome is a parameter.
- `RankSort` (rank_sort.dfy): the stable sort by rank that JavaScript's `Array.sort`
  performs.
- `Top10BoardModel` (board.dfy): the Top 10 board. It covers the drag-and-drop move,
  renumbering, the save payload, deleting and editing; the board's state is a class.
- `Recap` (recap.dfy): `buildRecap`. It orders entries by rank, splits them into category
  buckets, takes each category's top three and the first ten thumbnails, and builds the
  monthly histogram.
- `TtlCache` (cache.dfy): the in-process time-to-live cache, as a class.
- `SpotifyToken` (spotify_token.dfy): the Spotify client-credentials token route and its
  cached token, as a class.
- `Fetcher` (fetcher.dfy): `fetchWithTimeout`, which retries transient failures.
- `MediaTypes` (media.dfy) and the five provider adapters: `TmdbProvider`,
  `YouTubeProvider`, `SpotifyProvider`, `NaverBooksProvider` and `GoogleBooksProvider`.
  Each maps the upstream JSON to the unified search result.
- `SearchRoutes` (search_routes.dfy): the movie, music and book search endpoints and the
  cache step they share.
- `SearchHook` (use_search.dfy): the pure parts of the `useSearch` hook. These are the URL,
  the query key, when the query runs and when it is retried.
- `ShareImage` (share_image.dfy): the layout arithmetic of the story image and the recap card.
- `Wrappers` and `Text` (common.dfy): `Option`/`Result` and the JavaScript string operations
  the code relies on. These are `trim`, `toLowerCase` for the capitals that lower into
  ASCII, `length` in UTF-16 code units, `slice`, `split`, `includes`, `||` on strings and
  number-to-string.

The parts outside the code become parameters:

- the clock (`now` and `later`);
- the answers of the database (lookup results, `Faults`) and of upstream HTTP services
  (`nat -> Fetcher.Attempt<...>`, one answer per attempt);
- the environment variables (`Env`).

Each route is a function from its inputs and the store to its reply and the new store.
Where the source updates an object in place, a method on a class states the new state
through that function.

## Model

| member | source | states |
|---|---|---|
| Username.Normalize | src/lib/profile/username.ts:14-17 | a null or empty input gives ""; the result is trimmed, has no capital that lowers into ASCII (`A`..`Z`, U+212A) and is no longer than the input |
| Username.NormalizeIdempotent | src/lib/profile/username.ts:15 | normalising an already normalised name changes nothing |
| Username.NormalizeOfTrimmed | src/lib/profile/username.ts:14-17 | a string without surrounding white space normalises to its lower-case form |
| Username.NormalizePadded | src/lib/profile/username.ts:14-17 | white space around a non-empty trimmed core is dropped and the core is lower-cased: the result is `ToLower(core)` |
| Username.NormalizeBlank | src/lib/profile/username.ts:14-17 | an input of white space only normalises to "" |
| Username.Validate | src/lib/profile/username.ts:19-31 | ok exactly when the normalised name is 3..20 UTF-16 code units long, all in `[a-z0-9_-]`, and is not reserved; a reason is given exactly when not ok, and the length reason (judged on code units) comes before the charset reason, which comes before the reserved reason |
| Username.NameCharsAreBasic | src/lib/profile/username.ts:24-26 | a name in `[a-z0-9_-]` has a `length` equal to its number of characters |
| Username.KelvinSignLowered | src/lib/profile/username.ts:15-30 | `"\u212Aim"` lowers to `"kim"` and is accepted |
| Username.KimAccepted | src/lib/profile/username.ts:24-30 | `"kim"` is accepted |
| Username.NameAccepted | src/lib/profile/username.ts:23-30 | a name of 3..20 characters of `[a-z0-9_-]` that is not reserved is its own normal form and is accepted |
| Username.AstralCharCountsTwice | src/lib/profile/username.ts:24-27 | `"😀a"` is three code units long, so it gets the charset reason |
| Username.ValidateIgnoresNormalization | src/lib/profile/username.ts:23 | validating a name and validating its normal form give the same verdict |
| Username.WellFormedAcceptedUnlessReserved | src/lib/profile/username.ts:23-30 | once the normalised name has an acceptable length and charset, it is accepted exactly when it is not reserved |
| Username.AcceptedNamesAreNormal | src/lib/profile/username.ts:24-30 | an accepted name's normal form is accepted, is its own normal form and contains no `%` or `\` |
| Username.NameCharsAreNormal | src/lib/profile/username.ts:14-17 | a string of `[a-z0-9_-]` characters is its own normal form |
| Username.NameCharsAreNoWildcards | src/lib/profile/username.ts:26 | a string of name characters contains neither `%` nor a backslash |
| Username.ReservedNamesRejected | src/lib/profile/username.ts:28-29 | every reserved word passes the charset test yet is rejected; those of length 3 or more are rejected with the reserved reason |
| Username.ReservedWordsAreWellFormed | src/lib/profile/username.ts:1-12 | every reserved word is at most 20 characters, all in `[a-z0-9_-]` |
| Username.IsUsernameAvailable | src/lib/profile/username.ts:33-37 | always answers available |
| Username.NormalizeExample | src/lib/profile/username.ts:14-17 | `" Ab "` normalises to `"ab"` |
| Username.ValidateTooShortExample | src/lib/profile/username.ts:24-25 | `"AB"` is rejected with the length reason |
| Username.ValidateAcceptedExample | src/lib/profile/username.ts:24-30 | `"ab_12"` is accepted |
| ProfileFormModel.ValidateUsername | src/components/ProfileForm.tsx:19-30 | "" (no error) exactly when the raw value has 3..20 characters from `[a-zA-Z0-9_]`; otherwise the too-short, too-long or bad-characters message, checked in that order, with lengths in UTF-16 code units |
| ProfileFormModel.FormCharsAreBasic | src/components/ProfileForm.tsx:20-26 | a value of form characters has a `length` equal to its number of characters |
| ProfileFormModel.AstralCharCountsTwice | src/components/ProfileForm.tsx:20-28 | `"😀a"` is three code units long, so the form shows the bad-characters message |
| ProfileFormModel.FormAcceptsCapitals | src/components/ProfileForm.tsx:26-28 | the form accepts upper-case letters (`"AbC"`) |
| ProfileFormModel.FormRejectsHyphen | src/components/ProfileForm.tsx:26-28 | the form rejects `"a-b"`, which the server's validator accepts |
| ProfileFormModel.FormAcceptedNamesPassServerUnlessReserved | src/components/ProfileForm.tsx:19-30 | a form-valid value normalises to its lower-case form, and the server accepts it exactly when that form is not reserved |
| ProfileFormModel.CheckAvailability | src/components/ProfileForm.tsx:32-48 | the initial username is available without a request; otherwise available only when the reply says `available: true`, so a failed request counts as unavailable |
| ProfileFormModel.FormBelievesEndpoint | src/components/ProfileForm.tsx:37-41 | for a valid new name the form's belief is exactly the availability endpoint's answer |
| ProfileFormModel.PayloadOf | src/components/ProfileForm.tsx:77-79 | the posted username is absent exactly when it equals the initial one, and is the current value otherwise |
| ProfileFormModel.ToastAfter | src/components/ProfileForm.tsx:82-99 | success shows the saved toast; a non-ok response or a thrown error shows "에러: " and the message; the toast is styled as an error exactly when the request did not succeed |
| ProfileFormModel.ProfileForm.constructor | src/components/ProfileForm.tsx:13-17 | the state starts at the initial username with no error, no check, no loading and no toast |
| ProfileFormModel.ProfileForm.HasChanges | src/components/ProfileForm.tsx:105 | true exactly when the username differs from the initial one, that is, when the payload carries a username |
| ProfileFormModel.ProfileForm.BeginUsernameChange | src/components/ProfileForm.tsx:50-55 | stores the value and the validator's message; a request starts exactly for a valid value that differs from the initial one; the error invariant is kept |
| ProfileFormModel.ProfileForm.FinishAvailabilityCheck | src/components/ProfileForm.tsx:56-60 | the check ends; an unavailable answer sets the "taken" error, and nothing else changes |
| ProfileFormModel.ProfileForm.HandleSubmit | src/components/ProfileForm.tsx:63-103 | nothing is sent while an error is shown or a check is in flight; otherwise the payload is sent, the toast reports the outcome and loading ends cleared; a sent username always passed the form's validator |
| ProfileFormModel.EnabledSubmitSendsValidName | src/components/ProfileForm.tsx:160-164 | when the submit button is enabled, the guard passes and the posted username is the changed, form-valid value |
| Profiles.ProfilesTable.constructor | src/app/actions/setUsername.ts:14-16 | the table starts with the given rows |
| Profiles.ProfilesTable.UpsertUsername | src/app/actions/setUsername.ts:24-26 | row `id` gets the new username and keeps its other columns, or is created; every other row is unchanged |
| Profiles.ProfilesTable.Update | app/api/profile/update/route.ts:39-42 | the table becomes `Patched(old rows, id, patch)` |
| Profiles.ApplyPatch | app/api/profile/update/route.ts:13-37 | a column the patch leaves out keeps its value; a column it carries takes the patch's value |
| Profiles.Patched | app/api/profile/update/route.ts:39-42 | same keys; only row `id` changes, and only when it exists |
| Profiles.IlikeMatches | src/app/actions/setUsername.ts:17 | exactly the rows with a non-null username that matches the pattern under `ilike` |
| Profiles.UnderscoreIsWildcard | src/app/actions/setUsername.ts:17 | the valid name `"a_c"`, used as an `ilike` pattern, matches the stored name `"ABC"` |
| Profiles.IlikeIgnoresCase | app/api/profile/username/availability/route.ts:20 | a name matches itself under `ilike`, and so does its lower-case form |
| Profiles.GuardDecides | src/app/actions/setUsername.ts:20-22 | if no other user's name matches, the guard passes whichever row the store returns; if only other users' names match, it blocks |
| Profiles.SetUsername | src/app/actions/setUsername.ts:7-29 | an invalid name throws the validator's reason, a failed lookup rethrows, and a match owned by someone else throws "already in use"; every error leaves the table unchanged; on success it returns true and only the caller's row changes, to the normalised name |
| Profiles.ClaimUsername | src/app/actions/setUsername.ts:14-28 | a failed lookup gives the lookup error, another user's match "already in use", a failed upsert the upsert error, each leaving the table unchanged; otherwise true, and only the caller's row is set to the name with its display name kept |
| Profiles.Availability | app/api/profile/username/availability/route.ts:7-28 | a missing `q` reads as ""; an invalid name is unavailable with the validator's reason and status 200; a store error answers 500; otherwise available exactly when no stored name matches under `ilike`; the table is only read |
| Profiles.AvailableMeansClaimable | app/api/profile/username/availability/route.ts:17-27 | a name reported available is valid, and any store answer consistent with the table lets every user through the `setUsername` guard |
| Profiles.PatchOf | app/api/profile/update/route.ts:13-37 | an undefined username or display name is left out of the patch; a given username is written as it is; a falsy display name becomes null |
| Profiles.UpdateProfile | app/api/profile/update/route.ts:7-54 | answers 400 exactly when a truthy username is held by exactly one other user; a body that is not JSON or a failed write answers 500; every non-success leaves the table unchanged; success applies `PatchOf(body)` to the caller's row only |
| Profiles.AbsentUsernameUntouched | app/api/profile/update/route.ts:15 | an update without a username keeps the stored username |
| Profiles.UpdateStoresUnvalidatedNames | app/api/profile/update/route.ts:17-32 | the empty username skips the uniqueness query and is stored, although the username validator rejects it |
| Top10Store.OwnedBy | src/app/actions/updateItem.ts:14-28 | a failed item lookup rethrows, an unknown item throws "item not found", a failed list lookup rethrows, and a missing list or another owner throws "forbidden"; it passes exactly when the caller owns the item's list |
| Top10Store.UpdateOutcome | src/app/actions/updateItem.ts:7-41 | every error leaves the items unchanged; success needs the guard and the write to pass, returns ok, and changes only that item's note and link, an absent value being stored as null |
| Top10Store.DeleteOutcome | src/app/actions/deleteItem.ts:7-33 | every error leaves the items unchanged; success needs the guard and the write to pass, returns ok, and removes exactly that item, all others unchanged |
| Top10Store.StrangersChangeNothing | src/app/actions/updateItem.ts:28 | a caller who does not own the list changes nothing with either action, and gets "forbidden" when the lookups succeed |
| Top10Store.UpdateWithoutFieldsClears | src/app/actions/updateItem.ts:33-34 | an update with neither note nor link clears both |
| Top10Store.DeleteKeepsOtherRanks | src/app/actions/deleteItem.ts:25-29 | after a delete every other item is still there with its old rank |
| Top10Store.Top10Tables.constructor | src/app/actions/updateItem.ts:14-26 | the tables start with the given lists and items |
| Top10Store.Top10Tables.UpdateItem | src/app/actions/updateItem.ts:7-41 | the result and the new items table are `UpdateOutcome` of the old tables; the lists are unchanged |
| Top10Store.Top10Tables.DeleteItem | src/app/actions/deleteItem.ts:7-33 | the result and the new items table are `DeleteOutcome` of the old tables; the lists are unchanged |
| Reorder.Ids | app/api/top10/reorder/route.ts:21 | the i-th id is the i-th entry's id |
| Reorder.Ranks | app/api/top10/reorder/route.ts:22 | the i-th rank is the i-th entry's rank |
| Reorder.SetSizeDetectsDuplicates | app/api/top10/reorder/route.ts:23-25 | the set of a sequence is never larger than the sequence, and is as large exactly when no value repeats |
| Reorder.RanksOkMeans | app/api/top10/reorder/route.ts:23-25 | the endpoints' `outOfRange` / `rankSet.size` test passes exactly when every rank is an integer in 1..10 and no two ranks are equal |
| Reorder.AcceptedRanksAtMostTen | app/api/top10/reorder/route.ts:24-30 | a body whose ranks pass has at most ten entries |
| Reorder.SubsetSize | app/api/top10/reorder/route.ts:23 | a subset is no larger than its superset |
| Reorder.IntRanks | app/api/top10/reorder/route.ts:34 | the integer ranks sent, position by position |
| Reorder.CallFor | app/api/top10/reorder/route.ts:31-35 | the call carries the list id and, in payload order, the i-th id with the i-th rank; the ranks are distinct and in 1..10 |
| Reorder.AfterCall | app/api/top10/reorder/route.ts:36-40 | a procedure error answers 500 with its message, otherwise `{ ok: true }` |
| Reorder.Top10Reorder | app/api/top10/reorder/route.ts:8-40 | a bad body answers 400 and bad ranks answer 400, both without a call; the call is made exactly when both checks pass, and the reply is then the call's; no ownership check |
| Reorder.ItemsOf | app/api/dashboard/reorder/route.ts:46-54 | exactly the ids of the items whose list is `listId` |
| Reorder.DashboardReorderSpec | app/api/dashboard/reorder/route.ts:8-73 | checks run in order, each answered as the route does: body (400 "Invalid body"), ranks (400), list lookup (500 with its error), ownership (403 "forbidden"), item lookup (500 with its error), membership (400 "item does not belong to list"); the call is made exactly when all pass, so every rejection leaves the ranks unchanged |
| Reorder.CheckMembership | app/api/dashboard/reorder/route.ts:55-62 | true exactly when every id is among the list's item ids |
| Reorder.DashboardReorder | app/api/dashboard/reorder/route.ts:8-73 | the reply and the call are `DashboardReorderSpec` of the tables; the tables are only read |
| Reorder.DashboardIsStricter | app/api/dashboard/reorder/route.ts:33-62 | whenever the dashboard endpoint makes the call, the top-10 endpoint makes the same call with the same reply |
| Reorder.Top10EndpointIgnoresOwnership | app/api/top10/reorder/route.ts:16-35 | for a valid body on someone else's list, the top-10 endpoint makes the call while the dashboard endpoint answers 403 |
| Reorder.DuplicateIdsReachTheCall | app/api/dashboard/reorder/route.ts:45-62 | the same item sent twice with ranks 1 and 2 passes every check and reaches the call: membership is checked, exact cover is not |
| Reorder.DuplicateRanksRejected | app/api/top10/reorder/route.ts:23-30 | two entries with the same rank are refused with 400 before any call |
| RankSort.Insert | src/lib/recap/compute.ts:10 | one longer, and a permutation of the sequence plus the new entry |
| RankSort.InsertSorted | src/lib/recap/compute.ts:10 | inserting into a rank-ordered sequence keeps it ordered |
| RankSort.SortBy | src/lib/recap/compute.ts:10 | the result is ordered by key and is a permutation of the input, of the same length |
| RankSort.WithKeyInsert | src/lib/recap/compute.ts:10 | insertion puts the new entry ahead of every entry that shares its key |
| RankSort.SortIsStable | src/lib/recap/compute.ts:10 | for every key, the sorted sequence lists the entries with that key in their input order |
| RankSort.SortOfSorted | src/components/Top10Board.tsx:236-238 | sorting a sequence that is already in rank order gives it back unchanged |
| Top10BoardModel.SortByRank | src/components/Top10Board.tsx:236-238 | the board's entries in ascending rank order, a permutation of the props |
| Top10BoardModel.BoardIds | src/components/Top10Board.tsx:247-250 | the i-th id is the i-th entry's id |
| Top10BoardModel.IndexOf | src/components/Top10Board.tsx:271-272 | the first position of the id, or -1 when it is absent |
| Top10BoardModel.ArrayMove | src/components/Top10Board.tsx:274 | the moved entry lands at the drop index, the other entries keep their relative order, and the result is a permutation of the old entries |
| Top10BoardModel.MoveBackRestores | src/components/Top10Board.tsx:274 | moving an entry back to its old index restores the old order |
| Top10BoardModel.Renumber | src/components/Top10Board.tsx:274-277 | each entry keeps everything but its rank, which becomes its position plus one |
| Top10BoardModel.ToPayload | src/components/Top10Board.tsx:257-259 | the i-th payload entry is the i-th entry's id with rank i+1 |
| Top10BoardModel.PayloadIsIdsAndRanks | src/components/Top10Board.tsx:280 | the payload of a renumbered board is exactly its (id, rank) pairs |
| Top10BoardModel.PayloadAccepted | src/components/Top10Board.tsx:280-287 | a board of one to ten entries sends ranks the reorder endpoint accepts, so the endpoint calls the procedure with the board's ids in order |
| Top10BoardModel.LongBoardRejected | src/components/Top10Board.tsx:280-287 | a board of more than ten entries sends ranks the endpoint rejects with 400 |
| Top10BoardModel.RemoveId | src/components/Top10Board.tsx:339 | keeps exactly the entries whose id is not the deleted one |
| Top10BoardModel.RemoveIdAt | src/components/Top10Board.tsx:339 | with distinct ids, deleting the entry at k leaves all the others in order with their ranks unchanged |
| Top10BoardModel.KeepAllOthers | src/components/Top10Board.tsx:339 | filtering out an id no entry has changes nothing |
| Top10BoardModel.EditValue | src/components/Top10Board.tsx:321-322 | null exactly when the trimmed value is empty, otherwise the trimmed value |
| Top10BoardModel.EditStoredTrimmed | src/components/Top10Board.tsx:319-323 | after a successful edit the stored note and link are the trimmed edits, a blank one stored as null |
| Top10BoardModel.Board.constructor | src/components/Top10Board.tsx:236-245 | the entries start in rank order with no drag, dialog or toast open |
| Top10BoardModel.Board.SyncProps | src/components/Top10Board.tsx:296-298 | new props replace the entries, sorted by rank; nothing else changes |
| Top10BoardModel.Board.HandleDragStart | src/components/Top10Board.tsx:261-263 | records the dragged id and nothing else |
| Top10BoardModel.Board.HandleDragEnd | src/components/Top10Board.tsx:265-293 | nothing happens when dragging is off; otherwise the drag ends, and a drop on another entry moves the dragged entry to the drop index, renumbers 1..n and returns the payload of the new entries; no drop target, or a drop on itself, changes nothing |
| Top10BoardModel.Board.OpenEdit | src/components/Top10Board.tsx:300-306 | when editing is allowed, the dialog opens on the entry with its note and link (empty when null) and the toast clears |
| Top10BoardModel.Board.OpenDelete | src/components/Top10Board.tsx:308-312 | when editing is allowed, the delete dialog opens on the entry and the toast clears |
| Top10BoardModel.Board.ConfirmEdit | src/components/Top10Board.tsx:314-331 | with a dialog open it sends the item id with the trimmed note and link; success shows the saved toast and closes the dialog, failure shows "에러: " and the message; the entries are not changed |
| Top10BoardModel.Board.ConfirmDelete | src/components/Top10Board.tsx:333-346 | with a dialog open it sends the item id; success removes exactly that entry and closes the dialog, failure keeps the entries and shows "에러: " and the message |
| TtlCache.Lookup | src/lib/http/cache.ts:4-12 | a key never set reads as missing; a stored value is returned exactly while its expiry is not earlier than now |
| TtlCache.AfterGet | src/lib/http/cache.ts:7-10 | a read deletes the key only when its entry has expired, and touches no other key |
| TtlCache.AfterSet | src/lib/http/cache.ts:14-16 | a write overwrites the key's entry with expiry now + ttl and leaves every other key as it was |
| TtlCache.ReadBackUntilExpiry | src/lib/http/cache.ts:7-15 | a value set at t with ttl is read back at every time up to t + ttl inclusive, and never after |
| TtlCache.OtherKeysUndisturbed | src/lib/http/cache.ts:2-15 | reading or writing one key never changes what another key reads as |
| TtlCache.ExpiredStaysGone | src/lib/http/cache.ts:7-10 | once a read found an entry expired, the key is gone and reads as missing until it is set again |
| TtlCache.Cache.constructor | src/lib/http/cache.ts:2 | the store starts empty |
| TtlCache.Cache.Get | src/lib/http/cache.ts:4-12 | returns `Lookup` of the old store and leaves `AfterGet` of it; a hit leaves the store unchanged |
| TtlCache.Cache.Set | src/lib/http/cache.ts:14-16 | the store becomes `AfterSet` of the old store |
| SpotifyToken.Step | app/api/spotify/token/route.ts:6-47 | missing env answers 500 and keeps the cache; a cached token with more than 5 s to live is reused with `floor((exp - now)/1000)` seconds left, at least 5; a non-ok upstream answers 500 and keeps the cache; a token request that throws passes the throw on (`Crashed` with its message) and keeps the cache; a refresh caches the new token until the later clock reading + expires_in seconds and echoes expires_in; the cache changes only on a refresh |
| SpotifyToken.RefreshedTokenIsReused | app/api/spotify/token/route.ts:13-18 | a refreshed token is handed out again, with no upstream request, at every time before its expiry minus 5 s |
| SpotifyToken.TokenRoute.constructor | app/api/spotify/token/route.ts:4 | no token is cached at start |
| SpotifyToken.TokenRoute.Get | app/api/spotify/token/route.ts:6-47 | the reply and the new cached token are `Step` of the old cached token |
| Fetcher.RunFrom | src/lib/http/fetcher.ts:9-19 | between 1 and retries + 1 requests; the outcome is the last request's; every earlier request got a transient (429 or 5xx) response; the last one threw, was not transient, or used up the retries |
| Fetcher.Fetch | src/lib/http/fetcher.ts:1-23 | between 1 and retries + 1 requests, and the outcome is that of the last request made |
| Fetcher.DefaultMakesAtMostTwoRequests | src/lib/http/fetcher.ts:6 | with the default one retry, at most two requests are made |
| Fetcher.FinalAfterFirst | src/lib/http/fetcher.ts:15-19 | an ok response, a 4xx other than 429, or a thrown request ends the call after one request |
| Fetcher.PersistentFailureUsesEveryRetry | src/lib/http/fetcher.ts:15-17 | when every response is transient, exactly retries + 1 requests are made |
| Fetcher.MergeHeaders | src/lib/http/fetcher.ts:12 | the caller's headers are all sent unchanged, and the default User-Agent is sent only when the caller gives none |
| MediaTypes.OptStr | types/media.ts:13-17 | an absent string is `undefined`, a present one is carried as it is |
| MediaTypes.OptNum | types/media.ts:18 | an absent number is `undefined`, a present one is carried as it is |
| MediaTypes.Settle | src/lib/providers/tmdb.ts:29-30 | a thrown request passes its message on; a non-ok status becomes "`<service>` search failed: `<status>`"; only an ok response yields its body |
| TmdbProvider.ToUnified | src/lib/providers/tmdb.ts:32-44 | provider tmdb, no creators; providerId is the decimal id and the link is the movie page for it; title falls back from title to original_title to "Untitled" on null only; the poster URL appears exactly for a non-empty poster_path; an empty overview or release date is undefined |
| TmdbProvider.ToResults | src/lib/providers/tmdb.ts:32 | one result per movie, in order; a missing `results` gives none |
| TmdbProvider.ProviderIdIsTheId | src/lib/providers/tmdb.ts:34 | a non-negative id is read back from the providerId's digits |
| TmdbProvider.Search | src/lib/providers/tmdb.ts:19-45 | without a token it throws "Missing TMDB_TOKEN" before any request; otherwise the retrying fetch's outcome decides: its error, or the mapped results |
| YouTubeProvider.IdString | src/lib/providers/youtube.ts:42 | the video id, or "undefined" when it is missing |
| YouTubeProvider.Thumbnail | src/lib/providers/youtube.ts:39 | the first non-empty of the high, medium and default thumbnail URLs, else the default one as it is |
| YouTubeProvider.ToUnified | src/lib/providers/youtube.ts:35-51 | provider youtube with `String(videoId)`; title defaults to "Untitled"; creators is `[channelTitle]` exactly when that is non-empty; the watch link appears exactly when the video id is non-empty; the release date appears exactly for a non-empty publishedAt and is its first 10 characters (all of it when shorter) |
| YouTubeProvider.PublishedDateIsTheDay | src/lib/providers/youtube.ts:48 | "2024-03-05T10:00:00Z" gives the release date "2024-03-05" |
| YouTubeProvider.ToResults | src/lib/providers/youtube.ts:35 | one result per item, in order; a missing `items` gives none |
| YouTubeProvider.Search | src/lib/providers/youtube.ts:24-52 | without a key it throws "Missing YOUTUBE_API_KEY" before any request; otherwise the retrying fetch's outcome decides |
| SpotifyProvider.ArtistNames | src/lib/providers/spotify.ts:42 | every kept name is non-empty and is some artist's name; every non-empty artist name is kept |
| SpotifyProvider.ArtistNamesAppend | src/lib/providers/spotify.ts:42 | the names of two artist lists joined are the names of the first followed by those of the second, so order and repetitions are kept |
| SpotifyProvider.ArtistNamesOfOne | src/lib/providers/spotify.ts:42 | one artist gives its name when non-empty, and nothing when missing or empty |
| SpotifyProvider.AllNamedArtistsKept | src/lib/providers/spotify.ts:42 | when every artist has a non-empty name, the creators are exactly those names in order |
| SpotifyProvider.FirstImage | src/lib/providers/spotify.ts:44 | with a non-empty images list, the first image's URL (or its absence); without an album or images, no URL |
| SpotifyProvider.ToUnified | src/lib/providers/spotify.ts:38-48 | provider spotify with the track id and name; creators are the artist names (in order, missing and empty ones dropped, by ArtistNamesAppend and ArtistNamesOfOne); no description; image is the first album image's URL whenever the album has images; the release date is the album's, unpadded, and undefined when empty |
| SpotifyProvider.ToResults | src/lib/providers/spotify.ts:38 | one result per track, in order; missing tracks give none |
| SpotifyProvider.Search | src/lib/providers/spotify.ts:24-49 | an empty access token throws before any request; otherwise the retrying fetch's outcome decides |
| NaverBooksProvider.FirstGt | src/lib/providers/naverBooks.ts:37 | the position of the first `>` |
| NaverBooksProvider.StripTags | src/lib/providers/naverBooks.ts:37 | never longer than its input, and adds no `>` |
| NaverBooksProvider.TagShift | src/lib/providers/naverBooks.ts:37 | a tag match after a leading character is a match in the rest, and back |
| NaverBooksProvider.StripLeavesNoTag | src/lib/providers/naverBooks.ts:37 | after the global replacement no match of `<[^>]+>` is left anywhere |
| NaverBooksProvider.StripOfNoTag | src/lib/providers/naverBooks.ts:45 | text with no match is left unchanged |
| NaverBooksProvider.StripIdempotent | src/lib/providers/naverBooks.ts:37 | stripping twice gives the same text as stripping once |
| NaverBooksProvider.StripExample | src/lib/providers/naverBooks.ts:37 | `"<i>ok"` becomes `"ok"` |
| NaverBooksProvider.TrimmedPart | src/lib/providers/naverBooks.ts:41-42 | one part gives at most one name, non-empty and trimmed |
| NaverBooksProvider.TrimmedNonEmpty | src/lib/providers/naverBooks.ts:41-42 | no more names than parts, each non-empty and trimmed |
| NaverBooksProvider.TrimmedNonEmptyAppend | src/lib/providers/naverBooks.ts:41-42 | the names of two part lists joined are the names of the first followed by those of the second, so order is kept |
| NaverBooksProvider.TrimmedNonEmptyOfOne | src/lib/providers/naverBooks.ts:41-42 | one part gives its trimmed text, or nothing when that is empty |
| NaverBooksProvider.Authors | src/lib/providers/naverBooks.ts:38-43 | at most one name per comma-separated part, each non-empty and trimmed |
| NaverBooksProvider.SplitAtFirst | src/lib/providers/naverBooks.ts:40 | the text before the first separator is the first part, and the rest is split on its own |
| NaverBooksProvider.FirstAuthorThenRest | src/lib/providers/naverBooks.ts:38-43 | the first comma-separated part, trimmed, comes before the authors of the rest, and is dropped when blank |
| NaverBooksProvider.SplitWithoutSeparator | src/lib/providers/naverBooks.ts:40 | a string without commas splits into itself alone |
| NaverBooksProvider.SingleAuthor | src/lib/providers/naverBooks.ts:38-43 | an author string without commas gives the one trimmed name, or none when it is blank |
| NaverBooksProvider.NoBlankPartDropped | src/lib/providers/naverBooks.ts:41-42 | when no part is blank, every part becomes one trimmed name, in order |
| NaverBooksProvider.FormatPubdate | src/lib/providers/naverBooks.ts:49-54 | from 8 characters on, the result is 10 characters with dashes at 4 and 7 and the first 8 characters of the input in order; an 8-character `YYYYMMDD` becomes `YYYY-MM-DD` |
| NaverBooksProvider.ShortPubdate | src/lib/providers/naverBooks.ts:50-53 | a 4-character pubdate is not padded: "2020" becomes "2020--" |
| NaverBooksProvider.ProviderId | src/lib/providers/naverBooks.ts:35 | the first non-empty of isbn and link, else the title as it is, and "unknown" only when the title is missing |
| NaverBooksProvider.ToUnified | src/lib/providers/naverBooks.ts:33-56 | provider naverBooks; a non-empty title and description are stripped of every tag, a missing or empty title gives "Untitled"; creators appear exactly for a non-empty author, as its names (in order, blank parts dropped, by FirstAuthorThenRest and SingleAuthor); the release date is the formatted pubdate, present exactly for a non-empty pubdate; extra carries publisher, discount and isbn unchanged |
| NaverBooksProvider.ToResults | src/lib/providers/naverBooks.ts:33 | one result per item, in order |
| NaverBooksProvider.Search | src/lib/providers/naverBooks.ts:19-57 | without both credentials it throws before any request; otherwise the retrying fetch's outcome decides |
| GoogleBooksProvider.Secure | src/lib/providers/googleBooks.ts:46 | a URL starting with `http:` gets `https:` in its place and every other URL is unchanged; the result never starts with `http:` |
| GoogleBooksProvider.SecureIdempotent | src/lib/providers/googleBooks.ts:46 | upgrading an upgraded URL changes nothing |
| GoogleBooksProvider.Image | src/lib/providers/googleBooks.ts:44-46 | the thumbnail, else the small thumbnail, upgraded to https; absent when neither exists |
| GoogleBooksProvider.CompleteDate | src/lib/providers/googleBooks.ts:47-48 | a 4-character date becomes `YYYY-01-01`; any other length is unchanged |
| GoogleBooksProvider.MonthDateNotPadded | src/lib/providers/googleBooks.ts:48 | "2021-05" stays "2021-05" |
| GoogleBooksProvider.ToUnified | src/lib/providers/googleBooks.ts:42-64 | provider googleBooks with the volume id; title defaults to "Untitled"; creators are the authors; an empty description is undefined; the image is `Image`; the release date is the completed date, present exactly for a non-empty publishedDate |
| GoogleBooksProvider.ToResults | src/lib/providers/googleBooks.ts:42 | one result per item, in order |
| GoogleBooksProvider.Search | src/lib/providers/googleBooks.ts:31-65 | without a key it throws "Missing GOOGLE_BOOKS_KEY" before any request; otherwise the retrying fetch's outcome decides |
| SearchRoutes.Query | app/api/search/movie/route.ts:6-7 | the trimmed query, absent exactly when the parameter is missing or only white space |
| SearchRoutes.QueryIgnoresSurroundingSpace | app/api/search/movie/route.ts:6 | a query padded with white space is the same query as its trimmed form |
| SearchRoutes.CategoriesNeverShareKeys | app/api/search/music/route.ts:42 | movie, music and book cache keys never coincide |
| SearchRoutes.MusicKeysCanCollide | app/api/search/music/route.ts:42 | the music key does not separate provider from query: ("spotify", "x:y") and ("spotify:x", "y") share an entry |
| SearchRoutes.Serve | app/api/search/movie/route.ts:17-26 | a live cache entry is answered as is with no request; on a miss a successful answer is returned and cached for 60 seconds, a failure becomes status 500 with its message and is not cached |
| SearchRoutes.ServeTouchesOnlyItsKey | app/api/search/movie/route.ts:18-22 | every other cache key keeps its entry |
| SearchRoutes.FailureIsNotCached | app/api/search/movie/route.ts:21-26 | after an error reply the key has no entry |
| SearchRoutes.RepeatWithinTtlIsCached | app/api/search/movie/route.ts:18-22 | after a successful miss the same key is answered from the cache, unchanged and with no request, until 60 seconds after it was stored |
| SearchRoutes.ServeFrom | app/api/search/movie/route.ts:17-23 | on the cache object, the reply, request count and new store are those of `Serve` |
| SearchRoutes.MovieRoute | app/api/search/movie/route.ts:5-28 | missing query gives 400 "Missing q"; missing TMDB_TOKEN gives 500 before any lookup; otherwise `Serve` under `tmdb:<q>` with the TMDB search |
| SearchRoutes.Movie | app/api/search/movie/route.ts:5-28 | the route on the cache object agrees with `MovieRoute` |
| SearchRoutes.MovieRepeatIsCached | app/api/search/movie/route.ts:17-23 | a successful movie search makes at most two requests, and the same (trimmed) query is then served from the cache with no request within the TTL |
| SearchRoutes.ProviderOr | app/api/search/music/route.ts:19 | the provider parameter when truthy, else the route's fallback ("youtube" here, "naverBooks" at app/api/search/book/route.ts:8) |
| SearchRoutes.SpotifySearch | app/api/search/music/route.ts:6-15 | a thrown token fetch gives its message, a non-ok token reply gives "Spotify token fetch failed", both with no search request; otherwise the Spotify search with the returned token |
| SearchRoutes.MusicRoute | app/api/search/music/route.ts:17-59 | missing query gives 400; "youtube" without YOUTUBE_API_KEY and "spotify" without both client variables give 500 before any lookup; otherwise `Serve` under `music:<provider>:<q>` with the Spotify search for "spotify" and the YouTube search for any other name |
| SearchRoutes.Music | app/api/search/music/route.ts:17-59 | the route on the cache object agrees with `MusicRoute` |
| SearchRoutes.UnknownMusicProviderFallsBackToYouTube | app/api/search/music/route.ts:23-52 | any other provider name is served by YouTube under its own key, skipping the route's key check, so a missing key surfaces from the adapter after the lookup |
| SearchRoutes.SpotifyTokenFailureIsReported | app/api/search/music/route.ts:12 | a failed token fetch is reported with status 500, makes no search request and caches nothing |
| SearchRoutes.BookRoute | app/api/search/book/route.ts:6-43 | missing query gives 400; "naverBooks" without both Naver variables and "googleBooks" without GOOGLE_BOOKS_KEY give 500 before any lookup; otherwise `Serve` under `book:<provider>:<q>` with the Google Books search for "googleBooks" and the Naver search for any other name |
| SearchRoutes.Book | app/api/search/book/route.ts:6-43 | the route on the cache object agrees with `BookRoute` |
| Recap.ByRank | src/lib/recap/compute.ts:10 | a permutation of the entries in ascending rank order |
| Recap.InCategory | src/lib/recap/compute.ts:19-23 | only entries of the input in the given category |
| Recap.BucketsPartition | src/lib/recap/compute.ts:19-23 | the movie, music and book buckets together hold every entry exactly once |
| Recap.BucketKeepsRankOrder | src/lib/recap/compute.ts:10-23 | each bucket of the rank-ordered list is itself in rank order |
| Recap.UrlOf | src/lib/recap/compute.ts:40 | one entry gives its image URL when non-empty, and nothing otherwise |
| Recap.ImageUrls | src/lib/recap/compute.ts:39-41 | only non-empty image URLs of the entries, at most one per entry, and every non-empty one is there |
| Recap.ImageUrlsAppend | src/lib/recap/compute.ts:39-41 | the URLs of two entry lists joined are those of the first followed by those of the second, so rank order is kept |
| Recap.ImageUrlsOfOne | src/lib/recap/compute.ts:40 | one entry gives its URL when non-empty, and nothing otherwise |
| Recap.CountIn | src/lib/recap/compute.ts:27-29 | the count never exceeds the number of entries |
| Recap.CountYear | src/lib/recap/compute.ts:27-29 | the count never exceeds the number of entries |
| Recap.MonthlyOf | src/lib/recap/compute.ts:26-30 | twelve slots, slot m holding the number of entries created in month m of the year |
| Recap.MonthlyTotal | src/lib/recap/compute.ts:26-30 | the slots add up to the number of entries created in the year, never more than the number of entries |
| Recap.SplitByCategory | src/lib/recap/compute.ts:11-23 | the push loop builds exactly the three category buckets |
| Recap.CountMonths | src/lib/recap/compute.ts:26-30 | the counting loop builds exactly `MonthlyOf` |
| Recap.BuildRecap | src/lib/recap/compute.ts:6-45 | byRank is the rank order, the buckets are its categories, top3 their first three, monthly the year's histogram, thumbs the first ten non-empty image URLs in rank order (ImageUrlsAppend, ImageUrlsOfOne) |
| SearchHook.BuildUrl | src/hooks/useSearch.ts:17-37 | the category's route with `q`; a `provider` parameter exactly for music with the Spotify override or books with the Google Books override |
| SearchHook.ForeignOverrideIgnored | src/hooks/useSearch.ts:30-35 | an override that does not belong to the category gives the same URL as no override |
| SearchHook.SearchUrl | src/hooks/useSearch.ts:47-59 | no URL exactly when the trimmed query is empty; otherwise the URL for the trimmed query |
| SearchHook.QueryKey | src/hooks/useSearch.ts:61-64 | four parts: "search", the category, the override or "default", the trimmed query |
| SearchHook.QueryKeyIdentifiesQuery | src/hooks/useSearch.ts:47-64 | two inputs share a query key if and only if their trimmed forms are equal |
| SearchHook.BlankQueryNeverRuns | src/hooks/useSearch.ts:56-68 | a blank query is never fetched, whatever `enabled` says |
| SearchHook.FetchErrorMessage | src/lib/http/fetchJson.ts:10-18 | the message starts with `HTTP <status>` and is exactly that when the body had no error text |
| SearchHook.AtMostOneRetry | src/hooks/useSearch.ts:78-82 | after one failed attempt no further retry is made |
| SearchHook.BadRequestAndNotFoundNeverRetried | src/hooks/useSearch.ts:80 | a 400 or 404 from `fetchJson` is never retried |
| SearchHook.OtherStatusRetriedOnce | src/hooks/useSearch.ts:81 | any other three-digit status without error text is retried once and only once |
| SearchHook.ErrorTextCanPreventRetry | src/hooks/useSearch.ts:79-80 | a 500 whose error text mentions "HTTP 404" is not retried |
| SearchHook.Data | src/hooks/useSearch.ts:86 | the query's data, or the empty list before any arrives |
| ShareImage.RatioPart | app/api/story/route.ts:21 | at least 1; a component of unsigned decimal digits with a positive value is that value, and any other component reads as 1 |
| ShareImage.Rows | app/api/story/route.ts:20 | the least row count whose cells hold twelve covers: rows * cols >= 12 > (rows - 1) * cols |
| ShareImage.CellWidth | app/api/story/route.ts:16-22 | the columns and their gaps fit the padded width, leaving less than one pixel per column unused |
| ShareImage.Grid | app/api/story/route.ts:24 | n cells, cell i holding the i-th image when there is one and nothing otherwise |
| ShareImage.Story | app/api/story/route.ts:5-30 | no layout exactly when cols is 0; otherwise cols (default 3), `ceil(12 / cols)` rows and a grid of rows × cols cells (at least twelve) holding the first twelve images in order and null after them, the cell width `floor((inner width − gaps) / cols)`, the title (default "youreview • <year> Top 10"), the subtitle `<year> · <category>` (default "all") and the background (bgColor, else the light or dark gradient) |
| ShareImage.StoryCellHeight | app/api/story/route.ts:21-23 | the cell height is floor(cellW * rh / rw) for the ratio's components, absent when the ratio has no `:` |
| ShareImage.SplitShort | app/api/story/route.ts:21 | splitting a two-character string without the separator gives it whole; with the separator between, the two characters |
| ShareImage.StoryDefaults | app/api/story/route.ts:7-23 | with no parameters: 4 rows of 3 columns, cells 317 by 475, the dark background, the title "youreview •  Top 10" |
| ShareImage.DefaultCellHeight | app/api/story/route.ts:13-23 | three default columns are 317 wide, and the default ratio "2:3" makes them 475 high |
| ShareImage.ZeroRatioIsSquare | app/api/story/route.ts:21-23 | the ratio "0:0" reads as 1:1, giving square cells |
| ShareImage.RatioWithoutColonHasNoHeight | app/api/story/route.ts:21-23 | the ratio "16" has no height component, so the cell height is NaN |
| ShareImage.Og | app/api/og/route.ts:6-44 | a 2x5 grid of ten cells holding the first ten images in order, the title (default "youreview â€¢ <year> Top 10") and the subtitle `<year> Recap` |
| ShareImage.DefaultTitlesDiffer | app/api/og/route.ts:9 | the two images' default titles differ for every year: the card's bullet is the mis-encoded "â€¢" |
| Text.Or | app/api/search/music/route.ts:19 | the JavaScript or-operator on optional strings: `a` when it is a non-empty string, else `b` |
| Text.OrUndefined | src/lib/providers/youtube.ts:45 | the or-undefined idiom: present exactly when `a` is a non-empty string, and then `a` itself |
| Text.TrimIdempotent | src/lib/profile/username.ts:15 | trimming a trimmed string changes nothing |
| Text.TrimPadded | src/lib/profile/username.ts:15 | `trim` removes exactly the white space around a non-empty core that neither starts nor ends with white space |
| Text.LowerChar | src/lib/profile/username.ts:15 | `A`..`Z` become `a`..`z`, U+212A KELVIN SIGN becomes `k`, and every other character is kept |
| Text.ToLower | src/lib/profile/username.ts:15 | same length, each character lowered by LowerChar, no capital that lowers into ASCII left |
| Text.JsLength | src/lib/profile/username.ts:24 | `length` in UTF-16 code units: between the number of characters and twice it, and zero only for ""; fixed on every string by JsLengthOfOne and JsLengthAppend |
| Text.JsLengthOfOne | src/lib/profile/username.ts:24 | a character above U+FFFF has length 2, any other character length 1 |
| Text.JsLengthAppend | src/lib/profile/username.ts:24 | the length of a concatenation is the sum of the lengths |
| Text.JsLengthOfBasic | src/lib/profile/username.ts:24 | with no character above U+FFFF, `length` is the number of characters |
| Text.Split | src/lib/providers/naverBooks.ts:40 | one part more than there are separators, and no part contains the separator |
| Text.JoinSplit | src/lib/providers/naverBooks.ts:40 | joining the parts with the separator gives the string back |
| Text.NatToString | src/lib/http/fetchJson.ts:11 | a non-empty string of decimal digits without a leading zero (for a positive number) |
| Text.Take | src/lib/recap/compute.ts:33-35 | the first `n` elements, or all of them when there are fewer |

## Left out

- Authentication (`requireUserId`, the Supabase session): the signed-in user is a parameter, and a missing session is not modelled.
- Network, timers and aborts: the timeout and `AbortController` of `fetchWithTimeout`, the retry delay, the profile form's page reload and toast timeouts, the debounce of `useSearch`, React Query's caching and garbage collection, and the hook's `abortRef`. Upstream answers are given per attempt instead.
- JSON parsing: in the profile update route, a body that is not JSON is modelled as an absent body (`None`) and answered 500. Other malformed shapes are not modelled.
- Reorder.Top10Reorder / Reorder.DashboardReorderSpec: a request body that is not JSON makes `req.json()` throw, and the route's catch answers 500 with the error's message. The model starts from a parsed body, so this 500 is not modelled. A body without `listId` or `entries` is modelled, and gets 400.
- The `reorder_top10` database function: its body is not part of this model. The routes produce the call and take its error as a parameter.
- Database wrappers that are not in the modelled files (the Supabase client, row-level security): their answers are parameters (`Lookup`, `Faults`).
- Profiles.Ilike: Postgres `ilike` is modelled only for patterns without `%` and `\`. Names that pass validation never contain either (`Username.AcceptedNamesAreNormal`). Case folding is that of `Text.LowerChar`.
- Text.ToLower: only `A`..`Z` and U+212A KELVIN SIGN are lowered; every other character is kept as it is. These are the only characters that `toLowerCase` turns into a single character of `[a-z0-9_-]`, so Username.Validate accepts and rejects the same names as the source. Other capitals, such as `Ä`, stay upper-case here, and U+0130 lowers to two characters in JavaScript but stays one here.
- Username.Validate: the reason can differ from the source for a name with a non-ASCII capital whose lower-case form has a different length, such as U+0130. The verdict is the same.
- Top10BoardModel.Board.HandleDragEnd: requires both ids to be on the board. The drag-and-drop library only reports ids of rendered entries; its sensors and pointer handling are not modelled.
- Top10BoardModel.Board: a failed reorder save is only logged by the source, so the model does not depend on the save's answer.
- Fetcher.MergeHeaders: header names are compared exactly. HTTP's case-insensitive header names are not modelled.
- SpotifyToken.Step: `expires_in` is read as an integer. A missing or non-numeric value, which makes the expiry NaN in the source, is not modelled.
- SearchRoutes: the internal token request of the music route is not counted in `requests`, which counts provider search requests only. Query-string percent-encoding is not modelled.
- SearchHook.BuildUrl: query parameters are key/value pairs, not their percent-encoded text.
- Recap.RecapEntry: `new Date(createdAt)` is taken already parsed into a year and a local-time month. Date-string parsing and time zones are not modelled.
- NaverBooksProvider.StripTags: the tag regex is modelled on characters, not UTF-16 code units.
- GoogleBooksProvider.CompleteDate: the test `length === 4` counts characters here, not UTF-16 code units. The two differ only for a date containing a character above U+FFFF.
- NaverBooksProvider.FormatPubdate: `slice(0, 4)`, `slice(4, 6)` and `slice(6, 8)` count characters here, not UTF-16 code units. The two differ only for a pubdate containing a character above U+FFFF.
- YouTubeProvider.ToUnified: `publishedAt.slice(0, 10)` keeps the first 10 characters here, not 10 UTF-16 code units. The two differ only for a timestamp containing a character above U+FFFF before its tenth unit.
- ShareImage.Story: `cols` is taken as a natural number read from decimal digits. Fractional, negative, non-numeric and space-padded values that JavaScript's `Number` accepts are not modelled. `cols` = 0 yields no layout, where the source's layout would need infinitely many rows.
- ShareImage.RatioPart: only unsigned decimal digit strings are read as numbers. Every other form that JavaScript's `Number` accepts reads as 1 here. That covers fractional ("2.5"), signed ("-2", "+2"), space-padded (" 2"), exponent ("1e1") and hexadecimal ("0x10") components. So a negative component such as `?ratio=-2:3`, which gives a negative cell height in the route, is not modelled.
- Top10Store.UpdateOutcome / Top10Store.DeleteOutcome / Reorder.DashboardReorderSpec: the `revalidatePath` page-cache invalidation is not modelled. It runs after a successful write, and in the dashboard reorder route only when the list has a year. Nor is the `console.error` logging of the profile update route (Profiles.UpdateProfile) or the profile form (ProfileFormModel.CheckAvailability). None of these effects changes a reply or a stored row.
- ShareImage.StoryCellHeight: the cell height is the exact integer floor of cellW * rh / rw. The floating-point rounding of `cellW * (rh / rw)` is not modelled. The text colour and the rendered markup of both images are left out; only their layout values are modelled.
