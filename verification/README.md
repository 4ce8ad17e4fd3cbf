# Trueking core in Dafny

Trueking is an Android barter app. Users publish listings (`TruequeItem`),
which are either an object or a skill. They browse everyone's listings and
send a trade request (`SolicitudTrueque`) that offers one of their own
listings for somebody else's. The owner then accepts or rejects it. Almost all
of the behaviour lives in the composable `AppTrueque` and its screens in
`MainScreen.kt`, bound directly to a remote document store. A smaller
view-model layer (`LoginViewModel`, `ProposalsViewModel`,
`RespondToProposalUseCase`, `Resource`) sits beside it.

This project models that logic as pure functions over immutable data:

- **Store.** The remote store is two maps from document id to string-keyed
  fields: `trueques` and `solicitudes`.
- **Snapshots.** A snapshot is a sequence of raw documents. The predicate
  `Remote.IsSnapshot` ties it to a query.
- **Callbacks.** Every listener callback and every button handler is one step
  function.

The modules:

| file | module | what it holds |
|---|---|---|
| wrappers.dfy | Wrappers | `Option` |
| text.dfy | Text | `isBlank`, `trim`, `contains`/`equals` ignoring case |
| seqs.dfy | Seqs | `filter`, `mapNotNull`, subsequences |
| records.dfy | Records | the two records and their document mappers |
| remote.dfy | Remote | the store, `add`, the atomic batch, the three live queries |
| session.dfy | Session | the snapshot caches and the uid gate |
| mylistings.dfy | MyListings | `misTruequesParaUI` and `distinctBy` |
| browse.dfy | Browse | the tab, text and category filters, the chip toggle, favourites |
| routes.dfy | Routes | the screen state machine and its return slots |
| actions.dfy | Actions | send request, publish listing, accept, reject |
| forms.dfy | Forms | the login, register and name-edit checks, handle display |
| resources.dfy | Resources | `Resource` |
| respond.dfy | Respond | `ProposalStatus` and `RespondToProposalUseCase` |
| login_vm.dfy | LoginVm | `LoginViewModel` |
| proposals_vm.dfy | ProposalsVm | `ProposalsViewModel` |

## Corner cases of the code

- **Switching users.** The personal caches are cleared only when the uid
  becomes blank. On a direct switch from one user to another, the first
  user's listings, requests and name stay until the new user's first
  snapshots arrive. `Session.OnAuthChanged` models this, and
  `Session.SwitchKeepsPreviousUsersListings` exhibits the stale cache.
- **Asking for one's own listing.** Nothing is written, yet the dialog still
  shows "Solicitud enviada." (`Actions.SelfRequestReportsSent`).
- **Defaults.** A listing without a category reads as `"Otro"`, and a request
  without a status reads as `"pendiente"` (`Records.MapListing`,
  `Records.MapProposal`).
- **Status names.** The two layers use different strings: `MainScreen.kt`
  writes lowercase Spanish status strings, while the view-model layer writes
  `"ACCEPTED"` and `"REJECTED"`. Each is modelled as written.

## Model

| member | source | states |
|---|---|---|
| Text.Trim | app/src/main/java/com/example/trueking/MainScreen.kt:547 | the trimmed text is a slice with no whitespace at either end; it is empty exactly when the input is blank |
| Text.IsBlank | app/src/main/java/com/example/trueking/MainScreen.kt:167 | `isBlank()` holds exactly when no non-whitespace character is found from the start |
| Text.TrimBlankIff | app/src/main/java/com/example/trueking/MainScreen.kt:166-167 | the trimmed name is blank exactly when the name is blank |
| Text.TrimIdempotent | app/src/main/java/com/example/trueking/MainScreen.kt:373-374 | a second `trim()` changes nothing |
| Text.IndexOfIgnoreCase | app/src/main/java/com/example/trueking/MainScreen.kt:548-550 | the result is the first position at or after `from` where the needle occurs ignoring case, or none when it occurs nowhere there |
| Text.ContainsIgnoreCase | app/src/main/java/com/example/trueking/MainScreen.kt:548-550 | true exactly when the needle occurs somewhere, ignoring case |
| Text.EqualsIgnoreCase | app/src/main/java/com/example/trueking/MainScreen.kt:170 | equal ignoring case exactly when the lengths agree and the strings match at position 0; equal strings contain each other ignoring case |
| Seqs.Filter | app/src/main/java/com/example/trueking/MainScreen.kt:536-537 | `filter` keeps only admitted elements, every admitted value, as an order-preserving subsequence |
| Seqs.FilterCounts | app/src/main/java/com/example/trueking/MainScreen.kt:536-537 | every admitted value is kept exactly as often as it occurs, and no other value is kept |
| Seqs.FilterFilter | app/src/main/java/com/example/trueking/MainScreen.kt:543-558 | two successive filters are one filter by the conjunction |
| Seqs.MapNotNull | app/src/main/java/com/example/trueking/MainScreen.kt:205-222 | `mapNotNull` yields only present results, each from some input, and every present result |
| Seqs.MapNotNullIsMapThenFilter | app/src/main/java/com/example/trueking/MainScreen.kt:205-222 | `mapNotNull` is `map` followed by dropping the nulls: order and repetitions of the present results are kept |
| Seqs.MapNotNullKeysInOrder | app/src/main/java/com/example/trueking/MainScreen.kt:204-223 | the mapped records' ids appear in snapshot order |
| Records.MapListing | app/src/main/java/com/example/trueking/MainScreen.kt:206-221 | a document is dropped exactly when `titulo` is missing; the id is the document id; each optional field is its value or its default ("" or "Otro"); HABILIDAD exactly for the string "HABILIDAD" |
| Records.ListingRoundTrip | app/src/main/java/com/example/trueking/MainScreen.kt:372-380 | a listing written by the app reads back as the same listing |
| Records.ListingFieldsRoundTrip | app/src/main/java/com/example/trueking/MainScreen.kt:241-256 | a complete, well-typed listing document is exactly what its record writes |
| Records.ListingIgnoresOtherFields | app/src/main/java/com/example/trueking/MainScreen.kt:206-211 | fields outside the six the mapper reads never change its result |
| Records.MapProposal | app/src/main/java/com/example/trueking/MainScreen.kt:278-297 | a document is dropped exactly when either listing id is missing; the other fields default to "" and `estado` to "pendiente" |
| Records.ProposalRoundTrip | app/src/main/java/com/example/trueking/MainScreen.kt:334-344 | a request written by the app reads back as the same request |
| Records.ProposalFieldsRoundTrip | app/src/main/java/com/example/trueking/MainScreen.kt:287-297 | a complete request document is exactly what its record writes |
| Records.ProposalIgnoresOtherFields | app/src/main/java/com/example/trueking/MainScreen.kt:278-285 | fields outside the eight the mapper reads never change its result |
| Records.MapListings | app/src/main/java/com/example/trueking/MainScreen.kt:204-223 | every mapped listing comes from a document, and every document with a title is mapped |
| Records.MapProposals | app/src/main/java/com/example/trueking/MainScreen.kt:276-299 | every mapped request comes from a document, and every well-formed document is mapped |
| Records.ListingsKeepSnapshotOrder | app/src/main/java/com/example/trueking/MainScreen.kt:203-204 | the listings cache keeps the snapshot's order |
| Records.ProposalsKeepSnapshotOrder | app/src/main/java/com/example/trueking/MainScreen.kt:275-276 | the requests cache keeps the snapshot's order |
| Remote.Add | app/src/main/java/com/example/trueking/MainScreen.kt:345 | `add` creates one document under a fresh id and touches nothing else |
| Remote.ApplyWrites | app/src/main/java/com/example/trueking/MainScreen.kt:410-414 | a batch of deletes always applies; an update of a missing document fails the batch; a batch never creates a document |
| Remote.ApplyWritesAppend | app/src/main/java/com/example/trueking/MainScreen.kt:410-414 | a batch is its writes in order: the rest continues from the first part's result, or fails with it |
| Remote.DeleteMissingIsNoop | app/src/main/java/com/example/trueking/MainScreen.kt:411-412 | deleting a document that does not exist succeeds and changes nothing |
| Remote.Commit | app/src/main/java/com/example/trueking/MainScreen.kt:410-414 | a batch lands completely or leaves the store unchanged; it lands exactly when the backend does not fail and every write applies |
| Session.Start | app/src/main/java/com/example/trueking/MainScreen.kt:154-162 | the caches start empty with the current user's uid, and the session gate holds |
| Session.OnAuthChanged | app/src/main/java/com/example/trueking/MainScreen.kt:177-196 | the uid becomes the new user's; a change to blank clears the personal caches and the name; the global list is untouched; the gate is kept |
| Session.OnProfileSnapshot | app/src/main/java/com/example/trueking/MainScreen.kt:189-192 | only the name changes: the `nombre` field, or "" for a missing snapshot or field |
| Session.OnGlobalSnapshot | app/src/main/java/com/example/trueking/MainScreen.kt:201-224 | a snapshot replaces the global cache with its mapped documents in order; a null snapshot changes nothing; other caches are untouched |
| Session.OnOwnSnapshot | app/src/main/java/com/example/trueking/MainScreen.kt:229-259 | the same for the own-listings cache, registered only for a non-blank uid |
| Session.OnPendingSnapshot | app/src/main/java/com/example/trueking/MainScreen.kt:265-300 | the same for the pending-requests cache |
| Session.Step | app/src/main/java/com/example/trueking/MainScreen.kt:176-304 | every callback keeps the gate: a blank uid never shows personal data |
| Session.RunKeepsGate | app/src/main/java/com/example/trueking/MainScreen.kt:184-268 | the gate holds along any interleaving of callbacks |
| Session.OwnSnapshotIsOwned | app/src/main/java/com/example/trueking/MainScreen.kt:234-236 | a snapshot of the own-listings query fills the cache with the user's listings only |
| Session.PendingSnapshotIsOwned | app/src/main/java/com/example/trueking/MainScreen.kt:270-273 | a snapshot of the pending query fills the cache only with pending requests addressed to the user |
| Session.SwitchKeepsPreviousUsersListings | app/src/main/java/com/example/trueking/MainScreen.kt:229-233 | a direct user switch leaves the previous user's listing in the own-listings cache |
| MyListings.DistinctFrom | app/src/main/java/com/example/trueking/MainScreen.kt:172 | `distinctBy { it.id }`: unique ids, order kept, every id covered, first occurrence kept |
| MyListings.DistinctById | app/src/main/java/com/example/trueking/MainScreen.kt:172 | `distinctBy { it.id }`: unique ids, order kept, every id present through its first element; a list with unique ids is returned as it is |
| MyListings.DistinctFromFirstOnly | app/src/main/java/com/example/trueking/MainScreen.kt:172 | every kept element is the first element of the input carrying its id; with the subsequence order this fixes the result |
| MyListings.DistinctAppend | app/src/main/java/com/example/trueking/MainScreen.kt:172 | de-duplicating `a + b` is de-duplicating `a`, then `b` past `a`'s ids |
| MyListings.DistinctUnique | app/src/main/java/com/example/trueking/MainScreen.kt:172 | a list with unique ids is left as it is |
| MyListings.SinId | app/src/main/java/com/example/trueking/MainScreen.kt:166-171 | an order-preserving subsequence of the global listings: exactly those with blank owner id and owner name equal, ignoring case, to the trimmed non-blank display name; none for a blank name |
| MyListings.SinIdCounts | app/src/main/java/com/example/trueking/MainScreen.kt:170 | every matching legacy listing is taken as often as it occurs, and nothing else |
| MyListings.DistinctKeepsPrefix | app/src/main/java/com/example/trueking/MainScreen.kt:172 | the result starts with the de-duplicated own listings |
| MyListings.DistinctMembers | app/src/main/java/com/example/trueking/MainScreen.kt:172 | every kept element comes from one of the parts, and every id of either part is kept |
| MyListings.MisTruequesMembers | app/src/main/java/com/example/trueking/MainScreen.kt:164-174 | the merged list holds only own and matching legacy listings, and every id of either kind |
| MyListings.MisTrueques | app/src/main/java/com/example/trueking/MainScreen.kt:164-174 | unique ids; an order-preserving subsequence of the own listings followed by the legacy ones; the own listings first, in order; the only other entries are legacy listings matching the name; none when the name is blank |
| Browse.ByTab | app/src/main/java/com/example/trueking/MainScreen.kt:535-539 | tab 1 keeps exactly the objects and tab 2 exactly the skills, in order; other tabs keep all |
| Browse.Browse | app/src/main/java/com/example/trueking/MainScreen.kt:541-559 | the result is the order-preserving subsequence of exactly the listings that pass the tab, the text query and the category |
| Browse.ByTabIsFilter | app/src/main/java/com/example/trueking/MainScreen.kt:535-539 | the tab choice is a single filter by the tab's admission rule |
| Browse.BrowseIsOneFilter | app/src/main/java/com/example/trueking/MainScreen.kt:535-559 | the shown list is one filter of the listings by tab, query and category together, so it is fully determined |
| Browse.BlankQueryKeepsAll | app/src/main/java/com/example/trueking/MainScreen.kt:544-545 | a whitespace query with no tab and no category filters nothing out |
| Browse.GuitQuery | app/src/main/java/com/example/trueking/MainScreen.kt:547-550 | "guit" matches "Guitarra" ignoring case and does not match "Bicicleta" |
| Browse.ZzzQuery | app/src/main/java/com/example/trueking/MainScreen.kt:548-550 | "zzz" matches neither listing |
| Browse.GuitFilter | app/src/main/java/com/example/trueking/MainScreen.kt:543-551 | the text filter by "guit" keeps only the guitar |
| Browse.QueryExample | app/src/main/java/com/example/trueking/MainScreen.kt:541-552 | filtering [Bicicleta, Guitarra] by "guit" gives [Guitarra] |
| Browse.NoMatchExample | app/src/main/java/com/example/trueking/MainScreen.kt:543-551 | filtering by "zzz" gives nothing |
| Browse.CategoryExample | app/src/main/java/com/example/trueking/MainScreen.kt:553-558 | the category "Deportes" keeps only the bicycle |
| Browse.ToggleCategory | app/src/main/java/com/example/trueking/MainScreen.kt:1497-1501 | clicking the selected chip clears the selection; any other chip becomes the selection |
| Browse.ToggleTwice | app/src/main/java/com/example/trueking/MainScreen.kt:1498-1500 | two clicks on a chip restore that chip's selection, or leave no selection |
| Browse.TabForTipo | app/src/main/java/com/example/trueking/MainScreen.kt:566 | the type chip jumps to the tab that admits exactly that type |
| Browse.FirstIndex | app/src/main/java/com/example/trueking/MainScreen.kt:593 | the position `remove` deletes: the first occurrence of the id |
| Browse.RemoveFirst | app/src/main/java/com/example/trueking/MainScreen.kt:593 | `remove` drops the first occurrence and keeps every other element in order |
| Browse.ToggleFavorite | app/src/main/java/com/example/trueking/MainScreen.kt:592-596 | the favourite toggle flips membership of the id, never duplicates an id and leaves other ids alone |
| Routes.Init | app/src/main/java/com/example/trueking/MainScreen.kt:151-153 | the first screen is LOGIN and both return slots are home screens |
| Routes.Startup | app/src/main/java/com/example/trueking/MainScreen.kt:306-314 | start-up goes to PRINCIPAL exactly when a user exists and `remember_me` is set, else to LOGIN |
| Routes.Step | app/src/main/java/com/example/trueking/MainScreen.kt:316-404 | callbacks a screen does not offer change nothing; the profile button goes to PERFIL; the add-listing and bell buttons of a home screen open their screen and remember that home screen; back from PERFIL goes to PRINCIPAL, from REGISTRO to LOGIN, and from the add-listing or notifications screen to the remembered screen; LOGIN's register link goes to REGISTRO; logout clears `remember_me` and goes to LOGIN; login and register store the flag and go to PRINCIPAL; saving goes to PERFIL |
| Routes.RunKeepsSlots | app/src/main/java/com/example/trueking/MainScreen.kt:319-369 | along any run both return slots name PRINCIPAL or PERFIL |
| Routes.AddListingBackReturns | app/src/main/java/com/example/trueking/MainScreen.kt:352-369 | opening the add-listing screen from a home screen and going back returns to it |
| Routes.NotificationsBackReturns | app/src/main/java/com/example/trueking/MainScreen.kt:362-404 | the same for the notifications screen |
| Routes.LogoutForgetsSession | app/src/main/java/com/example/trueking/MainScreen.kt:356-360 | after logout the next start-up shows LOGIN even with a cached user |
| Actions.SenderName | app/src/main/java/com/example/trueking/MainScreen.kt:340 | the written name is the display name, or exactly "Usuario" when it is blank; never blank |
| Actions.MaySend | app/src/main/java/com/example/trueking/MainScreen.kt:331-332 | a request may be sent exactly when the uid is non-blank and the listing is not the user's own; a legacy listing with blank owner id passes for every signed-in user |
| Actions.SendRequest | app/src/main/java/com/example/trueking/MainScreen.kt:331-345 | nothing is written for a blank uid or one's own listing; otherwise exactly one new request, pending, from the uid with the sender name, about both listings with their titles, addressed to the listing's owner id |
| Actions.SentRequestReachesOwner | app/src/main/java/com/example/trueking/MainScreen.kt:270-272 | the new request appears in every pending snapshot of the owner |
| Actions.LegacyRequestReachesNobody | app/src/main/java/com/example/trueking/MainScreen.kt:332-341 | a request about a listing with blank owner id passes the guard, but no signed-in user's pending snapshot carries it |
| Actions.PickOffered | app/src/main/java/com/example/trueking/MainScreen.kt:667-668 | `firstOrNull`: the first own listing with the selected id, or none |
| Actions.ConfirmSend | app/src/main/java/com/example/trueking/MainScreen.kt:664-677 | with no pick only the reminder shows; with a pick the request offers the picked listing and "Solicitud enviada." shows whether or not anything was written |
| Actions.SelfRequestReportsSent | app/src/main/java/com/example/trueking/MainScreen.kt:673-676 | asking for one's own listing reports success with the store unchanged |
| Actions.FormValid | app/src/main/java/com/example/trueking/MainScreen.kt:708 | a form is valid exactly when title, description and category are non-empty after trimming |
| Actions.Guardar | app/src/main/java/com/example/trueking/MainScreen.kt:370-384 | only for a non-blank uid, one new listing that reads back with trimmed texts, the type and category as given, the uid and the sender name |
| Actions.Publicar | app/src/main/java/com/example/trueking/MainScreen.kt:804-811 | an invalid form only shows the error line; a valid one moves to PERFIL and, for a signed-in user, adds one listing that reads back with the trimmed title and description, the form's type and category, the uid and the sender name |
| Actions.PublishedTextsTrimmed | app/src/main/java/com/example/trueking/MainScreen.kt:806-810 | a published title and description are trimmed and non-blank |
| Actions.PublishedListingIsOwn | app/src/main/java/com/example/trueking/MainScreen.kt:371-381 | the new listing appears in every snapshot of the user's own listings |
| Actions.SingleUpdate | app/src/main/java/com/example/trueking/MainScreen.kt:417-418 | a single `update` merges into an existing document and fails on a missing one |
| Actions.Accept | app/src/main/java/com/example/trueking/MainScreen.kt:406-415 | all or nothing: on success both listings are gone and only `estado` of the request became "aceptada"; on failure nothing changed |
| Actions.Reject | app/src/main/java/com/example/trueking/MainScreen.kt:416-419 | on success only `estado` became "rechazada"; on failure nothing changed |
| Actions.AcceptedLeavesPending | app/src/main/java/com/example/trueking/MainScreen.kt:271-272 | an accepted request is in nobody's pending snapshot |
| Actions.RejectedLeavesPending | app/src/main/java/com/example/trueking/MainScreen.kt:416-419 | a rejected request is in nobody's pending snapshot |
| Actions.FailedAnswerKeepsPending | app/src/main/java/com/example/trueking/MainScreen.kt:410-414 | a failed accept or reject leaves the store as it was |
| Forms.LoginPressed | app/src/main/java/com/example/trueking/MainScreen.kt:1274-1279 | blank e-mail or password only shows the message; otherwise the trimmed e-mail and the password as typed are sent |
| Forms.RegisterPressed | app/src/main/java/com/example/trueking/MainScreen.kt:1376-1391 | any blank field only shows the message; otherwise the profile stores the trimmed, non-blank name, handle and e-mail |
| Forms.RegisteredNameIsTrimmed | app/src/main/java/com/example/trueking/MainScreen.kt:1387 | the registered name is already trimmed and non-blank |
| Forms.NormalizeHandle | app/src/main/java/com/example/trueking/MainScreen.kt:853 | a shown handle starts with "@" and ends with the stored handle; a blank one shows as "" |
| Forms.NormalizeHandleIdempotent | app/src/main/java/com/example/trueking/MainScreen.kt:853 | normalising twice is normalising once |
| Forms.SaveName | app/src/main/java/com/example/trueking/MainScreen.kt:1140-1147 | no user or a blank name only shows the message; otherwise the trimmed, non-blank name is written for that uid |
| Resources.ErrorOf | app/kotlin/com/example/trueking/Resource.kt:5 | an error built from a message carries that message and no data |
| Resources.Data | app/kotlin/com/example/trueking/Resource.kt:2-5 | Loading has no data; Success has its data |
| Resources.Message | app/kotlin/com/example/trueking/Resource.kt:2-5 | a message is present exactly on Error |
| Resources.PropertiesDetermineVariant | app/kotlin/com/example/trueking/Resource.kt:2-6 | the data and message properties tell the three variants apart |
| Respond.ParseStatus | app/kotlin/TradeProposal.kt.kt:21-25 | a parsed status has the parsed name |
| Respond.StatusNameRoundTrip | app/kotlin/TradeProposal.kt.kt:21-25 | every status name reads back as its status |
| Respond.StatusNamesDistinct | app/kotlin/TradeProposal.kt.kt:21-25 | two statuses have the same name exactly when they are the same status |
| Respond.RespondToProposal | app/kotlin/RespondToProposalUseCase.kt:8-11 | exactly one update of the given proposal, to ACCEPTED or REJECTED by the flag, never PENDING |
| LoginVm.Init | app/kotlin/LoginViewModel.kt:21-35 | both fields start empty and the login state null |
| LoginVm.OnEmailChange | app/kotlin/LoginViewModel.kt:26-28 | only the e-mail changes |
| LoginVm.OnPasswordChange | app/kotlin/LoginViewModel.kt:30-32 | only the password changes |
| LoginVm.LoginStart | app/kotlin/LoginViewModel.kt:39-49 | a blank field gives the error state and no call; otherwise Loading and a call with the stored fields |
| LoginVm.LoginFinish | app/kotlin/LoginViewModel.kt:51 | the state becomes the use case's result |
| LoginVm.ResetLoginState | app/kotlin/LoginViewModel.kt:56-58 | the state becomes null and the fields stay |
| LoginVm.LoginEndsWithResult | app/kotlin/LoginViewModel.kt:45-52 | a full login ends in exactly the use case's answer to the stored fields |
| LoginVm.BlankFieldNeverCalls | app/kotlin/LoginViewModel.kt:40-43 | a blank field never reaches the use case |
| LoginVm.EmailNotTrimmed | app/kotlin/LoginViewModel.kt:49 | an e-mail with surrounding spaces reaches the use case as typed |
| ProposalsVm.Init | app/kotlin/ProposalsViewModel.kt:23-30 | the state starts Loading; with no user it becomes the error and nothing is subscribed |
| ProposalsVm.LoadProposals | app/kotlin/ProposalsViewModel.kt:32-43 | no user sets the error; a user starts the subscription keyed on the uid |
| ProposalsVm.OnEmission | app/kotlin/ProposalsViewModel.kt:39-42 | an emission replaces the state |
| ProposalsVm.StateIsLatestEmission | app/kotlin/ProposalsViewModel.kt:39-42 | the state is always the latest emission |
| ProposalsVm.UnauthenticatedStaysError | app/kotlin/ProposalsViewModel.kt:33-37 | without a user the error state is final |
| ProposalsVm.AnswerProposal | app/kotlin/ProposalsViewModel.kt:45-56 | accept and reject call the use case with true and false respectively, and leave the state alone |

## Left out

- Compose layout and rendering are not modelled: cards, dialogs, snackbars and their timing, and the favourite and deletion confirmation texts.
- The Firebase SDKs are not modelled. The store is two maps, and a snapshot is an input sequence of documents. The id that `add` generates is a parameter that must be fresh.
- Failures of a single `add` are not modelled: `Actions.SendRequest` and `Actions.Guardar` assume the write lands. Only the accept batch and the reject update carry a failure flag, because their success conditions are part of the behaviour.
- Listener and coroutine lifecycles (`DisposableEffect`, `onDispose`, `LaunchedEffect`, `viewModelScope`) are left out. Each callback is a sequential step. Overlapping `login()` coroutines are not interleaved.
- Server timestamps and the `creadoEn` ordering of the global query are left out. Snapshot order is taken as given.
- SharedPreferences I/O is left out. `remember_me` is the boolean field `Routes.Nav.recordar`.
- Text.Trim: whitespace is Java's `Character.isWhitespace` restricted to ASCII (tab through carriage return, the four separator controls, space). Unicode spaces are not covered.
- Text.ContainsIgnoreCase: case folding covers ASCII and Latin-1 letters only, not the full Unicode tables.
- The `imagenUrl` field of `TruequeItem` is left out, because no modelled code reads or writes it.
- The profile's hard-coded figures (location, trades made, favourites count) are constants, not behaviour.
- The profile screen's own profile load and listing delete are left out: they are single store calls reporting through snackbars. Only the handle display and the name edit are modelled.
- The "create a listing first" guard in front of the request dialog (`MainScreen.kt:610-613`) is left out. `Actions.PickOffered` already yields nothing for an empty list.
- The repositories, the other use cases, the DI module, `LoginScreen.kt` and `MainActivity.kt` are wiring and are not part of this model. Of the data holders, only the `ProposalStatus` enum is modelled.
- The Firebase `AuthResult` that the login use case returns is reduced to the signed-in uid (`LoginVm.AuthResult`). `TradeProposal` is kept without its `createdAt` timestamp.
- Respond.RespondToProposal: the repository's answer is dropped by the use case, so the model returns only the calls made.
