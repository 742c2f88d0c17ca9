# FastMover screen logic in Dafny

FastMover is a Next.js moving-and-delivery app. Clients book orders. Admins
register drivers and assign them to orders. Drivers toggle their
availability and advance an order through its checkpoints. Nearly all of the
app is rendering and calls to a hosted backend. This project models the small
rules the screens apply around those calls, and proves what those rules
guarantee:

- the checkpoint state machine of an order;
- the order/driver assignment lists;
- the route gate and the primary-admin check;
- the role flags and the sign-up sequence;
- the role gates, search and form cleaning of driver registration;
- the admin access board;
- the driver availability toggle;
- the client booking screens: location suggestions, popup triggers, cyclic
  size/vehicle pickers, labour counters and the inserted order record.

How the model is built:

- **Remote calls are parameters.** Every backend call is either a parameter
  saying whether it failed, or a `Result` carrying what it returned. Handlers
  that issue calls return them, as a sequence of a per-module `Call` or
  `Write` datatype, so contracts can state which calls happen and in what
  order.
- **Queries are functions over a table.** Where a screen reads rows back
  (the checkpoint order, the driver row, the admin list), the query is a
  function over a table given as a sequence, and an update `.eq('id', id)`
  is a function from that table to the next:
  - `limit(1).maybeSingle()` is the first matching row;
  - `.single()` is a row only when exactly one row matches.
- **Screens are classes.** Screen state held in React `useState` is the
  fields of a class, and each handler is a method that `modifies` exactly the
  fields it sets.
- **Pure rules are functions.** The pure rules (filters, decisions, record
  construction) are functions with their own contracts.

Modules:

- `Base`: `Option` and `Result`.
- `Lists`: `Array.prototype.filter` and its laws.
- `Strings`: the JavaScript string built-ins the screens use:
  - `startsWith` and `includes`;
  - `toLowerCase`, on ASCII letters only;
  - `trim`, over the ECMAScript whitespace set;
  - `split` and `join` on one character.
- One module per source file, named after the screen:
  - `Checkpoints`, `AssignDrivers`, `Middleware`, `CheckAdmin`, `Auth`;
  - `DriverRegistration`, `AccessBoard`, `DriverHome`, `BookingPopup`;
  - `Locations`: the suggestion list shared by two screens;
  - `ClientPage`, `ClientHome`, `HomeBookingPopup`, `BookPage`;
  - `Counters`: the labour buttons shared by two popups.

User ids are backend UUIDs, which are never empty. So the JavaScript
truthiness tests on ids (`!userId`, `!clientId`) are modelled as presence
tests (`Option`). The one id whose falsy value matters is `editingId`, where
0 counts as absent; it is modelled exactly (`DriverRegistration.IsTruthyId`).

## Model

| member | source | states |
|---|---|---|
| Checkpoints.IndexOf | src/app/driver/checkpoints/page.tsx:44 | `indexOf`: the result is -1 exactly when the status is not in the flow, and otherwise the first position holding it |
| Checkpoints.ActiveOrderFor | src/app/driver/checkpoints/page.tsx:31-37 | the loaded order belongs to the driver, is neither completed nor cancelled, and is in the table; none is loaded only when no such row exists |
| Checkpoints.Advance | src/app/driver/checkpoints/page.tsx:50-62 | one `updateStatus` moves the index by at most one and never past the last stage; it moves exactly when an order is loaded, the last stage is not reached and the write succeeded |
| Checkpoints.CheckpointPage.constructor | src/app/driver/checkpoints/page.tsx:17-19 | index 0, no order, loading |
| Checkpoints.CheckpointPage.FetchOrder | src/app/driver/checkpoints/page.tsx:22-47 | with no user it redirects and stays loading; otherwise it loads the driver's open order and its stage index, or redirects and keeps the state when there is none or the query failed; a newly loaded order always has a stage ahead |
| Checkpoints.CheckpointPage.UpdateStatus | src/app/driver/checkpoints/page.tsx:49-63 | no write without an order or at the last stage; otherwise the write is the stage at index+1 for that order's id; the index follows `Advance` (it moves only on success); the order is untouched |
| Checkpoints.FlowDistinct | src/app/driver/checkpoints/page.tsx:8-14 | the five stages are pairwise distinct |
| Checkpoints.WrittenIsSuccessor | src/app/driver/checkpoints/page.tsx:51 | the status written from index i is found at index i+1: the immediate successor, no stage skipped |
| Checkpoints.UnknownStatusRestartsAtPending | src/app/driver/checkpoints/page.tsx:44-51 | a status outside the flow gives index -1, so the next write is `pending` |
| Checkpoints.Run | src/app/driver/checkpoints/page.tsx:49-63 | any run of `updateStatus` calls keeps the index within -1..last |
| Checkpoints.RunCountsSuccesses | src/app/driver/checkpoints/page.tsx:50-61 | a run moves the index by its number of successful writes, capped at the last stage |
| Checkpoints.PendingCompletesAfterFour | src/app/driver/checkpoints/page.tsx:8-14 | from `pending`, four successful writes reach `completed` |
| Checkpoints.CompletedIsFinal | src/app/driver/checkpoints/page.tsx:50 | at the last stage any run of calls leaves the index unchanged |
| Checkpoints.OpenOrderCanAdvance | src/app/driver/checkpoints/page.tsx:35 | every order the query can load (not completed, not cancelled) sits before the last stage |
| AssignDrivers.AvailableDrivers | src/app/admin/orders/AssignDrivers.tsx:27-29 | every driver offered is available |
| AssignDrivers.WithoutOrder | src/app/admin/orders/AssignDrivers.tsx:49 | no remaining order has the assigned id |
| AssignDrivers.WithoutDriver | src/app/admin/orders/AssignDrivers.tsx:50 | no remaining driver has the assigned id |
| AssignDrivers.AssignBoard.constructor | src/app/admin/orders/AssignDrivers.tsx:26-30 | the orders as given, the drivers filtered to the available ones, nothing assigning |
| AssignDrivers.AssignBoard.AssignDriver | src/app/admin/orders/AssignDrivers.tsx:32-57 | both writes are issued, in order, even when the first fails; `assigning` is the order id while they run and null after; on success both lists lose the pair, on any failure neither list changes; all drivers stay available |
| AssignDrivers.AvailableDriversExact | src/app/admin/orders/AssignDrivers.tsx:28 | a driver is offered exactly when it is an input driver and available |
| AssignDrivers.WithoutOrderKeepsOthers | src/app/admin/orders/AssignDrivers.tsx:49 | removal distributes over concatenation (relative order kept) and keeps every order with another id |
| AssignDrivers.WithoutDriverKeepsOthers | src/app/admin/orders/AssignDrivers.tsx:50 | removal distributes over concatenation (relative order kept) and keeps every driver with another id |
| AssignDrivers.OrderListShrinksByAtMostOne | src/app/admin/orders/AssignDrivers.tsx:49 | with unique ids the order list loses exactly one entry when the id is listed, and none otherwise |
| AssignDrivers.DriverListShrinksByAtMostOne | src/app/admin/orders/AssignDrivers.tsx:50 | with unique ids the driver list loses exactly one entry when the id is listed, and none otherwise |
| Middleware.AnyPrefix | middleware.ts:15 | `some(startsWith)` holds exactly when some route is a prefix of the path |
| Middleware.Decide | middleware.ts:11-28 | the request passes exactly when the path is unprotected or a non-empty token cookie is present; every redirect goes to `/auth?error=unauthorized` |
| Middleware.DecisionDependsOnPathAndPresence | middleware.ts:12-27 | two requests with the same path and the same token presence get the same decision; the token's value is not inspected |
| Middleware.PrefixTestExamples | middleware.ts:5-15 | `/administrator` and `/admin/orders` are protected; `/driver` and `/client/home` are not |
| Middleware.DiffersAt | middleware.ts:15 | a path differing from a route within both lengths does not start with it |
| Middleware.ProtectedUnderPrefix | middleware.ts:15 | any path extending a protected route is protected |
| CheckAdmin.PrimaryAdmins | src/app/api/check-admin/route.ts:4 | unset gives the empty list; otherwise the comma-free pieces that join back to the setting |
| CheckAdmin.Post | src/app/api/check-admin/route.ts:6-14 | a body that is not JSON, or is `null`, makes the handler throw (uncaught); otherwise authorized exactly when the email is one of the entries, with status 200, and 403 otherwise |
| CheckAdmin.UnsetAuthorizesNobody | src/app/api/check-admin/route.ts:4-13 | with the setting unset every well-formed request is refused with 403 |
| CheckAdmin.EmptySettingAuthorizesEmptyEmail | src/app/api/check-admin/route.ts:4-10 | an empty setting yields `[""]` and so authorizes the empty email |
| CheckAdmin.CommaEmailNeverAuthorized | src/app/api/check-admin/route.ts:4-13 | an email containing a comma is refused with 403, whatever the setting |
| CheckAdmin.EntriesAreNotTrimmed | src/app/api/check-admin/route.ts:4-9 | `"a@x, b@x"` lists `" b@x"`, so `"b@x"` is refused and `" b@x"` accepted |
| CheckAdmin.SplitNoSeparator | src/app/api/check-admin/route.ts:4 | a setting without a comma is a one-entry list |
| CheckAdmin.SplitFirstSeparator | src/app/api/check-admin/route.ts:4 | the text before the first comma is the first entry |
| Strings.JoinSplit | src/app/api/check-admin/route.ts:4 | joining the pieces of a split with the separator gives back the input |
| Strings.TrimEmptyIffBlank | src/app/client/page.tsx:34 | `trim()` is empty exactly when every character is ECMAScript whitespace |
| Strings.ContainsAt | src/app/client/page.tsx:36 | `includes` holds exactly when the substring occurs at some position |
| Strings.ToLowerIdempotent | src/app/client/page.tsx:36 | lower-casing twice is lower-casing once |
| Auth.RoleFlags | src/hooks/useAuth.tsx:47-50 | `isAdmin` holds exactly for role admin, `isDriver` for driver, `isClient` for client; so at most one holds, and one holds exactly when the role is one of the three |
| Auth.HostAdminAndMissingRoleHaveNoFlag | src/hooks/useAuth.tsx:47-50 | `host_admin` and a missing role give three false flags |
| Auth.AuthProvider.constructor | src/hooks/useAuth.tsx:43-45 | no session, no user, loading |
| Auth.AuthProvider.CurrentFlags | src/hooks/useAuth.tsx:47-50 | the flags are those of the signed-in user's role, and all false without a user |
| Auth.AuthProvider.SetSession | src/hooks/useAuth.tsx:53-73 | the session and its user are installed together and loading ends, so children render (line 178) |
| Auth.SignUp | src/hooks/useAuth.tsx:76-115 | the username lookup comes first; a found profile throws "Username already taken" before any auth call; an auth error throws with no insert; on success the `users` row carries the email, username and role; a `drivers` row (vehicle number "", unverified) is inserted exactly for drivers |
| DriverRegistration.FilterUsers | src/app/admin/driver-registration/page.tsx:113-121 | every listed user matches the search |
| DriverRegistration.FilterUsersExact | src/app/admin/driver-registration/page.tsx:116-119 | a user is listed exactly when it is a fetched user whose lower-cased email or present username contains the lower-cased search |
| DriverRegistration.EmptySearchKeepsAll | src/app/admin/driver-registration/page.tsx:114-119 | the empty search lists every user, in order |
| DriverRegistration.SearchIgnoresCase | src/app/admin/driver-registration/page.tsx:114-117 | lower-casing the search changes nothing |
| DriverRegistration.CleanedData | src/app/admin/driver-registration/page.tsx:154-156 | every kept entry is neither undefined nor `''` |
| DriverRegistration.CleanedDataExact | src/app/admin/driver-registration/page.tsx:155 | an entry is kept exactly when its value is neither undefined nor `''`; `false` entries are kept |
| DriverRegistration.DriverRegistrationPage.constructor | src/app/admin/driver-registration/page.tsx:41-48 | role `client`, empty lists and search, nothing being edited, no credentials |
| DriverRegistration.DriverRegistrationPage.FetchProfile | src/app/admin/driver-registration/page.tsx:67-74 | the role becomes the user's metadata role, `client` when absent or empty, and is kept on error |
| DriverRegistration.DriverRegistrationPage.FetchDriverUsers | src/app/admin/driver-registration/page.tsx:78-88 | success replaces the users and the shown list is re-filtered; an error keeps them |
| DriverRegistration.DriverRegistrationPage.FetchDrivers | src/app/admin/driver-registration/page.tsx:90-96 | success replaces the drivers; an error keeps them |
| DriverRegistration.DriverRegistrationPage.SetSearch | src/app/admin/driver-registration/page.tsx:113-121 | the shown users are the filter of the users by the new search |
| DriverRegistration.DriverRegistrationPage.OnCreateAuth | src/app/admin/driver-registration/page.tsx:123-146 | no call unless the role is admin or host_admin; otherwise a driver sign-up, then a user refetch on success |
| DriverRegistration.DriverRegistrationPage.OnSubmitDriver | src/app/admin/driver-registration/page.tsx:148-179 | no call unless a manager; the cleaned data updates row `editingId` when truthy and is inserted otherwise (0 inserts); success clears `editingId` and refetches, an error keeps it |
| DriverRegistration.DriverRegistrationPage.HandleEdit | src/app/admin/driver-registration/page.tsx:181-186 | the form now edits the given driver |
| DriverRegistration.DriverRegistrationPage.HandleDelete | src/app/admin/driver-registration/page.tsx:188-199 | no call unless a manager; otherwise the delete, then a refetch on success |
| DriverRegistration.DriverRegistrationPage.HandleGenerateCredentials | src/app/admin/driver-registration/page.tsx:202-216 | the credential request is issued whatever the role; the credentials are fetched only on success |
| DriverRegistration.DriverRegistrationPage.FetchCredentials | src/app/admin/driver-registration/page.tsx:98-106 | the driver's entry becomes the first row, or null on error or no rows; every other entry is unchanged |
| AccessBoard.Apply | src/app/admin/access-board/page.tsx:66-79 | an update never changes a record's id, email or username |
| AccessBoard.ListedAdmins | src/app/admin/access-board/page.tsx:31-35 | every listed record has role admin or host_admin |
| AccessBoard.ShowProtected | src/app/admin/access-board/page.tsx:178-188 | each record shows exactly one of Remove and the protected label |
| AccessBoard.ScreenFor | src/app/admin/access-board/page.tsx:100-102 | the board is shown exactly when someone is signed in, whatever their role |
| AccessBoard.AcceptOnlySetsStatus | src/app/admin/access-board/page.tsx:65-69 | accepting sets the status to `accepted` and nothing else; it is idempotent; an accepted record no longer offers Accept |
| AccessBoard.RemovedAdminLeavesList | src/app/admin/access-board/page.tsx:75-79 | a removed admin becomes an accepted client and is absent from any later listing |
| AccessBoard.UpdateWhere | src/app/admin/access-board/page.tsx:66-69 | an update `.eq('id', id)` patches exactly the rows with that id and leaves the other rows as they were |
| AccessBoard.DemotionDelists | src/app/admin/access-board/page.tsx:31-35 | listing after a demotion is the old listing without the demoted id: every other record stays, unchanged and in order |
| AccessBoard.AcceptanceKeepsListing | src/app/admin/access-board/page.tsx:65-69 | listing after an acceptance is the old listing with that id's records accepted: no record enters or leaves |
| AccessBoard.ButtonsAfterTransitions | src/app/admin/access-board/page.tsx:136-186 | a cleared form disables Register; a demoted record offers Remove but not Accept; a host_admin is never offered Remove |
| AccessBoard.AccessBoardPage.constructor | src/app/admin/access-board/page.tsx:23-26 | no session, no admins, empty form, not loading |
| AccessBoard.AccessBoardPage.SetSession | src/app/admin/access-board/page.tsx:85-98 | the current user is the session's user; a signed-in user triggers one `fetchAdmins`, after which the list is the admin and host_admin rows of the users table, or unchanged if the query fails; no user, no call |
| AccessBoard.AccessBoardPage.EditForm | src/app/admin/access-board/page.tsx:113-133 | the form holds the typed values |
| AccessBoard.AccessBoardPage.FetchAdmins | src/app/admin/access-board/page.tsx:31-39 | success replaces the list with the users table's admin and host_admin rows, in order; an error keeps it |
| AccessBoard.AccessBoardPage.AddAdmin | src/app/admin/access-board/page.tsx:41-63 | the sign-up carries the form with role `admin` and status `pending`; success clears the form and relists the users table, failure keeps the form and list; loading ends false |
| AccessBoard.AccessBoardPage.AcceptAdmin | src/app/admin/access-board/page.tsx:65-73 | writes the accept update for the id; on success the list is the listing of the updated table, which is the old listing with that id's records accepted; on failure nothing is refetched |
| AccessBoard.AccessBoardPage.RemoveAdmin | src/app/admin/access-board/page.tsx:75-83 | writes role `client`, status `accepted` whatever the role argument; on success the list is the listing of the updated table, which is the old listing without that id, so the demoted admin is no longer shown; on failure nothing is refetched |
| DriverHome.RowsOf | src/app/driver/page.tsx:43-47 | the selection holds table rows of the user and every table row of the user |
| DriverHome.DriverFor | src/app/driver/page.tsx:43-47 | `.single()`: a driver is found exactly when the user has exactly one row, and it is that row |
| DriverHome.SetAvailable | src/app/driver/page.tsx:63-66 | the update flips only the `available` field of rows with the id, and keeps the table's length |
| DriverHome.SetAvailableConcat | src/app/driver/page.tsx:63-66 | the update acts row by row |
| DriverHome.SetAvailableRowsOf | src/app/driver/page.tsx:63-72 | updating then selecting the user's rows equals selecting then updating |
| DriverHome.RefreshSeesToggle | src/app/driver/page.tsx:63-73 | after a successful write the refetch finds the same driver with the flag negated |
| DriverHome.DriverHomePage.constructor | src/app/driver/page.tsx:21-23 | no driver, loading, not toggling |
| DriverHome.DriverHomePage.FetchDriver | src/app/driver/page.tsx:30-57 | without a user the driver is kept; otherwise it becomes the user's single row, or null on failure; loading ends false on every path |
| DriverHome.DriverHomePage.ToggleAvailability | src/app/driver/page.tsx:59-76 | nothing happens without a driver; otherwise the negated flag is written for that id, `toggling` is true during the write and false after, and the driver is refetched only on success |
| BookingPopup.NewOrder | src/app/client/BookingPopup.tsx:62-79 | the order is pending, payment pending, paid 0, total null; the labour count is present exactly when labours are asked for; client, pickup, drop, the four coordinates, vehicle, purpose, size and the labours flag are the given ones |
| BookingPopup.BookingForm.constructor | src/app/client/BookingPopup.tsx:15-28 | the initial form values and null coordinates; no handler ever sets a coordinate |
| BookingPopup.BookingForm.GetUser | src/app/client/BookingPopup.tsx:33-41 | a signed-in user becomes the client |
| BookingPopup.BookingForm.EditFields | src/app/client/BookingPopup.tsx:110-155 | the inputs hold the typed values; the labour count is not range-checked |
| BookingPopup.BookingForm.HandleSubmit | src/app/client/BookingPopup.tsx:57-90 | no insert without a client; otherwise the new order record is inserted, close is requested exactly on success, loading ends false, and all four coordinates in the record are null |
| Locations.Matches | src/app/client/page.tsx:35-37 | every match is a suggested place whose lower-cased name includes the lower-cased input |
| Locations.MatchesExact | src/app/client/page.tsx:35-37 | a place is a match exactly when it is suggested and includes the input case-insensitively |
| Locations.MatchesIgnoreCase | src/app/client/page.tsx:36 | lower-casing the input changes nothing |
| Locations.SameNameAnyCase | src/app/client/page.tsx:36 | a place's own name, in any ASCII case, suggests it |
| ClientPage.DropSuggestions | src/app/client/page.tsx:32-42 | blank input gives none; otherwise the matches, or exactly the no-results sentinel |
| ClientPage.PickupSuggestions | src/app/client/page.tsx:43-54 | blank input gives none; otherwise the location sentinel followed by the matches, or exactly the no-results sentinel |
| ClientPage.SentinelsAreNotPlaces | src/app/client/page.tsx:11-20 | neither sentinel is a suggested place, and they differ |
| ClientPage.SuggestionsAreSentinelsOrPlaces | src/app/client/page.tsx:35-50 | every suggestion is a sentinel or a suggested place |
| ClientPage.PickupIsDropWithSentinel | src/app/client/page.tsx:38-49 | with matches, the pickup list is the drop list behind the location sentinel |
| ClientPage.LocationScreen.constructor | src/app/client/page.tsx:24-28 | empty fields and lists, popup closed |
| ClientPage.LocationScreen.HandlePickupInput | src/app/client/page.tsx:43-54 | the field takes the input, and the list is the pickup suggestions for it |
| ClientPage.LocationScreen.HandleDropInput | src/app/client/page.tsx:32-42 | the field takes the input, and the list is the drop suggestions for it |
| ClientPage.LocationScreen.ClickPickupSuggestion | src/app/client/page.tsx:113-116 | the location sentinel starts a lookup, the no-results sentinel keeps the field, a place fills it; the list is cleared |
| ClientPage.LocationScreen.ClickDropSuggestion | src/app/client/page.tsx:147-151 | the no-results sentinel keeps the field, anything else fills it; the list is cleared |
| ClientPage.LocationScreen.TriggerPopup | src/app/client/page.tsx:68-75 | the popup opens exactly when both fields are non-blank and differ exactly; equal non-blank fields raise the alert |
| ClientPage.NextVisibleAndDistinctOpens | src/app/client/page.tsx:164-166 | the popup can open exactly when Next is visible and the fields differ; a hidden Next never could |
| ClientPage.LocationScreen.PressNext | src/app/client/page.tsx:164-166 | pressing the visible Next opens the popup unless the fields are equal, which raises the alert |
| ClientPage.LocationScreen.HandleDropKey | src/app/client/page.tsx:136 | only Enter runs the popup trigger |
| ClientPage.LocationScreen.ClosePopup | src/app/client/page.tsx:185 | the popup is closed |
| ClientHome.HomeSuggestions | src/app/client/home/page.tsx:28-38 | blank input gives none; otherwise exactly the matches, possibly none, with no sentinel |
| ClientHome.ComparedWithClientPage | src/app/client/home/page.tsx:28-38 | for non-blank input, the list is the other screen's drop list when something matches and its pickup list minus the sentinel; with no match it is empty where the other screen shows no-results |
| ClientHome.BlankInputShowsNothing | src/app/client/home/page.tsx:30-37 | blank input empties the lists of both screens |
| ClientHome.HomeScreen.constructor | src/app/client/home/page.tsx:22-26 | empty fields and lists, popup closed |
| ClientHome.HomeScreen.HandleInput | src/app/client/home/page.tsx:28-38 | the chosen field always takes the input and its list the suggestions; the other field is untouched |
| ClientHome.HomeScreen.SelectSuggestion | src/app/client/home/page.tsx:73-76 | the field takes the chosen place and its list is cleared (same for the drop list, lines 104-107) |
| ClientHome.HomeScreen.TriggerPopup | src/app/client/home/page.tsx:40-44 | the popup opens exactly when both fields are non-blank; equal fields are allowed |
| ClientHome.HomeScreen.HandleDropKey | src/app/client/home/page.tsx:94 | only Enter runs the popup trigger |
| ClientHome.HomeScreen.ClosePopup | src/app/client/home/page.tsx:121 | the popup is closed |
| Counters.Decrement | src/app/client/home/BookingPopup.tsx:99 | `max(floor, l - 1)`: one less above the floor, the floor otherwise, never below it |
| Counters.Increment | src/app/client/home/BookingPopup.tsx:104 | strictly more, with no upper bound |
| Counters.DecrementUndoesIncrement | src/app/client/home/BookingPopup.tsx:99-104 | from the floor or above, minus after plus restores the count |
| HomeBookingPopup.StepBack | src/app/client/home/BookingPopup.tsx:44 | the previous index stays in range |
| HomeBookingPopup.StepForward | src/app/client/home/BookingPopup.tsx:49 | the next index stays in range: one on before the last entry, wrapping to 0 from it |
| HomeBookingPopup.StepsAreInverse | src/app/client/home/BookingPopup.tsx:44-49 | previous and next undo each other |
| HomeBookingPopup.ForwardTimes | src/app/client/home/BookingPopup.tsx:49 | any number of presses of next keeps the index in range |
| HomeBookingPopup.ForwardTimesAdds | src/app/client/home/BookingPopup.tsx:49 | a presses then b presses are a+b presses |
| HomeBookingPopup.ForwardTimesClimbs | src/app/client/home/BookingPopup.tsx:49 | before wrapping, k presses move k entries on |
| HomeBookingPopup.FullCycleReturns | src/app/client/home/BookingPopup.tsx:49 | pressing next once per entry returns to the start |
| HomeBookingPopup.HomeBookingForm.constructor | src/app/client/home/BookingPopup.tsx:16-20 | first size and vehicle, no purpose, no labours, count 1 |
| HomeBookingPopup.HomeBookingForm.Size | src/app/client/home/BookingPopup.tsx:47 | the shown size is one of the sizes |
| HomeBookingPopup.HomeBookingForm.ShownVehicle | src/app/client/home/BookingPopup.tsx:61-63 | the shown vehicle is one of the vehicles |
| HomeBookingPopup.HomeBookingForm.PreviousSize | src/app/client/home/BookingPopup.tsx:44 | the size index steps back within range |
| HomeBookingPopup.HomeBookingForm.NextSize | src/app/client/home/BookingPopup.tsx:49 | the size index steps forward within range |
| HomeBookingPopup.HomeBookingForm.PreviousVehicle | src/app/client/home/BookingPopup.tsx:58 | the vehicle index steps back within range |
| HomeBookingPopup.HomeBookingForm.NextVehicle | src/app/client/home/BookingPopup.tsx:67 | the vehicle index steps forward within range |
| HomeBookingPopup.HomeBookingForm.EditChoices | src/app/client/home/BookingPopup.tsx:73-90 | purpose and the labour box hold the chosen values |
| HomeBookingPopup.HomeBookingForm.RemoveLabour | src/app/client/home/BookingPopup.tsx:99 | the count decrements with floor 1 and so stays at least 1 |
| HomeBookingPopup.HomeBookingForm.AddLabour | src/app/client/home/BookingPopup.tsx:104 | the count rises by one |
| BookPage.BookScreen.constructor | src/app/client/book/page.tsx:8-14 | drop empty, popup closed, vehicle `Mini Truck`, size `BELOW 100 KG`, labour 1, no purpose |
| BookPage.BookScreen.SetDropLocation | src/app/client/book/page.tsx:30 | the drop field takes the input |
| BookPage.BookScreen.HandleDropKey | src/app/client/book/page.tsx:16-20 | the popup opens only on Enter with a non-blank drop location |
| BookPage.BookScreen.ClosePopup | src/app/client/book/page.tsx:45 | only `showPopup` changes, to false |
| BookPage.BookScreen.SetPurpose | src/app/client/book/page.tsx:71 | the purpose takes the chosen value |
| BookPage.BookScreen.RemoveLabour | src/app/client/book/page.tsx:82 | the count decrements with floor 0 (not 1 as in the home popup) and stays at least 0 |
| BookPage.BookScreen.AddLabour | src/app/client/book/page.tsx:87 | the count rises by one |

## Left out

- Backend semantics are left out: row-level security, triggers (the credential generation behind `generate_credentials`) and the auth service itself. Each call is a success/failure parameter or a given result.
- The backend's row order is not specified, so a `limit(1)` query is modelled as the first matching row in the table's order.
- `getPickupLocation` (`src/app/client/BookingPopup.tsx:45-55`) is defined but never invoked, so it is not modelled. The pickup coordinates therefore stay null, and every inserted order carries null coordinates.
- Geolocation callbacks, reverse geocoding (`src/utils/location.ts`), `setTimeout`, `alert`/`toast`, console output and router navigation are left out. They are foreign I/O; where a handler starts one, the method returns a flag.
- BookingPopup.BookingForm.EditFields: the labour count is an `int`. The source stores `Number(e.target.value)`, which can be `NaN` (an empty field) or a fraction, and `BookingPopup.NewOrder` would insert either; the model does not represent those values.
- Coordinates are Dafny `real`, not IEEE doubles. Nothing in the model computes with them.
- `toLowerCase` is modelled on ASCII letters only. Unicode case mapping is not modelled.
- Handlers are atomic steps. Interleavings of concurrent async handlers (a second click during `assignDriver`) are not modelled.
- The Next.js `matcher` configuration (`middleware.ts:31-37`) is left out. It decides which requests reach the middleware at all, and `Middleware.Decide` is the decision for a request that does.
- react-hook-form state is left out: field registration, validation, `reset()`, `setValue` in `handleEdit`. `DriverRegistration.DriverRegistrationPage.HandleEdit` models only `editingId`.
- `DriverRegistration.DriverRegistrationPage.FetchDriverUsers` treats a null `data` without error as a `Result` value; the source's `data || []` fallback is the caller's empty sequence.
- `Auth.SignUp` does not model the inserts' own errors, which the source ignores. The other auth operations are left out because they are single remote calls with no local logic: `signIn`, Google sign-in, `signOut`, `forgotPassword`, `resetPassword`.
- The subscription cleanup in `useAuth.tsx` and in the access board is left out.
- AccessBoard.AccessBoardPage.SetSession: React reruns the `currentUser` effect when the user object changes by reference. Each session event carries a new object, so the model refetches on every signed-in session update; it does not model a rerender that keeps the same object.
- AccessBoard.AccessBoardPage.AddAdmin: whether and when the sign-up creates a `users` row is decided by the backend. So the refetch reads a given table, not one derived from the sign-up.
- `BookPage.BookScreen`: the size and vehicle buttons have no handlers in the source, so no method changes those fields.
- The orders list page (`src/app/admin/orders/page.tsx`) is left out. It only runs two remote queries.
- These pages are left out because they are presentation only: history, profile, login and the landing page, plus the shared components.
- Cross-file workflow is left out. Assignment writes `assigned_driver_id`, while the checkpoint screen looks orders up by `driver_id`. So the two screens are modelled independently, and nothing connects an assignment to a checkpoint order.
