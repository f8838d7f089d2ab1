# Sunshine Sports client rules in Dafny

A Dafny model of the decision rules and state updates in the React client of the
Sunshine Sports Center. Students book venue time slots there and bundle their
reservations into orders. Teachers approve or reject those orders and manage
venues. The reservation and order lifecycle itself runs on the server. The client
files modelled here send requests, guard routes and forms, and keep small pieces
of page state. That client behaviour is what the model captures.

One Dafny module per client file:

| module | file | form |
|---|---|---|
| `Base` | shared | values: `Option`, `Outcome` (one network call), `Reply` (a `{success, message, data}` body), records, storage, decimal rendering |
| `Auth` | `src/contexts/AuthContext.jsx` | `Session` value + spec functions, class `AuthProvider` |
| `Routing` | `src/router/index.jsx` | functions: guards, route table, resolution |
| `AppRoutes` | `src/routes/Routes.jsx` | functions: the second route table and its navigation bar |
| `Menu` | `src/components/Layout/Header.jsx` | functions, plus the `push`-building method |
| `Orders` | `src/pages/OrderPage.jsx` | handler functions, class `OrderPage` for the list state |
| `Registration` | `src/pages/RegisterPage.jsx` | check functions, class `RegisterPage` |
| `RegisterRules` | `src/pages/Auth/RegisterPage.jsx` | functions: rule lists, phone pattern matcher, `onFinish` |
| `Booking` | `src/pages/VenueDetail.jsx` | selection functions, class `VenueDetail` |
| `VenuePage` | `src/pages/VenueDetailPage.jsx` | predicates, class `VenueDetailPage` |
| `VenueAdmin` | `src/pages/Teacher/VenueManagementPage.jsx` | access functions, class `VenueManagementPage` |
| `Activity` | `src/pages/ActivityPage.jsx` | functions: cards, chips, links |
| `ProfilePage` | `src/pages/Profile.jsx` | merge functions, class `Profile` |
| `Login` | `src/pages/LoginPage.jsx` | functions, class `LoginPage` |

Two entry points mount two different route tables:

- `src/main.jsx` wraps `AppRouter` (`src/router/index.jsx`, module `Routing`) in the `AuthProvider`. That table mounts `src/pages/Auth/LoginPage.jsx`, `src/pages/Auth/RegisterPage.jsx`, `HomePage`, `VenueDetailPage`, `OrderPage`, `PersonalPage`, `VenueManagementPage` and `NotFoundPage`, behind the two guards.
- `src/index.jsx` renders `AppRoutes` (`src/routes/Routes.jsx`, module `AppRoutes`) with no provider and no guard. That table mounts `HomePage`, `ActivityPage`, `OrderPage`, `Profile`, `src/pages/LoginPage.jsx`, `src/pages/RegisterPage.jsx` and `VenueDetail`. The pages under it read the token and the user from storage themselves.

The lemmas that follow a navigation use the table that mounts the page: `Login` and `Activity` link into `AppRoutes`; `Menu`, `VenuePage` and `VenueAdmin` link into `Routing`.

Modelling conventions:

- **Network calls.** Each call is an `Outcome` parameter: `Ok(body)` or `Fail(message)`. A handler returns the request it sent, or `None`, and any navigation target. When a handler refetches after a mutation, the refetch's outcome is a second parameter.
- **Browser storage.** `localStorage` is `Storage`, a map in which the `token` entry is text and the `user` entry is a JSON object (`Stored.Text` / `Stored.Json`). The JSON text itself is not modelled.
- **JavaScript truthiness.** It is written out: `""` is falsy, `null`/`undefined` is `None`, and a numeric id of `0` is falsy (`IdTruthy`).
- **Records.** JavaScript objects with string fields are `map<string, string>`. An absent key reads as `undefined`, which `Get` renders as `""`.
- **React.** State that a component updates step by step is a class whose methods change it (`modifies this`). Each such method states the whole new state. Pure decisions (guards, mappings, payloads) are functions whose lemmas relate them to one another and to the other modules.

Notes on how the code was read:

- **Order status strings.** The order page compares a status with the literal strings `approved` and `已提交` and shows every other value as rejected. Its two action buttons pass the decisions `approved` and `rejected`, and only `approved` becomes `approve: true` (`Orders.StatusTag`, `Orders.Actions`).
- **Role strings.** `src/pages/RegisterPage.jsx` registers the role as the label `学生`/`老师`. `src/pages/Auth/RegisterPage.jsx` sends `student`/`teacher`. The session normalises the labels on every fetch (`Auth.NormaliseRole`), and `Menu.TeacherLabelSignIn` shows that a `老师` user reaches the teacher pages.
- **Login error message.** `src/pages/LoginPage.jsx:32` shows the registration wording `注册失败，请检查网络` when a sign-in request fails. The model keeps the message as written (`Login.NetworkFailure`).
- **Sport id `0`.** In `src/pages/VenueDetail.jsx` a sport with `sid` 0 shows the reserve button (`===` comparison). The handler's truthiness guard then refuses it. `Booking.ButtonMeansAllowed` states exactly this.
- **Teacher order list.** `fetchTeacherOrders` stores `response.data || []`, the whole body, and not its `data` field as the reservation list does. The model takes the order list the reply yields as its input.

## Model

| member | source | states |
|---|---|---|
| Base.SetField | src/pages/RegisterPage.jsx:16-18 | `{...form, [name]: value}`: the named field takes the value, every other field keeps its value, and no other key appears |
| Base.PutToken | src/contexts/AuthContext.jsx:48 | writing the token makes it the stored token and leaves the stored user and every other entry unchanged |
| Base.Remove | src/contexts/AuthContext.jsx:32 | removing an entry deletes exactly that key and keeps every other entry |
| Base.NatToString | src/pages/ActivityPage.jsx:45 | the `${vid}` rendering is a non-empty string of digits without a leading zero (the JavaScript rendering agrees for ids up to `Number.MAX_SAFE_INTEGER`; see Left out) |
| Base.DecimalRoundTrip | src/pages/ActivityPage.jsx:45 | reading the rendered id back as a decimal number gives the id (for the JavaScript rendering: ids up to `Number.MAX_SAFE_INTEGER`) |
| Base.AfterListFetch | src/pages/ActivityPage.jsx:19-37 | a successful reply replaces the list with its `data`; a refused or failed call keeps it (also `fetchComments` of `src/pages/VenueDetail.jsx:47-63`) |
| Auth.NormaliseRole | src/contexts/AuthContext.jsx:22-26 | `学生` becomes `student`, `老师` becomes `teacher`, every other role is kept, and the result is never a label |
| Auth.NormaliseIdempotent | src/contexts/AuthContext.jsx:22-26 | normalising twice equals normalising once; `student` and `teacher` are fixed points |
| Auth.NormaliseUser | src/contexts/AuthContext.jsx:22-28 | the fetched user keeps its keys and every field but `role`, which is normalised |
| Auth.StartState | src/contexts/AuthContext.jsx:7-9 | the session starts with the stored token, no user and loading, and is consistent |
| Auth.FetchWithoutToken | src/contexts/AuthContext.jsx:38-40 | with no token the reply is irrelevant, user, token and storage stay, and loading ends |
| Auth.FetchSuccess | src/contexts/AuthContext.jsx:16-28 | a reply with a user (even one missing name or role) sets the normalised user, keeps token and storage, ends loading |
| Auth.FetchFailure | src/contexts/AuthContext.jsx:30-36 | a failed call or a reply without a user removes the stored token, clears token and user, keeps the stored user, ends loading |
| Auth.LoginSuccess | src/contexts/AuthContext.jsx:47-51 | after `login(t)` with a user in the reply, token and stored token are `t` and the user is the normalised reply |
| Auth.LogoutClears | src/contexts/AuthContext.jsx:53-63 | logout clears token, user and the stored token whatever the request did, and keeps other storage |
| Auth.TransitionsKeepConsistent | src/contexts/AuthContext.jsx:11-63 | fetch, login and logout keep the invariant: token mirrors storage, a user implies a token, a held role is canonical |
| Auth.AuthProvider.constructor | src/contexts/AuthContext.jsx:7-9 | the provider's state is the start state of its storage |
| Auth.AuthProvider.FetchUserInfo | src/contexts/AuthContext.jsx:11-41 | requests exactly when a token is present; the new state is the fetch transition of the old |
| Auth.AuthProvider.Login | src/contexts/AuthContext.jsx:47-51 | requests exactly for a non-empty token; the new state is the login transition of the old |
| Auth.AuthProvider.Logout | src/contexts/AuthContext.jsx:53-63 | the new state is the logout transition of the old, for any outcome of the request |
| Routing.PrivateRoute | src/router/index.jsx:34-39 | the page is shown iff a token is present, otherwise a redirect to `/login` |
| Routing.TeacherRoute | src/router/index.jsx:25-31 | shown iff a token is present and the role is `teacher`; passing it implies passing the private guard |
| Routing.VenueParam | src/router/index.jsx:48 | a matched `:vid` is one non-empty segment with the path equal to `/venue/` + `vid` |
| Routing.RouteTable | src/router/index.jsx:43-62 | `/login`, `/register` open; `/home`, `/orders`, `/personal` private; `/teacher/venues` teacher-only; `/` to `/home`; every other path that is not `/venue/:vid` is NotFound |
| Routing.VenueRoute | src/router/index.jsx:48 | every single-segment id after `/venue/` selects the private venue page with that id |
| Routing.Resolve | src/router/index.jsx:20-22 | while the session loads nothing is resolved |
| Routing.GuardsHold | src/router/index.jsx:25-62 | a page needing login is shown only with a token; the management page only to a teacher with a token |
| Routing.SignedInReachesPages | src/router/index.jsx:34-56 | with a token every private route is shown; a teacher also sees the management page |
| AppRoutes.ViewTable | src/routes/Routes.jsx:73-81 | `/`, `/activity`, `/orders`, `/profile`, `/login`, `/register` open their pages unguarded; every other path that is not `/venue/:id` renders nothing |
| AppRoutes.VenuePathView | src/routes/Routes.jsx:80 | every single-segment id after `/venue/` opens the venue view with that `:id` |
| AppRoutes.NavLinks | src/routes/Routes.jsx:20-68 | a stored user gets the activity, order and profile links; anybody else gets the login and register links |
| AppRoutes.NavLinksLead | src/routes/Routes.jsx:28-81 | every link of the bar, and the brand link `/`, opens a page of the table |
| Menu.Items | src/components/Layout/Header.jsx:24-41 | no user gets no menu; everyone else starts with `/home`, `/orders`, `/personal`; four items iff teacher, the fourth being `/teacher/venues` |
| Menu.GetMenuItems | src/components/Layout/Header.jsx:24-41 | the `push`-building method returns exactly `Items(user)` |
| Menu.RoleName | src/components/Layout/Header.jsx:45-49 | `student`→`学生`, `teacher`→`老师`, others unchanged; the label normalises to the same role |
| Menu.LabelRoundTrip | src/components/Layout/Header.jsx:45-49 | a label normalised by the session is shown as the same label |
| Menu.HandleMenuClick | src/components/Layout/Header.jsx:15-22 | key `logout` logs out and goes to `/login`; any other key navigates to itself |
| Menu.MenuLeadsToPages | src/components/Layout/Header.jsx:29-37 | for a signed-in session every menu item leads to a shown page, never a redirect or NotFound |
| Menu.TeacherLabelSignIn | src/components/Layout/Header.jsx:35-38 | a user whose role arrives as `老师` gets the management item and the management page after sign-in |
| Orders.Rids | src/pages/OrderPage.jsx:84 | the rid list has the reservations' length and each position holds that reservation's `rid` |
| Orders.HandleCreateOrder | src/pages/OrderPage.jsx:78-90 | an empty list sends nothing (the button's disabled state); otherwise one request with every `rid` in order, reload after success |
| Orders.ApproveFlag | src/pages/OrderPage.jsx:96 | `approve` is true exactly for the string `approved`, so the reject button's `rejected` sends `false` (`Orders.Actions`) |
| Orders.HandleApproveOrder | src/pages/OrderPage.jsx:93-107 | one request `{oid, approve}` with the flag above, reload iff the call succeeds |
| Orders.HandleDeleteReservation | src/pages/OrderPage.jsx:63-75 | the request names the given reservation id, reload iff the call succeeds; `Orders.DeleteButtonsMatchRows` ties it to the table rows |
| Orders.DeleteButtons | src/pages/OrderPage.jsx:113-128 | one delete button per reservation row, row i calling the handler with that row's `rid` |
| Orders.DeleteButtonsMatchRows | src/pages/OrderPage.jsx:84-128 | row i's delete request removes position i of the rid list, an id the create-order request would also carry; reload iff the call succeeds |
| Orders.StatusTag | src/pages/OrderPage.jsx:154-157 | three-way total map: `approved`→已通过/success, `已提交`→待审批/processing, everything else→已拒绝/error |
| Orders.ShowsActions | src/pages/OrderPage.jsx:163-164 | actions are offered iff the status is `已提交`, iff the tag reads pending |
| Orders.Actions | src/pages/OrderPage.jsx:160-185 | no action for an order whose tag is not pending; otherwise exactly approve (`approve: true`) and reject (`approve: false`) for that row's `oid` |
| Orders.LoadFor | src/pages/OrderPage.jsx:52-60 | with a token a student loads reservations, a teacher loads orders, any other role neither |
| Orders.Render | src/pages/OrderPage.jsx:188-251 | spinner iff loading; after loading no user renders nothing, a student gets the reservations with create disabled iff empty, any other signed-in role gets the order view of the orders (a role neither student nor teacher starts no fetch, so on the page `loading` stays true and the spinner stays) |
| Orders.OrderPage.constructor | src/pages/OrderPage.jsx:15-17 | starts loading with both lists empty |
| Orders.OrderPage.FetchStudentReservations | src/pages/OrderPage.jsx:26-36 | a reply replaces the reservation list (`[]` when missing), a failure keeps it; loading ends either way |
| Orders.OrderPage.FetchTeacherOrders | src/pages/OrderPage.jsx:39-50 | the same for the order list |
| Registration.AnyEmptyFields | src/pages/RegisterPage.jsx:22 | some required field is empty iff one of name, phone, password, confirmPassword is falsy |
| Registration.Check | src/pages/RegisterPage.jsx:21-29 | the empty-field error iff a field is empty; the mismatch error iff all are filled and the two passwords differ; no error otherwise |
| Registration.Payload | src/pages/RegisterPage.jsx:31-36 | the request carries exactly name, phone, password, role and never the confirmation |
| Registration.DefaultRole | src/pages/RegisterPage.jsx:12 | an untouched form registers role `学生`, which the session reads as `student` |
| Registration.CheckedBeforeSending | src/pages/RegisterPage.jsx:20-29 | a failing check's message is the error whatever the server would answer; the empty-field check wins |
| Registration.RegisterPage.constructor | src/pages/RegisterPage.jsx:7-14 | the initial form (role `学生`) and no error |
| Registration.RegisterPage.HandleChange | src/pages/RegisterPage.jsx:16-18 | only the named field changes |
| Registration.RegisterPage.HandleSubmit | src/pages/RegisterPage.jsx:20-46 | the error is cleared and then set by the checks or the reply; sent iff the checks pass; `/login` iff sent and the reply succeeds |
| RegisterRules.MatchesAt | src/pages/Auth/RegisterPage.jsx:60 | an anchored fixed-width pattern matches iff lengths agree and each character is in its position's class |
| RegisterRules.PhonePatternMeans | src/pages/Auth/RegisterPage.jsx:60 | `^1[3-9]\d{9}$` matches iff 11 characters, first `1`, second 3–9, the rest digits |
| RegisterRules.FieldErrors | src/pages/Auth/RegisterPage.jsx:49-104 | a field passes iff it is filled and its format holds; an empty field reports only its `required` message |
| RegisterRules.AcceptedMeans | src/pages/Auth/RegisterPage.jsx:49-104 | the form is accepted iff name filled, phone valid, password at least 6, confirmation equal to password, role filled |
| RegisterRules.EmptyConfirmation | src/pages/Auth/RegisterPage.jsx:81-91 | an empty confirmation passes the custom validator and is reported once, by `required` |
| RegisterRules.Payload | src/pages/Auth/RegisterPage.jsx:19-24 | the request carries exactly name, phone, password and role |
| RegisterRules.Submit | src/pages/Auth/RegisterPage.jsx:15-37 | submits iff accepted, with that payload; `/login` iff the request succeeds |
| RegisterRules.SelectedRoleIsCanonical | src/pages/Auth/RegisterPage.jsx:96-104 | a role picked from the select is `student` or `teacher` and normalisation keeps it |
| Booking.Select | src/pages/VenueDetail.jsx:192-195 | one click sets the sport and the slot together |
| Booking.ButtonFollowsClick | src/pages/VenueDetail.jsx:192-202 | after a click the reserve button shows under the clicked sport and no other |
| Booking.AtMostOneButton | src/pages/VenueDetail.jsx:202 | with distinct sport ids at most one reserve button is visible |
| Booking.ButtonMeansAllowed | src/pages/VenueDetail.jsx:95-98 | a visible reserve button passes the handler's guard iff the sport id is not 0 |
| Booking.Reserve | src/pages/VenueDetail.jsx:94-126 | a missing sport or slot sends nothing; otherwise `{venueId, sportId, timeSlot}`; only a successful reply clears the selection |
| Booking.ReserveKeepsSelectionWhole | src/pages/VenueDetail.jsx:115-121 | the selection after an attempt is either unchanged or fully cleared, and its slot stays one of the four |
| Booking.CommentRequestFor | src/pages/VenueDetail.jsx:65-80 | no stored user sends nothing; otherwise the venue id, the draft as it is, and `userId` equal to the stored user's `uid` (absent iff it has none) |
| Booking.VenueDetail.constructor | src/pages/VenueDetail.jsx:17-20 | nothing selected, empty draft, no comments |
| Booking.VenueDetail.SelectSlot | src/pages/VenueDetail.jsx:188-195 | the selection becomes the clicked pair, the slot one of the four |
| Booking.VenueDetail.HandleReserve | src/pages/VenueDetail.jsx:94-126 | sends and updates the selection as `Reserve` says; the comment state is untouched |
| Booking.VenueDetail.SetNewComment | src/pages/VenueDetail.jsx:246 | only the draft changes |
| Booking.VenueDetail.FetchComments | src/pages/VenueDetail.jsx:47-63 | the comments become `Base.AfterListFetch` of the old ones: replaced on success, kept otherwise |
| Booking.VenueDetail.HandleAddComment | src/pages/VenueDetail.jsx:65-92 | sends `CommentRequestFor`; after success the draft is cleared and the list refetched, otherwise nothing changes |
| VenuePage.AuthRedirect | src/pages/VenueDetailPage.jsx:50-54 | after loading, a missing token redirects to `/login` |
| VenuePage.AuthRedirectAgreesWithGuard | src/pages/VenueDetailPage.jsx:50-54 | after loading the page redirects iff the router's `PrivateRoute` does, to the same place, and otherwise the router shows this page |
| VenuePage.CommentAuthor | src/pages/VenueDetailPage.jsx:191 | the author is the user's name when non-empty, otherwise `用户 ` followed by the rendered user id; never empty |
| VenuePage.AuthorNamesUser | src/pages/VenueDetailPage.jsx:191 | the fallback author's id part reads back as the comment's user id (for the JavaScript rendering: ids up to `Number.MAX_SAFE_INTEGER`) |
| VenuePage.VenueDetailPage.constructor | src/pages/VenueDetailPage.jsx:44-47 | nothing in flight, the given comments |
| VenuePage.VenueDetailPage.BeginBook | src/pages/VenueDetailPage.jsx:81-93 | called with one of the four `timeSlots` (lines 48, 142-147), it sends a request `{venueId, sportId, timeSlot}` with that slot iff the user is a student, so every click on an enabled slot sends; `bookingLoading` is then set and the slot buttons are disabled |
| VenuePage.VenueDetailPage.FinishBook | src/pages/VenueDetailPage.jsx:97-99 | loading ends whatever the reply |
| VenuePage.VenueDetailPage.HandleCommentSubmit | src/pages/VenueDetailPage.jsx:102-122 | sent iff text non-empty and a user; success appends the reply at the end and keeps the earlier comments in order |
| VenueAdmin.AccessDecision | src/pages/Teacher/VenueManagementPage.jsx:24-30 | after loading, no token or a non-teacher is redirected; a teacher with a token fetches venues; otherwise it waits |
| VenueAdmin.AccessAgreesWithGuard | src/pages/Teacher/VenueManagementPage.jsx:25-29 | after loading the page redirects exactly when the router's teacher guard does, and fetches exactly when it shows the page |
| VenueAdmin.TableOnlyForTeachers | src/pages/Teacher/VenueManagementPage.jsx:24-30 | when the table shows (line 178) the user is a teacher after loading, and the effect is fetching the venues (with a token) or redirecting to `/login` (without) |
| VenueAdmin.NormaliseVenue | src/pages/Teacher/VenueManagementPage.jsx:37 | every field kept; a missing sports list becomes `[]`, a present one is kept |
| VenueAdmin.NormaliseVenues | src/pages/Teacher/VenueManagementPage.jsx:37 | the list is mapped venue by venue, same length and order |
| VenueAdmin.NormaliseVenuesIdempotent | src/pages/Teacher/VenueManagementPage.jsx:37 | every normalised venue has a sports list, and normalising again changes nothing |
| VenueAdmin.VenueRequestFor | src/pages/Teacher/VenueManagementPage.jsx:76-84 | an edited venue is updated by its `vid`, otherwise a venue is created, with the form's values |
| VenueAdmin.VenueManagementPage.constructor | src/pages/Teacher/VenueManagementPage.jsx:15-20 | loading, no venues, modals closed, nothing edited |
| VenueAdmin.VenueManagementPage.FetchVenues | src/pages/Teacher/VenueManagementPage.jsx:33-43 | a listed reply replaces the venues normalised; otherwise they stay; loading ends |
| VenueAdmin.VenueManagementPage.FetchSports | src/pages/Teacher/VenueManagementPage.jsx:46-53 | asks `/sport/list` for exactly the given `venueId`; a reply replaces the sports (`[]` when missing), a failure keeps them |
| VenueAdmin.VenueManagementPage.HandleEdit | src/pages/Teacher/VenueManagementPage.jsx:55-62 | the venue modal opens on the given venue (or none) |
| VenueAdmin.VenueManagementPage.HandleEditSports | src/pages/Teacher/VenueManagementPage.jsx:65-74 | fetches iff the venue has a truthy `vid`, and then asks for that venue's `vid`; otherwise clears the sports; the sport modal opens |
| VenueAdmin.VenueManagementPage.OnFinish | src/pages/Teacher/VenueManagementPage.jsx:76-90 | a form passing its rules sends update-or-create; after success the modal closes, loading ends, and the venues are the reload's list normalised, or unchanged when the reload gives none |
| VenueAdmin.VenueManagementPage.HandleDelete | src/pages/Teacher/VenueManagementPage.jsx:92-100 | sends `DeleteVenue(venueId)`; after success loading ends and the venues are the reload's list normalised, or unchanged when it gives none; after failure nothing changes |
| VenueAdmin.VenueManagementPage.OnSportFinish | src/pages/Teacher/VenueManagementPage.jsx:102-125 | no edited venue with a truthy `vid` sends nothing; otherwise `{name, venueId}`, and after success (and only then) a refetch that asks for the edited venue's `vid` |
| VenueAdmin.VenueManagementPage.HandleDeleteSport | src/pages/Teacher/VenueManagementPage.jsx:132-141 | sends `DeleteSport(sportId)`; after success the edited venue's sports are refetched, asking for that venue's `vid` as it is; with a failure or without an edited venue no refetch and nothing changes |
| Activity.CardFor | src/pages/ActivityPage.jsx:82-100 | the badge is the number of sports, at most three chips, an overflow label iff more than three |
| Activity.CardAccountsForEverySport | src/pages/ActivityPage.jsx:91-100 | the chips are the first sports in order, and chips plus `N` equal the number of sports |
| Activity.Render | src/pages/ActivityPage.jsx:66-106 | the empty state iff no venues, otherwise one card per venue in order |
| Activity.RenderAfterFetch | src/pages/ActivityPage.jsx:19-106 | a refused or failed search leaves the rendered body unchanged; a successful one shows the empty state iff nothing was found, otherwise one card per venue found, in order |
| Activity.VenueLink | src/pages/ActivityPage.jsx:44-46 | the link is `/venue/` followed by the rendered id |
| Activity.VenueLinkRoutes | src/pages/ActivityPage.jsx:44-46 | a card's link opens the venue view of `src/routes/Routes.jsx` for that venue, and its segment reads back as the id (for the JavaScript rendering: ids up to `Number.MAX_SAFE_INTEGER`) |
| ProfilePage.InitialForm | src/pages/Profile.jsx:7-13 | the form holds exactly name, phone, identity, each from the stored user or `""` |
| ProfilePage.Merge | src/pages/Profile.jsx:36 | `{...user, ...form}`: the form's fields win, every other user field stays |
| ProfilePage.SavedFormReloads | src/pages/Profile.jsx:7-37 | the saved user, opened again, shows exactly the saved form |
| ProfilePage.UneditedSaveKeepsUser | src/pages/Profile.jsx:7-37 | saving an untouched form changes no field the user had |
| ProfilePage.Profile.constructor | src/pages/Profile.jsx:7-15 | the form from the stored user, no message |
| ProfilePage.Profile.HandleChange | src/pages/Profile.jsx:17-19 | only the named field changes |
| ProfilePage.Profile.HandleUpdate | src/pages/Profile.jsx:21-45 | success stores the merged user; a refusal or a failure leaves storage and sets the matching message |
| ProfilePage.Profile.HandleLogout | src/pages/Profile.jsx:47-71 | success removes token and user and goes to `/login`; otherwise storage stays and a message is set |
| ProfilePage.LogoutEmptiesSession | src/pages/Profile.jsx:59-63 | after the removals no token and no user are stored, other entries stay |
| Login.SubmitError | src/pages/LoginPage.jsx:15-34 | an empty field's message wins; then `""`, the server's message, or the network message |
| Login.SignedIn | src/pages/LoginPage.jsx:24-25 | the token and the user are stored; every other entry stays |
| Login.SignInFeedsSession | src/pages/LoginPage.jsx:24-26 | after sign-in `/` is the home page of `src/routes/Routes.jsx`, and the bar read from the storage left behind offers the signed-in links, each opening a page |
| Login.LoginPage.constructor | src/pages/LoginPage.jsx:7-8 | empty phone and password, no error |
| Login.LoginPage.HandleChange | src/pages/LoginPage.jsx:10-12 | only the named field changes |
| Login.LoginPage.HandleSubmit | src/pages/LoginPage.jsx:15-34 | error as `SubmitError`; sent iff both fields filled; success stores token and user and goes to `/`; otherwise storage stays |

## Left out

- The reservation → order approval lifecycle is enforced by the server: statuses, snapshots, atomic submission, uniqueness. The client only posts `{ reservations }` and `{ oid, approve }`, and no client transition is invented here.
- HTTP transport is replaced by outcome parameters: `src/services/api.js` (its Bearer header and its 401 redirect), `src/api/user.js` and every `fetch`/`api.*` call.
- Toasts, alerts and console output are left out. A message counts only where it is stored in page state (`error`, `message`).
- React scheduling is reduced to sequential handler steps. In `AuthContext.login` the direct `fetchUserInfo()` call sees the previous token through its closure. The model keeps only the effect-driven fetch with the new token (`Auth.AfterLogin`).
- Auth.AuthProvider.FetchUserInfo: a reply without a user object is taken straight to the failure path. In the source it first reaches the `.role` access and faults there.
- The route matching of React Router is modelled on exact strings. Case-insensitive matching, trailing slashes and percent-decoding are not modelled.
- JSON serialisation is not modelled. Stored users are records, so a stored `undefined` token (`res.data.data.token` missing) is not distinguished.
- Rendering is modelled only as the decisions above: markup, modal titles, table columns and the fixed rating and date texts of `src/pages/VenueDetail.jsx:149,232`.
- `fetchVenueDetail` in `src/pages/VenueDetail.jsx:29-45` and `fetchDetails` in `src/pages/VenueDetailPage.jsx:56-79` only fill display data, so neither is modelled.
- The `loading` flag of the antd form in `src/pages/Auth/RegisterPage.jsx:12-36` only drives the button's spinner, so it is not modelled.
- The redirect effect of `src/pages/OrderPage.jsx:19-23` is not modelled. It has the same shape as `VenuePage.AuthRedirect`.
- The venue and sport forms' contents (`form.setFieldsValue`, `resetFields`) are not tracked. Only the values handed to `onFinish` are.
- The validator library that applies the form rules is not part of this model. `RegisterRules.MinPasswordLength` is compared with the number of Dafny characters (code points), and `VenuePage.CommentAuthor`'s `|author| > 3` counts code points too, where a JavaScript `length` counts UTF-16 code units.
- VenuePage.VenueDetailPage.HandleCommentSubmit: appends the comment the reply carries. The source appends `newComment.data`, the whole `{success, message, data}` body (`src/pages/VenueDetailPage.jsx:115`), where the list reads `.data.data` elsewhere (lines 64-67). The model does not capture the entry that body then renders as.
- Base.NatToString, Base.DecimalRoundTrip, Activity.VenueLinkRoutes, VenuePage.AuthorNamesUser: the ids `vid` and `userId` are modelled as unbounded naturals rendered as exact decimal digits. A JavaScript number is a double, and `${n}` prints the same digits only up to `Number.MAX_SAFE_INTEGER` (2^53 - 1); above it the digits are rounded (`${2**64}` is `18446744073709552000`), and from 1e21 on it uses exponent form. The rendering and read-back claims therefore hold for the source only for ids up to that bound.
- AppRoutes.NavLinks: the bar is computed from storage when `AppRoutes` renders. The model does not capture that a bar already on screen keeps the links it read, after a sign-in or a logout, until the table is mounted again.
- These files are not part of this model because they are thin or purely presentational: `src/App.jsx`, `src/pages/NotFoundPage.jsx`, `src/hooks/useAuth.js`, `src/pages/HomePage.jsx`, `src/pages/PersonalPage.jsx` and `src/pages/Auth/LoginPage.jsx`. The entry points `src/main.jsx` and `src/index.jsx` appear only in the mounting description above.
