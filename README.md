# Agency Portal: roles, route guard and the invite lifecycle, in Dafny

The portal is a React single-page application on a hosted auth-and-database
service, plus one edge function. A super admin issues an invite from a modal:
the modal stores a row in the `invites` table and hands out a link carrying
the row's token. The invitee opens the link; the account-creation page checks
the token (present, unused, not expired) and creates the account for the
invite's email. Then it signs the user in and routes them by the role of
their profile. The login page does the same routing for returning users. A
route table and a guard decide which dashboard each signed-in profile may
see. The edge function `send-invite-email` checks that the caller is a super
admin before it hands an invite email to the email provider.

This project models that core:

- `roles.dfy`: the role constants and access rules. `is_active` is kept as
  a JavaScript value, so `=== true` and truthiness can differ where the
  source uses each.
- `protected_route.dfy`: the guard's ordered decision.
- `app_routes.dfy`: the route table, read through the guard.
- `backend.dfy`: the two tables as state of a `Db` class. The answers the
  hosted service gives on its own are parameters: insert errors, sign-up and
  sign-in results, the session, the caller of the edge function.
- `invite_modal.dfy`: the modal as a class whose submit handler inserts the
  row, maps the error, builds the link and resets the form.
- `create_account.dfy`: the account-creation page as a class with its token
  validation and submit handler.
- `login.dfy`: the login page as a class with its session check and login
  handler.
- `invite_email.dfy`: the edge function's ordered checks, the email's text
  pieces, and the response.
- `journeys.dfy`: lemmas that cross pages. They cover where each page sends
  a user, and how an issued link is later validated.
- `text.dfy`: the JavaScript string operations the code relies on: `trim`,
  ASCII `toLowerCase`/`toUpperCase`, `includes`, first-occurrence
  `replace`, `split`/`join`, and decimal rendering.
- `wrappers.dfy`: `Option`.

Time is an integer number of milliseconds. What the components ask of the
outside world is recorded as sequences on their objects, oldest first: the
modal's calls to its parent; both pages' navigations and auth calls
(sign-up and sign-in on the account-creation page, sign-in on the login
page); and the login page's profile lookups. The account-creation page's
profile query is not recorded: its answer is read from the `Db` argument.

Behaviour of the code worth knowing, which the model keeps:

- No step ever sets an invite's `used` flag. Account creation leaves the
  invites table untouched (`CreateAccount.Page.ValidateToken` and
  `CreateAccount.Page.HandleSubmit` both ensure `unchanged(db)`). A token
  therefore stays valid until it expires.
- The edge function reports each failed check with its own message rather
  than one undifferentiated "Unauthorized". It checks only the caller's
  role, not `is_active` (`InviteEmail.InactiveSuperAdminPasses`).
- The modal never calls the email function. A delivery failure therefore
  cannot reach it.
- At most one usable invite per email is left to a database constraint the
  code does not show. The code only maps error code `23505`.

## Model

| member | source | states |
|---|---|---|
| Roles.RolesDistinct | src/utils/roleHelpers.js:2-6 | the three role names are pairwise different |
| Roles.HasRole | src/utils/roleHelpers.js:9-11 | the profile is present, active, and holds the given role |
| Roles.IsSuperAdmin | src/utils/roleHelpers.js:14-16 | iff the profile is active with role `super_admin` |
| Roles.IsAdmin | src/utils/roleHelpers.js:19-21 | iff the profile is active with role `admin` |
| Roles.IsClient | src/utils/roleHelpers.js:24-26 | iff the profile is active with role `client` |
| Roles.IsAdminOrAbove | src/utils/roleHelpers.js:29-31 | iff the profile is active with role `super_admin` or `admin` |
| Roles.CanManageUsers | src/utils/roleHelpers.js:34-36 | iff the profile is an active super admin |
| Roles.CanManageClients | src/utils/roleHelpers.js:39-44 | iff the profile is an active super admin, whatever the client id |
| Roles.CanManageCalendar | src/utils/roleHelpers.js:47-59 | iff the profile is active and is staff, or is a client whose own id is the target |
| Roles.CanCreateTasks | src/utils/roleHelpers.js:62-64 | iff the profile is an active super admin or admin |
| Roles.CanViewTask | src/utils/roleHelpers.js:67-72 | iff the profile is active and is a super admin, the admin who created the task, or the client it is assigned to |
| Roles.HasRoleExactly | src/utils/roleHelpers.js:9-11 | `hasRole` holds iff the profile is present, has that role and `is_active` is exactly `true`; null or a truthy non-boolean `is_active` gives false |
| Roles.AtMostOneRole | src/utils/roleHelpers.js:14-26 | no profile is two of super admin, admin, client at once |
| Roles.InactiveDeniedEverywhere | src/utils/roleHelpers.js:9-72 | a missing or inactive profile is denied by every derived rule, whatever the other arguments |
| Roles.AdminOrAboveExactly | src/utils/roleHelpers.js:29-31 | admin-or-above iff active super_admin or active admin; a client never qualifies |
| Roles.ManageIsSuperAdmin | src/utils/roleHelpers.js:34-44 | managing users and managing clients are each equivalent to being super admin; the client id never changes the answer |
| Roles.CalendarRule | src/utils/roleHelpers.js:47-59 | staff manage every calendar; a client manages a calendar iff its target id is the client's own; only active profiles manage any |
| Roles.CreateTasksIsAdminOrAbove | src/utils/roleHelpers.js:62-64 | creating tasks is granted exactly to admins and above |
| Roles.ViewTaskRule | src/utils/roleHelpers.js:67-72 | super admins see every task, admins iff they created it, clients iff it is assigned to them, nobody else any |
| ProtectedRoute.Decide | src/components/ProtectedRoute.jsx:5-30 | the guard only ever redirects to `/login` or `/unauthorized` |
| ProtectedRoute.LoadingShowsSpinner | src/components/ProtectedRoute.jsx:9-11 | while loading the spinner shows, whatever else holds |
| ProtectedRoute.UnauthenticatedGoesToLogin | src/components/ProtectedRoute.jsx:14-16 | not signed in redirects to `/login` before the active and role checks |
| ProtectedRoute.InactiveGoesToUnauthorized | src/components/ProtectedRoute.jsx:19-21 | a profile with a falsy `is_active` is sent to `/unauthorized` even when its role is admitted |
| ProtectedRoute.RoleOutsideListGoesToUnauthorized | src/components/ProtectedRoute.jsx:24-28 | with a non-empty role list, no profile or a role outside it is sent to `/unauthorized` |
| ProtectedRoute.RendersExactlyWhen | src/components/ProtectedRoute.jsx:5-30 | the page renders iff not loading, signed in, profile absent or truthily active, and the list empty or holding the role |
| ProtectedRoute.EmptyListAdmitsAnySignedIn | src/components/ProtectedRoute.jsx:24-30 | with no role list every signed-in user whose profile is absent or truthily active is admitted, including one without a profile |
| ProtectedRoute.GuardLooserThanRoleRules | src/components/ProtectedRoute.jsx:19-21 | a truthy non-boolean `is_active` passes the guard although `hasRole` denies the same profile |
| AppRoutes.Visit | src/App.jsx:22-61 | a visit shows a page, the spinner (only while loading) or a redirect to `/login` or `/unauthorized`; a guarded page shows only to a loaded, signed-in user |
| AppRoutes.RouteFor | src/App.jsx:22-61 | every unlisted path is the redirect to `/login`; each guarded route admits exactly one role |
| AppRoutes.PublicPagesUnguarded | src/App.jsx:23-25 | login, create-account and unauthorized pages show for any auth state |
| AppRoutes.DashboardsAdmitOneRole | src/App.jsx:28-55 | each dashboard shows for an active profile of its role and redirects every other role to `/unauthorized` |
| AppRoutes.SuperAdminKeptOutOfOtherDashboards | src/App.jsx:38-55 | a super admin is redirected away from the admin and client dashboards |
| AppRoutes.UnlistedPathsGoToLogin | src/App.jsx:58-61 | `/` and every path the table does not list redirect to `/login` |
| Backend.UnusedInvite | src/pages/CreateAccountPage.jsx:35-40 | the lookup by token and `used = false` finds a row iff one with that token is stored unused, and then returns that row |
| Backend.ProfileById | src/pages/LoginPage.jsx:27-31 | the profile lookup finds a row iff one is stored for that id, and then returns that row |
| Backend.Db.Insert | src/components/InviteUserModal.jsx:30-43 | a refused insert leaves the table as it was; an accepted one stores the row under its token |
| Text.TrimDropsOnlyWhitespace | src/components/InviteUserModal.jsx:34 | `trim` drops only whitespace, at either end, and keeps the middle unchanged |
| Text.Trim | src/components/InviteUserModal.jsx:34 | `trim` leaves no whitespace at either end and never lengthens the string |
| Text.TrimOfTrimmed | src/components/InviteUserModal.jsx:34 | `trim` leaves a trimmed string alone |
| Text.ToLower | src/components/InviteUserModal.jsx:34 | `toLowerCase` keeps the length, lower-cases each character in place, and leaves no upper-case letter |
| Text.ToLowerOfLower | src/components/InviteUserModal.jsx:34 | a string without upper-case letters is its own lower-case form |
| Text.Contains | src/pages/LoginPage.jsx:80 | `includes` finds nothing longer than the string, and always finds the empty string |
| Text.ContainsIffOccurs | src/pages/LoginPage.jsx:80 | `includes` finds `sub` iff `sub` occurs in the string at some index |
| Text.ContainsInfix | src/pages/LoginPage.jsx:80 | `includes` finds any infix a string was built from |
| Text.ReplaceFirst | supabase/functions/send-invite-email/index.ts:87 | `replace` rewrites exactly the first occurrence and nothing else |
| Text.ReplaceFirstSplits | supabase/functions/send-invite-email/index.ts:87 | the text before the first occurrence and all text after it are kept |
| Text.Split | supabase/functions/send-invite-email/index.ts:88 | `split` gives at least one part and no part holds the separator |
| Text.Join | supabase/functions/send-invite-email/index.ts:90 | `join` starts with the first part and, when no part holds the separator, holds it iff there were two parts or more |
| Text.JoinSplit | supabase/functions/send-invite-email/index.ts:88-90 | joining the parts of a split with the same separator gives back the string |
| Text.Decimal | supabase/functions/send-invite-email/index.ts:199 | the status is rendered as its canonical numeral: at least one digit, digits only, and no leading zero except in `0` itself |
| Text.DecimalRoundTrip | supabase/functions/send-invite-email/index.ts:199 | the decimal numeral of a status reads back as that status |
| InviteModal.NormaliseEmail | src/components/InviteUserModal.jsx:34 | the normalised email has no whitespace at either end and is no longer than the input |
| InviteModal.NormalisedShape | src/components/InviteUserModal.jsx:34 | a normalised email has no upper-case letter and no whitespace at either end |
| InviteModal.NormaliseIdempotent | src/components/InviteUserModal.jsx:34 | normalising twice equals normalising once |
| InviteModal.NewInvite | src/components/InviteUserModal.jsx:20-40 | a new row is unused, names its issuer and its token, holds the normalised email and the chosen role, and expires 7 × 24 h after issue |
| InviteModal.InviteLink | src/components/InviteUserModal.jsx:53 | the link starts with the origin's account-creation address and ends with the token |
| InviteModal.TokenOfLink | src/pages/CreateAccountPage.jsx:10 | a token is read iff the link starts with the origin's account-creation address, and then the link is exactly the invite link of that token |
| InviteModal.LinkCarriesStoredToken | src/components/InviteUserModal.jsx:53 | the link's `token` parameter is the token of the stored row |
| InviteModal.InsertErrorMessage | src/components/InviteUserModal.jsx:45-67 | an insert failure always shows a non-empty message |
| InviteModal.InsertErrorMapping | src/components/InviteUserModal.jsx:45-50 | code `23505` becomes the duplicate-invite message; any other error shows its own message, or the retry text when that message is empty |
| InviteModal.Modal.constructor | src/components/InviteUserModal.jsx:6-9 | the form starts empty with role `client`, not loading, no error |
| InviteModal.Modal.EditEmail | src/components/InviteUserModal.jsx:120 | the email input sets the email |
| InviteModal.Modal.EditRole | src/components/InviteUserModal.jsx:139 | the role select sets the role |
| InviteModal.Modal.Dismiss | src/components/InviteUserModal.jsx:81 | the close button only tells the parent to close |
| InviteModal.Modal.Submit | src/components/InviteUserModal.jsx:11-70 | without a user nothing is stored and the TypeError shows; a refused insert shows the mapped message and keeps the form; success stores the row under its token, reports the link with the email as typed, resets the form and closes; loading ends false |
| CreateAccount.Validate | src/pages/CreateAccountPage.jsx:27-57 | accepted iff the token is present, its row exists unused, and it has not expired (`now <= expires_at`); the accepted invite is that row |
| CreateAccount.ValidationMessage | src/pages/CreateAccountPage.jsx:28-54 | a missing token, an unknown or used token, and an expired invite each show their own non-empty text |
| CreateAccount.RejectionMessagesDistinct | src/pages/CreateAccountPage.jsx:29-51 | the three rejection texts are pairwise different, so an expired link is never reported as invalid or used |
| CreateAccount.UsedLooksUnknown | src/pages/CreateAccountPage.jsx:35-46 | a used token and a never-issued token get the same answer |
| CreateAccount.ExpiredIsReportedAsSuch | src/pages/CreateAccountPage.jsx:49-54 | an unused row past its expiry is reported as expired |
| CreateAccount.GoodAtExpiryInstant | src/pages/CreateAccountPage.jsx:50 | an invite is still accepted at the instant it expires |
| CreateAccount.MissingTokenIgnoresTable | src/pages/CreateAccountPage.jsx:28-32 | without a token the answer does not depend on the table |
| CreateAccount.FailureMessage | src/pages/CreateAccountPage.jsx:136-147 | a message containing "already registered" or "already been registered" becomes the login-page message; any other non-empty message shows as is; an empty one becomes the generic failure text; the result is never empty |
| CreateAccount.NoRegistrationMention | src/pages/CreateAccountPage.jsx:138-146 | a message without the letter `y` cannot mention registration and passes through unchanged |
| CreateAccount.OwnMessagesPassThrough | src/pages/CreateAccountPage.jsx:99-124 | the page's own failure texts reach the screen unchanged |
| CreateAccount.RouteForRole | src/pages/CreateAccountPage.jsx:127-135 | `super_admin`, `admin` and `client` go to `/super-admin`, `/admin` and `/client`; the target is `/` iff the role is none of the three |
| CreateAccount.Page.constructor | src/pages/CreateAccountPage.jsx:10-21 | the page starts loading with no error, no invite and an empty form |
| CreateAccount.Page.EditForm | src/pages/CreateAccountPage.jsx:247 | the inputs set name, password and confirmation |
| CreateAccount.Page.ValidateToken | src/pages/CreateAccountPage.jsx:27-63 | the result agrees with `Validate`, or the lookup-failed message when the query throws; the table is unchanged and the page settles |
| CreateAccount.Page.HandleSubmit | src/pages/CreateAccountPage.jsx:65-151 | password checks come first and stop before any call; both auth calls use the invite's email; each outcome sets its message or navigates by role; the table is unchanged and submitting ends false |
| Login.DashboardFor | src/pages/LoginPage.jsx:43-59 | the target is `/unauthorized` iff the role is none of the three |
| Login.DashboardsDistinct | src/pages/LoginPage.jsx:46-58 | different known roles go to different dashboards |
| Login.LoginErrorMessage | src/pages/LoginPage.jsx:80-86 | the message is the raw text or one of the two translations, and is translated only when the raw text mentions one of the two problems |
| Login.RedirectFor | src/pages/LoginPage.jsx:35-37 | at most one move, made iff the profile row exists, to that role's dashboard |
| Login.LoginErrorRules | src/pages/LoginPage.jsx:80-86 | bad credentials, then unconfirmed email, then the raw text: the first match wins |
| Login.BadCredentialsWins | src/pages/LoginPage.jsx:80-86 | an error mentioning both problems is reported as bad credentials, in either order |
| Login.Page.constructor | src/pages/LoginPage.jsx:9-12 | the page starts with an empty form, no error, not loading, and no calls made |
| Login.Page.EditEmail | src/pages/LoginPage.jsx:164-168 | typing an email clears the error |
| Login.Page.EditPassword | src/pages/LoginPage.jsx:184-188 | typing a password clears the error |
| Login.Page.CheckSession | src/pages/LoginPage.jsx:15-41 | with a session the profile is fetched and an existing profile moves the user to its dashboard; without one nothing happens |
| Login.Page.HandleLogin | src/pages/LoginPage.jsx:61-114 | the form's email and password are sent to sign-in whatever its answer; a sign-in error shows its translation with no lookup and no move; an exception shows the unexpected-error message; a session fetches the profile and moves only if it exists; loading ends false |
| InviteEmail.RoleName | supabase/functions/send-invite-email/index.ts:86-90 | the role name is the role with its first `_` turned into a space and each word's first character upper-cased; its length is the role's |
| InviteEmail.SplitCapitalizeJoin | supabase/functions/send-invite-email/index.ts:86-90 | split, capitalise each word and join equals upper-casing each character that starts a word |
| InviteEmail.RoleNameAt | supabase/functions/send-invite-email/index.ts:86-90 | the role name keeps the role's length; a character is upper-cased iff it starts a word after the first `_` became a space |
| InviteEmail.TwoWordRoleName | supabase/functions/send-invite-email/index.ts:86-90 | `a_b` reads as `A B` with each word capitalised |
| InviteEmail.OneWordRoleName | supabase/functions/send-invite-email/index.ts:86-90 | a one-word role reads as that word capitalised |
| InviteEmail.RoleNamesShown | supabase/functions/send-invite-email/index.ts:86-90 | `super_admin`, `admin`, `client` read as `Super Admin`, `Admin`, `Client` |
| InviteEmail.OnlyFirstUnderscoreReplaced | supabase/functions/send-invite-email/index.ts:87 | for words `a`, `b`, `c` without spaces (and no `_` in `a`), `a_b_c` reads as `a` capitalised, a space, then `b_c` capitalised: the second underscore is kept |
| InviteEmail.InviterName | supabase/functions/send-invite-email/index.ts:92-93 | the given name when truthy, else the caller's truthy `full_name`, else "Your Administrator"; never empty |
| InviteEmail.RoleColor | supabase/functions/send-invite-email/index.ts:96 | the colour is orange iff the role is `client`, and white otherwise |
| InviteEmail.Subject | supabase/functions/send-invite-email/index.ts:189 | the subject is the invitation text followed by the role name |
| InviteEmail.StatusOf | supabase/functions/send-invite-email/index.ts:203-227 | status 400 iff the response is a failure, and 200 otherwise |
| InviteEmail.ProviderError | supabase/functions/send-invite-email/index.ts:198-200 | the error text contains the status numeral and ends with the provider's message, or with its raw body when the message is empty |
| InviteEmail.ProviderErrorNamesStatus | supabase/functions/send-invite-email/index.ts:196-201 | a refusal's error text contains the provider's status as a numeral that reads back as that status |
| InviteEmail.ProviderOutcome | supabase/functions/send-invite-email/index.ts:196-213 | a failure iff the provider did not deliver; a delivery reports its id; a refusal names its status; an unreachable provider gives its reason |
| InviteEmail.FirstFailure | supabase/functions/send-invite-email/index.ts:40-83 | no check fails iff the header is present, the caller resolves, the caller's row has role `super_admin`, the body is readable with all three fields truthy, and the key is set; otherwise the first failing check reports its own message: missing header, "Unauthorized", not a super admin, the body's parse error, missing fields, missing key |
| InviteEmail.IsSuperAdminRow | supabase/functions/send-invite-email/index.ts:73 | every profile `isSuperAdmin` accepts passes, and on an active profile the two agree |
| InviteEmail.Compose | supabase/functions/send-invite-email/index.ts:86-96 | the email goes to the given address with the given link, under a subject naming the role name it shows, with the inviter name of the fallback chain (never empty) and the role's colour, orange exactly for `client` |
| InviteEmail.Handle | supabase/functions/send-invite-email/index.ts:32-229 | OPTIONS answers the preflight; the first failing check names the error and nothing is sent; otherwise the composed email is sent and the provider's answer selects the response; nothing is sent unless the caller's profile is super_admin |
| InviteEmail.MissingHeaderReportedFirst | supabase/functions/send-invite-email/index.ts:40-43 | a missing header is reported first, whatever else holds |
| InviteEmail.RoleCheckedBeforeBody | supabase/functions/send-invite-email/index.ts:73-79 | a caller who is not super admin is refused whatever the body holds |
| InviteEmail.KeyCheckedLast | supabase/functions/send-invite-email/index.ts:175-177 | a missing API key is reported only when every other check passes |
| InviteEmail.InactiveSuperAdminPasses | supabase/functions/send-invite-email/index.ts:66-75 | a super admin whose `is_active` is false passes every check although `isSuperAdmin` denies them |
| Journeys.LoginLandsOnOwnDashboard | src/pages/LoginPage.jsx:46-58 | every login target of a known role is a listed path that shows that role's dashboard to an active profile |
| Journeys.UnknownRoleLandsOnUnauthorized | src/pages/LoginPage.jsx:56-57 | an unknown role lands on the unauthorized page |
| Journeys.NewAccountDetoursThroughLogin | src/pages/CreateAccountPage.jsx:127-135 | the account-creation targets are not listed and redirect to `/login`, whose session check sends the user to their dashboard |
| Journeys.IssuedLinkValidatesUntilExpiry | src/components/InviteUserModal.jsx:18-53 | the issued link validates against the stored row iff at most seven days have passed, and is reported expired after; the accepted invite has the normalised email and the chosen role |

## Left out

- Real dates: `setDate(getDate() + 7)` is taken as exactly 7 × 86 400 000 ms. A daylight-saving change inside the week is not modelled.
- Case mapping beyond ASCII. `toLowerCase`/`toUpperCase` are modelled on `A`–`Z` and `a`–`z` only. JavaScript's UTF-16 code units are modelled as Unicode scalar values, so lengths of astral characters differ.
- The router's case-insensitive and trailing-slash matching: paths are matched exactly.
- The randomness of `crypto.randomUUID`: the token is a parameter, and its uniqueness is not claimed.
- The hosted service's internals: auth, row-level security, the trigger that creates profiles, and any uniqueness constraint on invites. Their answers are parameters.
- The edge function's CORS headers, the HTML email body beyond the subject, role name, role colour, inviter name and link, and the current year in the footer.
- A thrown value that is not an `Error` (the edge function's "Unknown error" branch).
- The 1500 ms wait before sign-in on the account-creation page; the model proceeds straight to the sign-in.
- React rendering, effects scheduling, spinners, password visibility toggles, and the modal's open flag.
- The dashboards, the login form component, the invite success modal, the unauthorized page and the email service wrapper. The issuance flow does not call the wrapper.
- InviteModal.TokenOfLink reads the token as everything after the fixed `/create-account?token=` prefix of the same origin. It does not parse a URL query: other parameters, a fragment, percent-decoding and a link from another origin are not modelled.
- CreateAccount.Page.HandleSubmit: requires the page to be past its spinner with an invite loaded and no submission running. This is the only state in which the form and its enabled submit button are on screen.
- InviteEmail.Payload types the body's fields as strings. A truthy field of another JSON type, such as a number for `role`, passes the field check at index.ts:81 and then makes `role.replace` throw a TypeError (index.ts:86-87), answered as a 400 with that TypeError's text. This is not modelled.
- Roles.CanViewTask takes a task that is always present. `canViewTask(profile, null)` throws for an active admin or client, because it reads the task's fields (roleHelpers.js:69-70).
- Backend.ProfileById and Backend.UnusedInvite: a table read never fails in the model, except where `CreateAccount.Page.ValidateToken` takes a thrown query as a parameter. In the code, a read answered with an error takes the no-row branch even when the row exists (CreateAccountPage.jsx:42 and :122, LoginPage.jsx:35 and :104, index.ts:67-73).
- InviteModal.NoUserMessage is the TypeError text of the V8 engine. Other browser engines word this error differently.
- CreateAccount.Page.HandleSubmit: an error from `signUp` or `signInWithPassword` whose `message` is not a string, where the `catch` block would itself throw.
