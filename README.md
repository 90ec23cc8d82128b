# Coach dashboard rules, modelled in Dafny

This project models the rules inside the coach dashboard of the
WellnessMClear platform. The dashboard is a Next.js application: coaches
sign in with e-mail and password, see their earnings, approve bookings and
manage their settings. Its rules are small but exact:

- **Pagination.** The booking-history table shows ten payments to a page and
  always has at least one page. The wallet table shows six to a page, and
  its page count is zero for an empty list.
- **Approvals.** A booking is approved only when one is selected and the
  Zoom link is not blank. A row whose payment has no booking still offers the
  Approve button, but clicking it reads `booking._id` from a missing booking
  and throws a `TypeError`; the model represents that throw as a result and
  changes nothing (`BookingHistoryPage.BookingHistory.ClickApprove`).
- **Forms.** The login, sign-up, password-reset, change-password and
  profile forms each have a validation schema.
- **Access and navigation.** The sidebar highlights at most one menu entry. The
  route guard lets only coaches into "/dashboard".
- **Sign-in.** The sign-in flow turns the backend's answer into a user, a
  token and a session.
- **Mock API.** A fixed profile, a profile merge, a password check and two
  generated lists.
- **Dashboard chart.** The overview picks one revenue series and sets
  defaults for missing summary figures.

One module per source file:

| module | file | form |
|---|---|---|
| `Common` | shared | option/result types, validation issues, `trim`, `startsWith`, decimal rendering |
| `PaymentTypes`, `Pagination` | shared by both tables | payment records; page count, page slice, "Showing" range, page buttons |
| `BookingHistoryPage` | `app/dashboard/_components/history.tsx` | class `BookingHistory` over the component's state |
| `WalletPage` | `app/dashboard/my-wallet/_components/wallet.tsx` | class `MyWallet` over the component's state |
| `AuthSchemas` | `app/schemas/auth/index.ts` | schemas as functions from a form to its list of issues |
| `ChangePasswordPage` | `app/dashboard/settings/change-password/page.tsx` | schema, toggles, class `ChangePassword` |
| `ProfileSchema` | `app/schemas/profile.ts` | schema as a function |
| `Sidebar` | `components/sidebar.tsx` | menu constant and highlight rule |
| `Middleware` | `middleware.ts` | guard decision and matcher |
| `NextAuthOptions` | `lib/auth.ts` | sign-in as functions, class `Token` for the token callback |
| `MockApi` | `lib/api.ts` | mock calls as functions |
| `Dashboard` | `components/dahsboard.tsx` | chart and summary functions, class `DashboardView` |

A schema is modelled as the list of issues it reports, in the order it
checks the fields. The form is accepted exactly when that list is empty.
The message shown under a field is the first issue attached to it
(`Common.FirstError`). Both object refinements run even when a field check
has failed, because every field is a string.

Backend responses, the decoded session token and the e-mail format check
are inputs to the model (see "Left out").

On success and on cancel, the change-password page navigates to
"/settings". The settings page that the sidebar links to is
"/dashboard/settings". `Middleware.SettingsRouteOutsideDashboard` proves
that "/settings" is outside the guarded area and highlights no sidebar
entry. Whether an application route "/settings" exists is not part of this
model.

## Model

| member | source | states |
|---|---|---|
| Common.FirstError | app/schemas/auth/index.ts:39-42 | a field shows no message exactly when no issue is attached to it; otherwise it shows the message of the first issue attached to it |
| Common.FirstErrorConcat | app/schemas/auth/index.ts:39-42 | the message a field shows for two issue lists run one after the other is the first list's message for it when it has one, otherwise the second list's |
| Common.FirstErrorIsLast | app/schemas/auth/index.ts:39-42 | an issue that ends the list and is the only one on its field is the one that field shows |
| Common.TrimBlankIff | app/dashboard/_components/history.tsx:88 | `zoomLink.trim()` is empty exactly when every character of the link is JavaScript whitespace |
| Common.PrefixesNest | components/sidebar.tsx:32 | when a path starts with two hrefs, the shorter href is a prefix of the longer |
| Common.NatToString | lib/api.ts:40 | the rendering of n is a non-empty string of digits that reads back as n, with no leading zero unless n is 0 |
| Common.NatToStringInjective | lib/api.ts:40 | distinct numbers give distinct decimal renderings in the generated ids |
| Pagination.CeilDiv | app/dashboard/_components/history.tsx:73 | `Math.ceil(n / d)` covers `n` items with `d` to a page, and one page fewer would not |
| Pagination.CeilDivLeast | app/dashboard/my-wallet/_components/wallet.tsx:58 | no page count smaller than `Math.ceil(n / d)` covers `n` items |
| Pagination.Slice | app/dashboard/my-wallet/_components/wallet.tsx:60 | `slice(start, end)` clamps to the list: its length, and element i is the list's element start + i |
| Pagination.PageRows | app/dashboard/_components/history.tsx:74 | page p holds at most `size` rows, the list's rows from (p-1)*size on, in order, and none past the end |
| Pagination.PageNonEmptyIff | app/dashboard/_components/history.tsx:73-74 | a page has rows exactly when its number is at most the ceiling page count |
| Pagination.PagesArePrefix | app/dashboard/_components/history.tsx:74 | pages 1 to k shown one after another are the list's first min(k*size, n) rows |
| Pagination.PagesPartition | app/dashboard/_components/history.tsx:73-74 | the pages 1 to the page count shown one after another are exactly the list: no row lost, repeated or reordered |
| Pagination.ShowingMatchesRows | app/dashboard/_components/history.tsx:190-191 | the "Showing start to end" numbers name exactly the rows of the page: empty page iff end < start, otherwise end - start + 1 rows, first and last at those positions |
| Pagination.PageNumbers | app/dashboard/_components/history.tsx:197-210 | the buttons are numbered i + 1 at position i, one per page |
| Pagination.PageNumbersExact | app/dashboard/my-wallet/_components/wallet.tsx:151-163 | the buttons offer exactly the pages 1 to the page count, strictly ascending |
| BookingHistoryPage.TotalPages | app/dashboard/_components/history.tsx:73 | the page count is at least 1, is 1 for an empty list, and is ceil(n/10) otherwise |
| BookingHistoryPage.ActionFor | app/dashboard/_components/history.tsx:172-180 | a row offers the Approve button exactly when its booking is missing or not "Approved" |
| BookingHistoryPage.ApproveTarget | app/dashboard/_components/history.tsx:177 | the Approve click reads `booking._id`, which exists exactly when the row has a booking |
| BookingHistoryPage.ApproveButtonWithoutTarget | app/dashboard/_components/history.tsx:172-180 | a row offers an Approve button whose click has no booking to read exactly when the row has no booking |
| BookingHistoryPage.BookingHistory.constructor | app/dashboard/_components/history.tsx:23-28 | starts on page 1 with the dialog closed, nothing selected and an empty link; the page is in range |
| BookingHistoryPage.BookingHistory.CurrentPaymentsAreSlice | app/dashboard/_components/history.tsx:74 | the rows are at most ten and are `payments[(p-1)*10 .. min(p*10, n))`, or none when the page starts past the end |
| BookingHistoryPage.BookingHistory.ShowingRange | app/dashboard/_components/history.tsx:190-191 | start (p-1)*10+1 and end min(p*10, n), which count exactly the rows shown |
| BookingHistoryPage.BookingHistory.PageButtons | app/dashboard/_components/history.tsx:197-210 | there is always a button 1; the buttons are exactly the pages 1 to the page count, ascending |
| BookingHistoryPage.BookingHistory.GoToPage | app/dashboard/_components/history.tsx:76-80 | the page changes to k only when 1 <= k <= the page count and is unchanged otherwise, so a page in range stays in range |
| BookingHistoryPage.BookingHistory.HandleApproveClick | app/dashboard/_components/history.tsx:82-85 | selects the booking and opens the dialog |
| BookingHistoryPage.BookingHistory.ClickApprove | app/dashboard/_components/history.tsx:177 | clicking Approve throws, changing nothing, exactly when the row has no booking; otherwise it selects that booking's id and opens the dialog |
| BookingHistoryPage.BookingHistory.SetZoomLink | app/dashboard/_components/history.tsx:229 | the link becomes the typed text |
| BookingHistoryPage.BookingHistory.SetOpenModal | app/dashboard/_components/history.tsx:219 | the dialog opens or closes; nothing else changes |
| BookingHistoryPage.BookingHistory.HandleSubmit | app/dashboard/_components/history.tsx:87-93 | an approval is requested exactly when a non-empty booking id is selected and the link is not all whitespace; it targets that booking with body `{zoomLink, status: "Approved"}` |
| BookingHistoryPage.BookingHistory.OnApproveSuccess | app/dashboard/_components/history.tsx:58-63 | after a successful approval the dialog is closed, the link empty and nothing selected |
| BookingHistoryPage.BookingHistory.Refetch | app/dashboard/_components/history.tsx:71 | a new response replaces the payment list and keeps the current page |
| WalletPage.TotalPages | app/dashboard/my-wallet/_components/wallet.tsx:57-58 | the page count is ceil(n/6), and it is 0 exactly when the list is empty |
| WalletPage.BookedRows | app/dashboard/my-wallet/_components/wallet.tsx:100-101 | a payment gets a row exactly when it carries a booking |
| WalletPage.BookedRowsConcat | app/dashboard/my-wallet/_components/wallet.tsx:100-101 | skipping rows keeps the order: filtering two runs is filtering each and joining |
| WalletPage.BookedRowsAllBooked | app/dashboard/my-wallet/_components/wallet.tsx:100-101 | a page whose payments all carry bookings is shown in full |
| WalletPage.MyWallet.constructor | app/dashboard/my-wallet/_components/wallet.tsx:27 | starts on page 1, which is in range exactly when there are payments |
| WalletPage.MyWallet.CurrentPayments | app/dashboard/my-wallet/_components/wallet.tsx:59-60 | exactly min(6, n - startIdx) rows when startIdx is before the end and none otherwise; they are the payments from startIdx on, in order |
| WalletPage.MyWallet.Rows | app/dashboard/my-wallet/_components/wallet.tsx:100-101 | the table's rows are the current page's payments that carry a booking, in page order (filtering any split of the page is filtering each part and joining); a page whose payments all carry bookings is shown in full |
| WalletPage.MyWallet.ShowingRange | app/dashboard/my-wallet/_components/wallet.tsx:140 | start startIdx+1 and end min(startIdx+6, n), which name no rows exactly when the page is empty and otherwise count exactly the rows shown |
| WalletPage.MyWallet.PageButtons | app/dashboard/my-wallet/_components/wallet.tsx:151-163 | ceil(n/6) buttons, the one at position i numbered i + 1, strictly ascending; none for an empty list |
| WalletPage.MyWallet.GoToPage | app/dashboard/my-wallet/_components/wallet.tsx:62-66 | the page changes only to a page in 1..ceil(n/6); with no payments it never changes |
| AuthSchemas.EmailIssues | app/schemas/auth/index.ts:5-8 | no e-mail issue exactly when the e-mail is non-empty and e-mail shaped; "Email is required" is reported exactly when the e-mail is empty and "Invalid email address" exactly when it is not e-mail shaped; no other issue is reported, and all are on the e-mail field |
| AuthSchemas.EmailShownMessage | app/schemas/auth/index.ts:5-8 | the e-mail input shows "Email is required" when empty, else "Invalid email address" when malformed, else nothing |
| AuthSchemas.LoginIssues | app/schemas/auth/index.ts:4-11 | a login is accepted exactly when the e-mail is non-empty and e-mail shaped and the password non-empty; its issues are exactly the e-mail's issues plus "Password is required" on the password when, and only when, the password is empty |
| AuthSchemas.LoginShownMessages | app/schemas/auth/index.ts:4-11 | the e-mail input shows the e-mail's own message, and the password input shows "Password is required" exactly when the password is empty |
| AuthSchemas.LoginIgnoresRememberMe | app/schemas/auth/index.ts:10 | `rememberMe` never decides acceptance |
| AuthSchemas.PasswordPolicyIssues | app/schemas/auth/index.ts:24-33 | a password passes exactly when it has 8 or more characters and contains an upper-case letter, a lower-case letter and a digit; the length, upper-case, lower-case and digit messages are each reported exactly when their own rule fails; no other message is reported, all are on the password, at most four |
| AuthSchemas.PolicyShownMessage | app/schemas/auth/index.ts:24-33 | the password input shows the message of the first failing rule in the order length, upper-case, lower-case, digit, and nothing when all hold |
| AuthSchemas.SignUpFieldIssues | app/schemas/auth/index.ts:17-37 | the field checks pass exactly when both names, the e-mail, the password policy and the confirmation are filled in and valid; their issues are exactly "First name is required" on an empty first name, "Last name is required" on an empty last name, the e-mail's issues, the password policy's issues and "Confirm password is required" on an empty confirmation |
| AuthSchemas.SignUpIssues | app/schemas/auth/index.ts:16-42 | a sign-up is accepted exactly when both names, the e-mail, the password policy and a non-empty matching confirmation hold; its issues are exactly the field checks' issues plus "Passwords do not match" on `confirmPassword`, which is reported exactly when the passwords differ |
| AuthSchemas.SignUpFieldMessages | app/schemas/auth/index.ts:17-37 | "First name is required", "Last name is required" and "Confirm password is required" are each reported exactly when their own input is empty |
| AuthSchemas.SignUpShownMessages | app/schemas/auth/index.ts:16-42 | each name input shows its "required" message exactly when empty; the e-mail and password inputs show their own schema's message; the confirmation shows "Confirm password is required" when empty, else "Passwords do not match" when the passwords differ, else nothing |
| AuthSchemas.MismatchShownOnConfirm | app/schemas/auth/index.ts:39-42 | a filled-in confirmation that differs shows the mismatch message under `confirmPassword` |
| AuthSchemas.PolicyExamples | app/schemas/auth/index.ts:24-33 | "Secret123" passes; "secret123" fails only for the missing upper-case letter |
| AuthSchemas.ResetRequestIssues | app/schemas/auth/index.ts:48-53 | a reset request is accepted exactly when the e-mail is non-empty and e-mail shaped; "Email is required" is reported exactly when the e-mail is empty and "Invalid email address" exactly when it is malformed, and nothing else |
| ChangePasswordPage.PasswordIssues | app/dashboard/settings/change-password/page.tsx:17-26 | accepted exactly when all three fields have at least 6 characters and the new password equals the confirmation; each field's "must be at least 6 characters" message is reported on that field exactly when it is shorter than 6; "Passwords don't match" on `confirmPassword` exactly when they differ; no other issue is reported |
| ChangePasswordPage.PasswordShownMessages | app/dashboard/settings/change-password/page.tsx:17-26 | the current and new inputs show their own length message exactly when too short; the confirmation shows its length message when too short, else the mismatch when the passwords differ, else nothing |
| ChangePasswordPage.MismatchShownOnConfirm | app/dashboard/settings/change-password/page.tsx:23-26 | a long-enough confirmation that differs shows "Passwords don't match" under it |
| ChangePasswordPage.AcceptedFormIsNotRejected | lib/api.ts:96-100 | a form the page accepts is never refused by the password-change call |
| ChangePasswordPage.Toggled | app/dashboard/settings/change-password/page.tsx:76-81 | flips the chosen input's visibility and leaves the other two |
| ChangePasswordPage.VisibilityExt | app/dashboard/settings/change-password/page.tsx:32-36 | two visibility records that agree on all three inputs are equal |
| ChangePasswordPage.ToggleTwice | app/dashboard/settings/change-password/page.tsx:77-80 | toggling the same input twice restores the record |
| ChangePasswordPage.TogglesCommute | app/dashboard/settings/change-password/page.tsx:76-81 | toggles of two inputs give the same record in either order |
| ChangePasswordPage.MaskedLog | app/dashboard/settings/change-password/page.tsx:66-72 | all three password fields are logged as "***" |
| ChangePasswordPage.MaskedLogHidesPasswords | app/dashboard/settings/change-password/page.tsx:66-72 | any two forms log the same record |
| ChangePasswordPage.ChangePassword.constructor | app/dashboard/settings/change-password/page.tsx:32-36 | all inputs hidden, empty values, no navigation yet |
| ChangePasswordPage.ChangePassword.TogglePasswordVisibility | app/dashboard/settings/change-password/page.tsx:76-81 | the visibility record becomes the old one toggled at that input |
| ChangePasswordPage.ChangePassword.Edit | app/dashboard/settings/change-password/page.tsx:38-45 | the form values become the typed ones |
| ChangePasswordPage.ChangePassword.Submit | app/dashboard/settings/change-password/page.tsx:66-74 | a request is sent exactly when the schema accepts the values, and the password-change call accepts it; a masked log is written exactly when a request is sent |
| ChangePasswordPage.ChangePassword.OnSuccess | app/dashboard/settings/change-password/page.tsx:49-51 | the inputs are reset to empty and the page navigates to "/settings" |
| ChangePasswordPage.ChangePassword.HandleCancel | app/dashboard/settings/change-password/page.tsx:83-85 | the page navigates to "/settings" |
| ProfileSchema.IssuesFor | app/schemas/profile.ts:3-10 | one issue, with the field's own message, for each checked field that is too short, and no other; at most one issue per checked field, so no field is reported twice when the checked fields are distinct |
| ProfileSchema.EveryFieldChecked | app/schemas/profile.ts:3-10 | every profile field is among the checked ones |
| ProfileSchema.AllLongEnough | app/schemas/profile.ts:4-9 | the six minimum lengths, 2, 3, 10, 1, 1 and 5, hold field by field |
| ProfileSchema.ProfileIssues | app/schemas/profile.ts:3-10 | a profile is accepted exactly when all six minimum lengths hold; a field carries its message exactly when it is too short |
| ProfileSchema.FetchedProfileIsValid | lib/api.ts:67-77 | the fixed mock profile passes the profile schema |
| Sidebar.ActiveEntries | components/sidebar.tsx:28-32 | the highlighted entries are exactly those whose highlight rule holds |
| Sidebar.NavigationOrder | components/sidebar.tsx:8-13 | four entries, in the order Dashboard, Booking History, My Wallet, Setting, each under "/dashboard" |
| Sidebar.DifferAt | components/sidebar.tsx:32 | two strings that differ at a shared position are not prefixes of each other |
| Sidebar.HrefsIndependent | components/sidebar.tsx:10-12 | no href other than the dashboard's is a prefix of another |
| Sidebar.ActiveRule | components/sidebar.tsx:29-32 | the dashboard entry is highlighted only on "/dashboard" itself; each other entry exactly on paths starting with its href |
| Sidebar.AtMostOneActive | components/sidebar.tsx:8-32 | for any path, at most one entry is highlighted |
| Sidebar.ChangePasswordHighlightsSetting | components/sidebar.tsx:29-32 | on "/dashboard/settings/change-password" only "Setting" is highlighted |
| Middleware.Guard | middleware.ts:10-17 | a request proceeds exactly when there is a token whose role is "COACH"; otherwise it is redirected to "/login" |
| Middleware.Handle | middleware.ts:21-23 | only "/dashboard" and paths below it are guarded; every other path proceeds |
| Middleware.OnlyRoleMatters | middleware.ts:13-15 | tokens with the same role get the same decision |
| Middleware.SignedInCoachPasses | middleware.ts:13-17 | after the token callback has seen a signed-in user, the guard lets the request through exactly when the user's role is "COACH" |
| Middleware.SidebarPagesGuarded | middleware.ts:21-23 | every path the sidebar can highlight is guarded, so it is redirected when there is no token |
| Middleware.SettingsRouteOutsideDashboard | app/dashboard/settings/change-password/page.tsx:51 | the change-password page's target "/settings" is not guarded and highlights no sidebar entry; the sidebar's settings page is "/dashboard/settings" |
| NextAuthOptions.SessionLastsOneDay | lib/auth.ts:9 | sessions last 86400 seconds |
| NextAuthOptions.Precheck | lib/auth.ts:20-22 | a missing or empty e-mail or password fails with "Email and password are required"; otherwise the request carries exactly the two fields |
| NextAuthOptions.Rethrown | lib/auth.ts:53-59 | a caught `Error` keeps its non-empty message; in every other case (an empty message, a thrown non-`Error`) the message is "Login failed. Please check your credentials." |
| NextAuthOptions.RefusalMessage | lib/auth.ts:38 | the backend's message when it sent a non-empty one; when the message is missing or empty, "Invalid login credentials" |
| NextAuthOptions.LoginOutcome | lib/auth.ts:24-60 | sign-in yields a user exactly when the response is ok and carries a coach; that user is the coach's six fields with the data's two tokens, copied even when missing; a rejected request or an unparsable body fails with the catch block's message for what was thrown; every failure carries a non-empty message |
| NextAuthOptions.Authorize | lib/auth.ts:19-61 | the precheck's failure wins over any exchange; otherwise the outcome is the exchange's |
| NextAuthOptions.MissingFieldsNeverReachBackend | lib/auth.ts:20-22 | with a field missing, the answer is the same whatever the backend would have said |
| NextAuthOptions.RefusalReported | lib/auth.ts:37-39 | a response that is not ok or has no coach fails with the backend's message or "Invalid login credentials", unchanged by the re-throw |
| NextAuthOptions.SignInCopiesCoach | lib/auth.ts:41-52 | whatever message the backend sent, the user record's id is the coach's id, the other five fields are the coach's, and both tokens are the data's, each possibly missing |
| NextAuthOptions.FailuresExplain | lib/auth.ts:19-60 | every failed sign-in carries a non-empty message |
| NextAuthOptions.AfterJwt | lib/auth.ts:66-78 | with a user, the seven fields come from the user (the access token as is, even when missing) and the refresh token and other claims stay; without one, the token is unchanged |
| NextAuthOptions.Token.Jwt | lib/auth.ts:66-78 | the token's claims become those `AfterJwt` describes |
| NextAuthOptions.SessionFromToken | lib/auth.ts:81-92 | the session's user is exactly the token's seven claims; the expiry is kept |
| NextAuthOptions.SessionHidesRefreshToken | lib/auth.ts:81-92 | the session does not depend on the refresh token or any other claim |
| NextAuthOptions.SignedInSession | lib/auth.ts:66-92 | after sign-in, the session shows the signed-in user's seven fields, the access token as is even when missing, whatever the token held before |
| NextAuthOptions.JwtIdempotent | lib/auth.ts:66-78 | repeating the token callback with the same user changes nothing more |
| MockApi.FetchUserProfile | lib/api.ts:64-78 | always the same fixed record: id "user-1", name "Mr. Raja", user name "raja123" and the other six fixed fields |
| MockApi.Merge | lib/api.ts:85 | every supplied field overrides; every other field is kept |
| MockApi.Combine | lib/api.ts:85 | the later partial's supplied fields win over the earlier one's |
| MockApi.UserExt | lib/types.ts:1-46 | two profiles agreeing on every field are equal |
| MockApi.UpdateUserProfile | lib/api.ts:80-86 | the fixed profile with every supplied field replaced and the rest as fetched; an empty partial returns the fetched profile |
| MockApi.MergeIdempotent | lib/api.ts:85 | merging the same partial twice changes nothing more |
| MockApi.MergeTwice | lib/api.ts:85 | two merges in a row are one merge of the combined partials |
| MockApi.MergeKeepsUnsupplied | lib/api.ts:85 | a field is left as it was exactly when it was not supplied or was supplied unchanged |
| MockApi.ChangePassword | lib/api.ts:96-100 | fails with "Passwords do not match" exactly when the new password and confirmation differ; otherwise reports success |
| MockApi.FetchBookingHistory | lib/api.ts:39-50 | twelve records, record i built from i |
| MockApi.BookingHistoryShape | lib/api.ts:39-50 | record i has id "booking-" followed by the decimal rendering of i + 1, from "booking-1" to "booking-12", all distinct; the first three completed, the rest pending, none cancelled |
| MockApi.FetchWalletRecords | lib/api.ts:56-61 | twelve records, record i built from i |
| MockApi.WalletRecordIds | lib/api.ts:56-61 | record i has id "wallet-" followed by the decimal rendering of i + 1, from "wallet-1" to "wallet-12", all distinct |
| MockApi.WalletRecordsRevenue | lib/api.ts:56-61 | every record is worth 620 |
| Dashboard.OrElse | components/dahsboard.tsx:81-88 | `x ?? d` is x when present and d otherwise |
| Dashboard.SummaryDefaults | components/dahsboard.tsx:81-88 | a missing total earning or booking count shows 0, missing new-booking counts show all zeros, and present figures show as received |
| Dashboard.Points | components/dahsboard.tsx:92-107 | one point per item, in order, with the item's label and unchanged revenue |
| Dashboard.ChartData | components/dahsboard.tsx:90-108 | the chart has as many points as the selected series, in its order, labelled by date, week or month and with each revenue unchanged |
| Dashboard.PointsKeepTotal | components/dahsboard.tsx:92-107 | the chart's revenue total equals the series' total |
| Dashboard.ChartUsesOnlySelectedSeries | components/dahsboard.tsx:90-108 | only the selected series decides the chart |
| Dashboard.NewBookingsData | components/dahsboard.tsx:114-118 | three entries, Today, This Week and This Month, with the day, week and month counts |
| Dashboard.NewBookingsIgnoreYear | components/dahsboard.tsx:114-118 | the year's count is never shown |
| Dashboard.NoFiguresShowZeros | components/dahsboard.tsx:83-88 | without new-booking figures the radial chart shows three zeros |
| Dashboard.DashboardView.constructor | components/dahsboard.tsx:43 | the range starts at day |
| Dashboard.DashboardView.SetRange | components/dahsboard.tsx:43 | a range button sets the range |

## Left out

- Network, asynchrony and caching are not modelled: every `fetch`, the request headers, the react-query queries, mutations and invalidations, and the artificial delays of the mock API. Backend responses are parameters: the payment list, the login exchange and the dashboard statistics.
- Decoding the session token from the request is not modelled. The guard takes the decoded token, or its absence.
- Rendering is not modelled: JSX, toasts, dialogs, icons, skeletons and chart drawing. Router navigation is recorded only as the target path.
- The previous and next page buttons only call `goToPage` with the neighbouring page number, so `GoToPage` covers them.
- The `disabled` state of the previous and next buttons is not modelled.
- The schema library's e-mail format check is library code. Every rule that uses it takes it as the parameter `isEmail`.
- Lengths are counted in characters (code points). JavaScript counts UTF-16 code units, so the two differ for characters outside the Basic Multilingual Plane.
- A `Partial<User>` field that is explicitly `undefined` is modelled as not supplied. Object spread would copy the `undefined` into the result.
- NextAuthOptions.LoginOutcome: a JSON body that is `null`, and a backend `message` that is not a string, are not modelled.
- NextAuthOptions.LoginOutcome: the coach's six fields are taken as present strings; the two tokens are modelled as possibly missing and copied as they are.
- Amounts are integers. The display formatting (`toFixed(2)`, `toLocaleString`) is floating-point formatting and is left out.
- `fetchDashboardStats` in `lib/api.ts` returns a constant record that no modelled component reads. It is not modelled.
- The masked console record of the mock password change is the same masking as the page's log, so `ChangePasswordPage.MaskedLog` covers it. The other console logs are not modelled.
- The error toasts of the approval and password mutations are not modelled.
- The user-loading guards (`isLoading`, `!data`) only choose between a skeleton and the table, so they are not modelled.
- The final `return []` of `getChartData` cannot be reached, because the range is one of three values.
- The approval mutation is not sent: `HandleSubmit` returns the request it would send, and a success is modelled by calling `OnApproveSuccess`.
