# gitlabify front-end rules, modelled in Dafny

gitlabify is a browser page that asks for a GitLab access token and a group
id, checks them against the GitLab API, and then lists the group's members.
The list has a search box and role badges. Each member has a detail dialog.
This project models the rules those components apply between their network
calls and their markup:

- `components/users-list.tsx` filters members by name or username without
  regard to case, turns access-level codes into role names, and chooses
  between two empty-state texts. It also shows a "Showing X of Y users"
  footer. Its `fetchUsers` sets `loading`, `error` and `users` from the
  outcome of the request.
- `components/gitlab-config.tsx` has `handleSubmit`. It refuses a blank token
  or group id before any request. Otherwise it sends one probe request and
  maps the outcome to one message: ok, 401, 404, another status, or a network
  failure. It calls `onConfigSaved` with the fields as typed, and only when
  the probe is ok.
- `components/user-detail.tsx` has a second copy of the role table. It shows
  "N/A" for an empty job title or location. It shows the profile link only
  when there is a web address. It fetches the profile only while the dialog
  is open.
- `app/page.tsx` is the `Home` view: two state slots (`showConfig`, `config`)
  and two events (the form saved, "Change Configuration").

Files, one module each:

| file | module | models |
|---|---|---|
| `wrappers.dfy` | `Wrappers` | `Option`, for `null` and for missing fields |
| `text.dfy` | `Text` | `toLowerCase`, `trim`, `includes`, and a number printed in a template literal |
| `http.dfy` | `Http` | status, `ok`, thrown values, the shared `try`/`catch` of the two fetches, and the message `Error: <status> - <statusText>` |
| `access_levels.dfy` | `AccessLevels` | the role table that both `getAccessLevelName` copies follow |
| `users_list.dfy` | `UsersList` | the member list |
| `gitlab_config.dfy` | `GitLabConfig` | the configuration form |
| `user_detail.dfy` | `UserDetail` | the detail dialog |
| `page.dfy` | `Page` | the page |

Network requests are parameters. A method that awaits a request takes a
`FetchOutcome` argument, which stands for how that request ends: a response
with its status and status text and the decoded body, or a thrown value.
The method's contract covers every outcome. Requests the model's state
records (`probes` in the form, `requests` in the dialog) show when a request
is made and with which values.

Each component's state is a class. Its methods match the event handlers and
effects. Their `ensures` tie the new state to pure functions (`FetchError`,
`Judge`, `ErrorFor`, `SavedConfig`, `FetchUser`, `Step`), and the lemmas
state the properties of those functions.

Three behaviours of the code are worth stating outright:

- Closing the detail dialog keeps `user`. Reopening fetches again and
  replaces it.
- A failed detail fetch is rethrown from the effect, not shown in the dialog.
  `UserDetailDialog.raised` records the message and nothing shown changes.
- The form trims both fields before checking them, so whitespace-only input
  is refused like empty input (`MissingFieldIffBlank`).

## Model

| member | source | states |
|---|---|---|
| `Text.LowerChar` | components/users-list.tsx:64-65 | the lower-case form of a character: never an ASCII capital, capitals go to their small letter, everything else is unchanged |
| `Text.ToLower` | components/users-list.tsx:64-65 | `toLowerCase` keeps the length and lower-cases character by character; the result has no capitals |
| `Text.ToLowerIdempotent` | components/users-list.tsx:64-65 | lower-casing twice equals lower-casing once |
| `Text.BlankIffAllWhiteSpace` | components/gitlab-config.tsx:26 | a blank string is one whose every character is ECMAScript white space or a line terminator |
| `Text.Trim` | components/gitlab-config.tsx:26 | `trim` leaves no white space at either end, and is empty exactly when the input is blank |
| `Text.TrimCutsOnlyWhiteSpace` | components/gitlab-config.tsx:26 | `trim` returns a slice of its input, and everything it cuts off on either side is white space |
| `Text.Includes` | components/users-list.tsx:64-65 | `includes` is true exactly when the needle occurs at some index; the empty needle always occurs |
| `Text.Decimal` | components/users-list.tsx:47 | a status in a template literal is a non-empty digit string, with no leading zero, whose value is the status |
| `Text.DecimalInjective` | components/users-list.tsx:47 | different statuses print differently |
| `Http.HttpErrorMessage` | components/users-list.tsx:47 | the non-ok message starts with "Error: " |
| `Http.HttpErrorMessageInjective` | components/gitlab-config.tsx:46 | `Error: <status> - <statusText>` determines both the status and the status text |
| `Http.TryFetch` | components/users-list.tsx:38-51 | the `try` block yields the body exactly for an ok response, turns a non-ok response into an `Error` carrying the status message, and passes a rejection through |
| `Http.CaughtMessage` | components/users-list.tsx:53 | `err instanceof Error ? err.message : fallback` |
| `Http.NonOkMessage` | components/users-list.tsx:46-53 | for a non-ok response, the `catch` block reads `Error: <status> - <statusText>` |
| `AccessLevels.LookupRole` | components/users-list.tsx:68-83 | the lookup gives the name of the first table entry with that code, and "Unknown" when no entry has that code; any name other than "Unknown" belongs to an entry with that code |
| `AccessLevels.RoleNamesDistinct` | components/users-list.tsx:68-83 | two codes that show the same role name other than "Unknown" are the same known code |
| `UsersList.FilteredUsers` | components/users-list.tsx:62-66 | a member is kept iff the lower-cased query occurs in the lower-cased name or username; each matching member is kept as many times as it occurs, every other member not at all, so there are never more kept members than members |
| `UsersList.FilterKeepsOrder` | components/users-list.tsx:62 | the kept members form a subsequence of the members, in their original order |
| `UsersList.FilterKeepsAllIff` | components/users-list.tsx:62-66 | the filter keeps as many members as there are iff every member matches |
| `UsersList.EmptyQueryKeepsAll` | components/users-list.tsx:62-66 | an empty query keeps the list unchanged |
| `UsersList.SearchIgnoresCase` | components/users-list.tsx:64-65 | two queries with the same lower-case form filter the same way |
| `UsersList.FilterIdempotent` | components/users-list.tsx:62-66 | filtering the filtered list with the same query changes nothing |
| `UsersList.SearchExample` | components/users-list.tsx:62-66 | of "Ada Lovelace"/"ada" and "Bob Marley"/"bobm", the query "ADA" keeps only the first; "" keeps both, in order |
| `UsersList.AccessLevelName` | components/users-list.tsx:68-83 | the badge name is the role table's name for the code, and "Unknown" exactly for codes other than 10, 20, 30, 40, 50 |
| `UsersList.EmptyState` | components/users-list.tsx:129-131 | a paragraph appears iff no member is kept; "No users found in this group" iff the group is empty; "No users match your search" iff the group has members but none matches |
| `UsersList.FooterCounts` | components/users-list.tsx:167 | the first count is the number of kept members and the second the number of members; the first is at most the second; they are equal iff every member matches, and always for an empty query |
| `UsersList.FooterText` | components/users-list.tsx:167 | the footer starts with "Showing " |
| `UsersList.ShowingLineInjective` | components/users-list.tsx:167 | "Showing X of Y users" determines both numbers: equal footers show the same number of kept members out of the same number of members |
| `UsersList.FetchError` | components/users-list.tsx:46-53 | no error exactly when an ok response arrived; `Error: <status> - <statusText>` for a non-ok response; the thrown error's message; "Failed to fetch users" for a thrown non-Error |
| `UsersList.RenderList` | components/users-list.tsx:85-167 | the skeleton iff loading; the alert iff not loading and `error` is a non-empty string, its text prefixed "Error loading users: "; otherwise one card per kept member in order, with that member's role name, the `EmptyState` paragraph iff there is no card, and the footer "Showing <cards> of <members> users" |
| `UsersList.UsersListView.constructor` | components/users-list.tsx:28-31 | on mount: no members, loading, no error, empty query |
| `UsersList.UsersListView.FetchUsers` | components/users-list.tsx:34-57 | after the request, loading is off; the error is `FetchError(outcome)`; the members are replaced only by an ok body; the query is unchanged |
| `UsersList.UsersListView.SetSearchQuery` | components/users-list.tsx:124-125 | typing sets the query |
| `GitLabConfig.MissingFieldIffBlank` | components/gitlab-config.tsx:26 | the trimmed-empty test holds exactly when a field is blank, so whitespace-only input is refused like empty input |
| `GitLabConfig.Judge` | components/gitlab-config.tsx:26-53 | a blank field gives `MissingInput`; otherwise an ok probe gives `Connected`, 401 `InvalidToken`, 404 `GroupNotFound`, any other non-ok status `HttpFailure` with that response, and a rejected probe `ConnectionFailed`; each case holds iff its condition does |
| `GitLabConfig.ErrorFor` | components/gitlab-config.tsx:27-53 | the form shows no error exactly on `Connected` |
| `GitLabConfig.ErrorIdentifiesVerdict` | components/gitlab-config.tsx:27-53 | different outcomes never show the same error message |
| `GitLabConfig.SavedConfig` | components/gitlab-config.tsx:51 | `onConfigSaved` is called iff both fields are non-blank and the probe is ok, i.e. iff no error is shown, and then with the token and group id exactly as typed |
| `GitLabConfig.ConfigForm.constructor` | components/gitlab-config.tsx:18-20 | empty fields, no error, no probe sent |
| `GitLabConfig.ConfigForm.SetToken` | components/gitlab-config.tsx:80 | typing sets the token |
| `GitLabConfig.ConfigForm.SetGroupId` | components/gitlab-config.tsx:88 | typing sets the group id |
| `GitLabConfig.ConfigForm.HandleSubmit` | components/gitlab-config.tsx:22-55 | the fields are unchanged; the error is the verdict's message; one probe with the fields as typed is recorded unless a field is missing; the returned value is the one `onConfigSaved` argument, or none |
| `UserDetail.OrNotAvailable` | components/user-detail.tsx:118-129 | `field \|\| "N/A"` is never empty: it is the field when the field has text, and "N/A" when the field is missing or empty |
| `UserDetail.JobTitleText` | components/user-detail.tsx:118 | the job title line is the job title when it has text, "N/A" otherwise |
| `UserDetail.LocationText` | components/user-detail.tsx:129 | the location line is the location when it has text, "N/A" otherwise |
| `UserDetail.ProfileLink` | components/user-detail.tsx:102-109 | the "View Profile" link is rendered iff `web_url` has text, and points to it |
| `UserDetail.AccessLevelName` | components/user-detail.tsx:60-75 | the dialog's role name is the role table's name for the code, and "Unknown" exactly for the other codes |
| `UserDetail.AccessLevelNamesAgree` | components/user-detail.tsx:60-75 | the dialog's copy of the role table agrees with the list's for every code |
| `UserDetail.FetchUser` | components/user-detail.tsx:42-51 | the profile arrives exactly on an ok response; a non-ok response raises `Error: <status> - <statusText>`; a thrown Error is raised again with its own message; a thrown non-Error raises "Failed to fetch user" |
| `UserDetail.RenderDetail` | components/user-detail.tsx:84-129 | the skeleton iff loading; otherwise the name (blank when missing), the profile link, and the two lines with their fallbacks |
| `UserDetail.UserDetailDialog.constructor` | components/user-detail.tsx:25-28 | an empty profile, not loading, the dialog closed, no request |
| `UserDetail.UserDetailDialog.ShowDetail` | components/user-detail.tsx:79 | "Show detail" opens the dialog and changes nothing else |
| `UserDetail.UserDetailDialog.OpenChange` | components/user-detail.tsx:82 | the dialog's open/close request sets `dialogOpen` and changes nothing else |
| `UserDetail.UserDetailDialog.RunEffect` | components/user-detail.tsx:30-58 | with the dialog closed nothing changes and no request is made; with it open one request for the member is recorded, loading ends off, and the profile is replaced on success or an error is raised |
| `Page.Step` | app/page.tsx:19-29 | every step ends in a state with the invariant; saving stores the configuration and hides the form; "Change Configuration" shows the form and keeps the configuration |
| `Page.ReachableStatesKeepInv` | app/page.tsx:8-29 | every state reachable from the first render has a configuration whenever the form is hidden |
| `Page.RunHoldsLastSaved` | app/page.tsx:19-29 | the page holds the configuration saved last, or none before the first save |
| `Page.FormShownIff` | app/page.tsx:8-29 | the form is shown exactly at the start and right after "Change Configuration" |
| `Page.Render` | app/page.tsx:18-36 | the form iff `showConfig`; otherwise the member list, present iff there is a configuration and given its token and group id |
| `Page.ListShownWhenFormHidden` | app/page.tsx:18-36 | in a reachable state with the form hidden, the member list is always rendered |
| `Page.Home.constructor` | app/page.tsx:8-12 | `showConfig` true, `config` null |
| `Page.Home.OnConfigSaved` | app/page.tsx:19-22 | the save callback performs `Step` with the saved configuration and keeps the invariant |
| `Page.Home.OnChangeConfiguration` | app/page.tsx:27-29 | the button performs the "Change Configuration" step and keeps the invariant |
| `Page.Home.SubmitForm` | app/page.tsx:19-22 | a form submission leaves the form as `handleSubmit` does (fields unchanged, the verdict's error, one probe unless a field is missing); the page changes exactly when the form calls `onConfigSaved`, and then as the save step |
| `Page.Home.View` | app/page.tsx:18-36 | in every state of the page the form is shown iff `showConfig`; with the form hidden the member list is always rendered, given the saved token and group id |

## Left out

- Requests, URLs, headers and JSON decoding are not modelled. Each awaited request is a `FetchOutcome` parameter. A body that fails to decode reaches the same `catch` as a rejected request and is written as a rejection.
- React scheduling is not modelled: when `useEffect` runs, re-render timing, overlapping effects and updates after unmount. Each method goes from the state before a request to the state after it in one step, so the moment while a request is in flight (skeleton shown, error cleared) is not a state of the model.
- `Text.LowerChar`: lower-cases only ASCII letters. JavaScript's `toLowerCase` follows full Unicode case mapping, which is not part of this model.
- `Text.IsWhiteSpace` uses the ECMAScript WhiteSpace and LineTerminator characters, with the Zs category as of Unicode 15.
- The rendering is not modelled: markup, CSS, skeleton shapes, avatars and their fallbacks (`avatar_url || "/placeholder.svg"`, the first letter of the name), badges and dialog chrome. The model keeps only what decides which text appears.
- `handleSubmit` calls `onConfigSaved` inside its `try`. A callback that threw would show the connection message. The page's callback cannot throw, so that path is not modelled.
- The detail effect rethrows its error with no handler. The model records the message in `raised`; what the browser does with an unhandled rejection is not modelled.
- A members body that is not an array would make `users.filter` throw. The model types the body as a sequence of members.
- The `types/user.ts` declarations appear only as the fields of `UsersList.User` and `UserDetail.Profile` that the components read.
- The per-group aggregation of groups, members and projects, and the per-user reduction, are not part of this model. No modelled file contains them.
- `Page.Home.SubmitForm` works on a form object the caller supplies. "Change Configuration" unmounts the list and mounts a fresh `GitLabConfig`, whose fields and error start empty again (components/gitlab-config.tsx:18-20). The model does not tie the page's lifecycle to the form's construction: the caller makes a new `ConfigForm` for each time the form is shown.
- Status codes are non-negative integers; the model does not bound them.
