# Iron Paradise front end — a Dafny model of its core

Iron Paradise is a gym-management web front end. Its core covers several parts:

- A session store resolves who is signed in, from the identity provider's session and the `profiles` table.
- Route guards decide, from that store, whether a page shows a loading placeholder, redirects, shows Access Denied, or renders.
- The pages and services around them:
  - the member service, with its profile-to-member mapping and its create defaults;
  - the member form's validation and submit;
  - the admin member filter;
  - the realtime package list;
  - the member dashboard's notifications and receipts;
  - the user dashboard's search;
  - the activity log service.

This project restates that logic as pure Dafny functions over immutable datatypes and proves properties of them. Every remote call becomes the value it settles with, passed as a parameter or delivered as an event:

- a Supabase query;
- the REST fallback;
- `getSession`;
- the auth-state listener;
- a storage upload.

The clock becomes opaque `today` / `now` strings.

| file | module | what it models |
|---|---|---|
| `values.dfy` | `Values` | `Option`, `Result`, and JavaScript truthiness of optional strings and numbers. |
| `text.dfy` | `Text` | The string built-ins the core uses: `toLowerCase` (ASCII), `includes`, `split(c)[0]`, `split(c)`, `slice(0, n)` and `trim`. |
| `seqs.dfy` | `Seqs` | `Array.prototype.filter`, and the order-preserving subsequence relation. |
| `auth_store.dfy` | `AuthStore` | The session store as a transition function `Step` over an `Event` type, folded by `Run`. |
| `router.dfy` | `Router` | `ProtectedRoute`, `PublicRoute`, the two role switches, and the route table. |
| `member_service.dfy` | `MemberService` | `getAll`'s profile mapping and fallback choice, and `create`. |
| `member_form.dfy` | `MemberForm` | The email pattern as a language with a proved matcher, the field rules, the defaults, the submit, and photo upload state. |
| `admin_members.dfy` | `AdminMembers` | The search / status filter, and `loadMembers`. |
| `packages.dfy` | `PublicPackages` | The realtime INSERT / UPDATE / DELETE reducer, and `getDurationLabel`. |
| `member_dashboard.dfy` | `MemberDashboard` | Notification formatting, mark-as-read and the unread badge, the colour switches, and receipt names. |
| `user_dashboard.dfy` | `UserDashboard` | `handleSearch`: the blank guard, the `or` filter string, the limit, and the row mapping. |
| `logging.dfy` | `Logging` | `getActivityLogs`' query plan; `logAction` and `logError`. |

## The session store

The store `{user, loading}` starts as `{null, true}`. `initialize` does three things: it registers the listener, arms a 5 s timer, and calls `getSession()`.

The model keeps, next to the observable state, what is in flight:

- whether the timer is armed;
- whether `getSession()` is pending;
- whether the initial profile query is pending;
- how many listener-started profile queries are pending.

A settling result changes the store only if its request is in flight.

Several behaviours of the code are proved as they are written:

- The timer is cleared as soon as `getSession()` settles (`authStore.ts:140`), before the profile query runs. A profile query that never settles therefore leaves `loading` true for good (`HungProfileQueryKeepsLoading`).
- The timer sets `user: null` unconditionally. If it fires after the listener loaded a profile, it discards that profile (`TimerDiscardsListenerProfile`).
- Nothing marks a result as stale. A listener-started profile query that settles after `signOut` puts the user back (`LateProfileAfterSignOut`).
- `signOut` sets only `user: null` and leaves `loading` as it was.

Three behaviours are absent from the code, and so from the model:

- `signOut` does not end loading;
- nothing discards a stale profile result;
- once `getSession()` settles, the timer no longer bounds loading.

## The search filter string

`handleSearch` embeds the raw query in the filter string, without trimming or escaping it. The filter is `name.ilike.%q%,email.ilike.%q%,phone.ilike.%q%`.

PostgREST reads the argument of `or` as a comma-separated list. `Text.Split` models only that comma layer. At that layer, a query without commas yields exactly the three intended clauses, and each comma in the query adds three more pieces (`OrFilterPieceCount`). Parentheses, double quotes and the other characters the `or` grammar reserves are not modelled.

## Model

| member | source | states |
|---|---|---|
| Text.ToLower | frontend/src/pages/Admin/Members.tsx:64-66 | ASCII lower-casing keeps the length, lowers each upper-case letter, and leaves no upper-case letter. |
| Text.Before | frontend/src/services/member.service.ts:143 | `split(c)[0]` is a prefix without `c`, and when it is shorter than the string, `c` follows it. |
| Text.BeforeFirst | frontend/src/services/member.service.ts:148 | The text before the first `c` is determined by the position of that first `c`. |
| Text.SplitCount | frontend/src/pages/User/Dashboard.tsx:76 | `split(c)` yields one piece more than there are occurrences of `c`. |
| Text.SplitAt | frontend/src/pages/User/Dashboard.tsx:76 | Splitting `a + c + b`, with `c` absent from `a`, gives `a` followed by the pieces of `b`. |
| Text.Trim | frontend/src/pages/User/Dashboard.tsx:58 | A trimmed string is the string with only white space removed before and after it, and it is empty or starts and ends with non-white-space. White space is ECMAScript's WhiteSpace and LineTerminator, Unicode spaces included. |
| Text.TrimEmptyIffBlank | frontend/src/pages/User/Dashboard.tsx:58 | `trim()` gives the empty string exactly when the string is all white space. |
| Seqs.Filter | frontend/src/pages/Admin/Members.tsx:63-69 | The filter result is no longer than the input, holds only kept elements of it, and holds every kept element. Each kept value occurs exactly as often as in the input, so duplicates are kept, and rejected values do not occur. |
| Seqs.FilterIsSubseq | frontend/src/pages/Admin/Members.tsx:63-69 | A filter result is an order-preserving subsequence of its input. |
| Seqs.FilterMonotone | frontend/src/pages/Admin/Members.tsx:67 | A weaker predicate keeps a superset of elements, and the stronger result is a subsequence of the weaker one. |
| AuthStore.Step | frontend/src/stores/authStore.ts:24-182 | One event never turns `loading` back on. A user present afterwards was present before or was just loaded by a profile query. `signIn` leaves the store untouched. |
| AuthStore.Run | frontend/src/stores/authStore.ts:80-181 | Over any sequence of events the store stays initialised once initialised, `loading` never returns, and each event starts at most one listener profile query. |
| AuthStore.CreatedSignedOutAndLoading | frontend/src/stores/authStore.ts:20-22 | The store starts with no user and `loading` true. |
| AuthStore.LoadingNeverReturns | frontend/src/stores/authStore.ts:80-181 | Once `loading` is false, no sequence of events sets it true again. |
| AuthStore.UserOnlyFromProfileQuery | frontend/src/stores/authStore.ts:89-181 | A user present after any run was present before it or was delivered by a successful profile query during it. |
| AuthStore.SignedInOnlyAfterProfileQuery | frontend/src/stores/authStore.ts:89-181 | From the created store, every signed-in user came from a profile row that a query returned. |
| AuthStore.StepKeepsLoadingCause | frontend/src/stores/authStore.ts:133-181 | While `loading` is true, something is pending that would end it: no initialize yet, an armed timer, or a profile query in flight. Every step keeps this. |
| AuthStore.RunKeepsLoadingCause | frontend/src/stores/authStore.ts:133-181 | No run leaves `loading` true with nothing pending. |
| AuthStore.ListenerProfileFailClosed | frontend/src/stores/authStore.ts:97-118 | On the listener path the user becomes the fetched row. On an error or an exception, the remote session is signed out and the user cleared. `loading` ends false. |
| AuthStore.InitialProfileFailClosed | frontend/src/stores/authStore.ts:151-175 | On the initial path, the same outcome, except that only an error result, not an exception, signs the remote session out. |
| AuthStore.SessionSettledOutcome | frontend/src/stores/authStore.ts:138-181 | A settled `getSession()` always disarms the timer. No session, an error, or a rejection give `{null, false}`. A session defers to the profile query. |
| AuthStore.ListenerWithoutSession | frontend/src/stores/authStore.ts:119-122 | The listener called without a session gives `{null, false}`. |
| AuthStore.TimerOutcome | frontend/src/stores/authStore.ts:133-140 | An armed timer gives `{null, false}`. A cleared timer changes nothing. |
| AuthStore.SignOutOutcome | frontend/src/stores/authStore.ts:77-81 | A provider error is rethrown with the store unchanged. Success clears the user and keeps `loading`. |
| AuthStore.SignInReply | frontend/src/stores/authStore.ts:24-58 | `signIn` returns the profile iff both the credentials and the lookup succeed. Otherwise it throws the auth error, "User profile not found…" on a lookup error, or the lookup's exception. |
| AuthStore.SignInOutcome | frontend/src/stores/authStore.ts:24-58 | `signIn` never changes the store. It returns the profile exactly when both the credentials and the lookup succeed. It rethrows an auth error, and throws "User profile not found…" on a lookup error. |
| AuthStore.HungProfileQueryKeepsLoading | frontend/src/stores/authStore.ts:133-167 | The timer is cleared before the profile query, so a hung query leaves the store at `{null, true}` even after the timer fires. |
| AuthStore.TimerDiscardsListenerProfile | frontend/src/stores/authStore.ts:112-136 | A profile loaded by the listener is wiped when the timer fires later. |
| AuthStore.LateProfileAfterSignOut | frontend/src/stores/authStore.ts:77-118 | A profile query settling after `signOut` restores the user. |
| Router.DeniedDashboard | frontend/src/config/router.tsx:49-58 | The Access Denied button goes to `/admin` iff the role is admin, `/member` iff member, and `/user` for every other role. |
| Router.RoleHome | frontend/src/config/router.tsx:86-94 | `PublicRoute` sends admin to `/admin`, member to `/member`, and every other role to `/user`, each as an iff. |
| Router.SwitchesAgree | frontend/src/config/router.tsx:49-94 | The two role switches agree on every role. |
| Router.ProtectedRoute | frontend/src/config/router.tsx:14-70 | It shows loading iff `loading`. It redirects to `/auth` iff there is no user. It denies iff the role is not allowed, showing that role and the role's dashboard. It renders iff the role is allowed. |
| Router.PublicRoute | frontend/src/config/router.tsx:73-98 | It shows loading iff `loading`. It redirects iff a user is present, to that role's home. It renders iff no user is present. It never denies. |
| Router.LoadingGuardsEverything | frontend/src/config/router.tsx:23-29 | While loading, both guards show the placeholder, whatever the user and the roles. |
| Router.Find | frontend/src/config/router.tsx:103-156 | A route lookup fails iff no route has the path, and a hit is a route of the table. |
| Router.FindAt | frontend/src/config/router.tsx:103-156 | The lookup returns the element of the first route carrying the path. |
| Router.DropTrailingSlashes | frontend/src/config/router.tsx:103-156 | The result is a prefix followed in the input only by slashes, and ends in no slash unless it is a lone `/`. |
| Router.MatchKey | frontend/src/config/router.tsx:103-156 | The compared path is the lower-cased path with its trailing slashes dropped, a lone leading one kept. |
| Router.MatchKeyFixes | frontend/src/config/router.tsx:103-156 | A lower-case path without a trailing slash is compared as written. |
| Router.MatchKeyIgnoresCase | frontend/src/config/router.tsx:103-156 | Lower-casing a path does not change what it is compared as. |
| Router.MatchKeyIgnoresTrailingSlash | frontend/src/config/router.tsx:103-156 | Adding a slash to a non-empty path does not change what it is compared as. |
| Router.Visit | frontend/src/config/router.tsx:103-156 | Navigation yields a decision iff some route has the path, compared case-insensitively and without trailing slashes. |
| Router.VisitIgnoresCaseAndTrailingSlash | frontend/src/config/router.tsx:103-156 | `/Admin/`, `/ADMIN` and `/admin` reach the same decision. |
| Router.HomeIsItsOwnKey | frontend/src/config/router.tsx:86-94 | The home path of each known role reaches its route as written. |
| Router.PathsDistinct | frontend/src/config/router.tsx:103-156 | No two routes share a path. |
| Router.ProtectedRoutesAllowOneRole | frontend/src/config/router.tsx:116-155 | Every protected route allows exactly one role. |
| Router.RootRedirectsToAuth | frontend/src/config/router.tsx:104-107 | `/` redirects to `/auth` whoever is signed in. |
| Router.HomeRouteAllowsRole | frontend/src/config/router.tsx:116-155 | The home route of admin, member and user is protected for that role alone. |
| Router.VisitHomeRenders | frontend/src/config/router.tsx:116-155 | A signed-in user with a known role who visits their home sees it rendered. |
| Router.PublicRedirectNeverDenied | frontend/src/config/router.tsx:84-155 | Following `PublicRoute`'s redirect for a known role renders, and never ends in Access Denied. |
| Router.DeniedDashboardRenders | frontend/src/config/router.tsx:46-58 | The Access Denied button of a known role names a page that renders, once the store started by the page load has settled on the same signed-in user. |
| Router.UnknownRoleDeniedAtHome | frontend/src/config/router.tsx:84-155 | A role outside the three is redirected to `/user` and denied there. |
| MemberService.DisplayName | frontend/src/services/member.service.ts:143 | The name is never empty. It is the full name when non-empty, else the email's text before its first `@`. Any other value is "Unknown User". |
| MemberService.JoinDateOf | frontend/src/services/member.service.ts:148 | The join date is `created_at` up to its first `T`, all of `created_at` when it has no `T`, or today when `created_at` is missing or empty. |
| MemberService.FromProfile | frontend/src/services/member.service.ts:140-152 | Every field of a mapped member: `id = user_id = profile.id`, the display name, the email or "no-email@example.com", empty phone, address and emergency contact, no photo, package or expiry, active, the join date of `created_at`, and `created_at` / `updated_at` from the profile or now. |
| MemberService.FromProfiles | frontend/src/services/member.service.ts:140-152 | The mapping keeps length and order, element by element. |
| MemberService.FromProfilesShape | frontend/src/services/member.service.ts:136-158 | Every mapped member has its profile's id, active status and empty contact fields. The email falls back to "no-email@example.com". An empty list maps to `[]`. |
| MemberService.GetAll | frontend/src/services/member.service.ts:71-164 | A failed connection probe uses the direct REST result, otherwise the client query; both map rows the same way. Their failures become "All connection methods failed: …" and "Failed to fetch profiles: …". |
| MemberService.MembersRow | frontend/src/services/member.service.ts:181-187 | The `members` insert keeps the input and defaults the join date to today and the status to active. |
| MemberService.FromInsertedProfile | frontend/src/services/member.service.ts:211-223 | The fallback member has the inserted profile's id (also its user id) and email, with the same join date and status defaults as the members insert. Its name is the profile's full name when truthy, else the email's text before `@`, with no "Unknown User" fallback. Phone, address and emergency contact are the input's or `''`. Both timestamps are the profile's `created_at` or now. There is no photo, package or expiry. |
| MemberService.Create | frontend/src/services/member.service.ts:178-231 | It always requests the `members` insert with the defaults applied. If a row comes back it returns it and requests nothing else. Otherwise it requests the `profiles` insert of the input's email and name with role `user`, and returns that insert's error, or exactly the fallback member built from the inserted row. |
| MemberService.CreateDefaults | frontend/src/services/member.service.ts:185-186 | With no status and no join date, the created member is active and joined today. |
| MemberService.GetAllPathsAgree | frontend/src/services/member.service.ts:71-164 | Given the same rows, the direct request and the client query yield the same members. |
| MemberForm.IsValidEmail | frontend/src/components/admin/MemberForm.tsx:151 | The matcher accepts exactly the language of `^[A-Z0-9._%+-]+@[A-Z0-9.-]+\.[A-Z]{2,}$`, case-insensitively. |
| MemberForm.SplitPositionsForced | frontend/src/components/admin/MemberForm.tsx:151 | Every way of matching the pattern puts the `@` at the first `@` and the `.` at the last `.`. |
| MemberForm.AcceptedEmailShape | frontend/src/components/admin/MemberForm.tsx:151 | An accepted email has exactly one `@` and ends with `.` followed by two or more letters. |
| MemberForm.EmailExamples | frontend/src/components/admin/MemberForm.tsx:151 | A plain address is accepted. |
| MemberForm.MixedCaseEmailExample | frontend/src/components/admin/MemberForm.tsx:151 | Mixed-case addresses with a `+` and a sub-domain are accepted. |
| MemberForm.OneLetterTopLevelDomainRejected | frontend/src/components/admin/MemberForm.tsx:151 | A one-letter top-level domain is rejected. |
| MemberForm.TwoAtSignsRejected | frontend/src/components/admin/MemberForm.tsx:151 | A second `@` is rejected. |
| MemberForm.EmailError | frontend/src/components/admin/MemberForm.tsx:148-153 | An empty email gives "Email is required". A non-empty email is accepted iff it matches the pattern, and otherwise gives "Invalid email address". |
| MemberForm.Validate | frontend/src/components/admin/MemberForm.tsx:132-194 | There are no errors iff the name is non-empty, the email matches and the join date is set. Each "… is required" message appears iff its field is empty. |
| MemberForm.InputOf | frontend/src/components/admin/MemberForm.tsx:25 | An edited member fills the form with its own fields. |
| MemberForm.DefaultValues | frontend/src/components/admin/MemberForm.tsx:25-28 | A new form has status active and today's join date, with name and email empty. An edit form holds the member. |
| MemberForm.NewFormNeedsNameAndEmail | frontend/src/components/admin/MemberForm.tsx:25-28 | An untouched new form fails exactly on name and email. |
| MemberForm.Submit | frontend/src/components/admin/MemberForm.tsx:48-62 | It calls update with the member's id when editing, and create otherwise. `onSuccess` and `onClose` run iff the call succeeds. An error shows its own message when non-empty, and "Operation failed" otherwise. |
| MemberForm.CallIndependentOfOutcome | frontend/src/components/admin/MemberForm.tsx:48-62 | The service call made does not depend on how it settles. |
| MemberForm.HandleSubmit | frontend/src/components/admin/MemberForm.tsx:92 | The submit runs iff every field rule passes. |
| MemberForm.PhotoUploaded | frontend/src/components/admin/MemberForm.tsx:31-46 | `uploading` ends false. On success the URL becomes the photo field, every other value unchanged, and the preview. On failure the values and the preview are unchanged. |
| MemberForm.UploadSettledReleasesSubmit | frontend/src/components/admin/MemberForm.tsx:31-46 | After an upload settles, the submit button is disabled iff a submit is running. |
| MemberForm.LastUploadWins | frontend/src/components/admin/MemberForm.tsx:37-38 | A later successful upload replaces the photo; a later failed one keeps it. |
| MemberForm.NoSubmitWhileBusy | frontend/src/components/admin/MemberForm.tsx:241 | The submit button is disabled iff a submit or an upload is running. |
| AdminMembers.FilteredMembers | frontend/src/pages/Admin/Members.tsx:63-69 | A member is shown iff it is listed and matches both search and status. The result is an order-preserving subsequence of the list. Each shown member occurs as often as in the list, so duplicates are kept. |
| AdminMembers.EmptySearchShowsAll | frontend/src/pages/Admin/Members.tsx:64-67 | An empty term with status "all" shows every member. |
| AdminMembers.StatusFilterIsExact | frontend/src/pages/Admin/Members.tsx:67 | "active" and "inactive" show only members of that status. |
| AdminMembers.AllCoversEachStatus | frontend/src/pages/Admin/Members.tsx:67 | For a fixed term, each status result is a subsequence of the "all" result. |
| AdminMembers.SearchIgnoresCase | frontend/src/pages/Admin/Members.tsx:64-66 | Matching ignores the case of the term. |
| AdminMembers.OutcomeOf | frontend/src/pages/Admin/Members.tsx:29-32 | The race yields the members iff `getAll` succeeds, and otherwise its error. |
| AdminMembers.LoadMembers | frontend/src/pages/Admin/Members.tsx:18-44 | `loading` ends false. Either the list is replaced and the error cleared, or the list is kept and the error is set: "Request timeout", the failure's own message when non-empty, or "Failed to load members". |
| AdminMembers.LastSuccessfulLoadWins | frontend/src/pages/Admin/Members.tsx:18-44 | A successful load replaces whatever earlier loads left, and a failure after it keeps its list. |
| PublicPackages.Inserted | frontend/src/pages/Public/Packages.tsx:37-38 | INSERT appends the row: one longer, prefix unchanged, and the multiset grows by the row. |
| PublicPackages.Updated | frontend/src/pages/Public/Packages.tsx:40-45 | UPDATE keeps length and ids. Entries with the row's id become the row; all others are unchanged. |
| PublicPackages.Deleted | frontend/src/pages/Public/Packages.tsx:47-50 | DELETE keeps, in order, exactly the entries whose id differs. |
| PublicPackages.Apply | frontend/src/pages/Public/Packages.tsx:34-53 | The callback appends an INSERT's row, replaces in place every entry with an UPDATE's id, and drops every entry with a DELETE's id, keeping the rest in order. |
| PublicPackages.InsertKeepsDuplicates | frontend/src/pages/Public/Packages.tsx:38 | Inserting a listed package lists it twice. There is no deduplication. |
| PublicPackages.UpdateOfAbsentIdIsNoop | frontend/src/pages/Public/Packages.tsx:41-45 | An UPDATE of an unlisted id changes nothing. |
| PublicPackages.UpdateIdempotent | frontend/src/pages/Public/Packages.tsx:40-45 | Repeating an UPDATE changes nothing more. |
| PublicPackages.DeleteOfAbsentIdIsNoop | frontend/src/pages/Public/Packages.tsx:47-50 | A DELETE of an unlisted id changes nothing. |
| PublicPackages.DeleteCount | frontend/src/pages/Public/Packages.tsx:47-50 | A DELETE shortens the list by exactly the number of entries with that id. |
| PublicPackages.InsertThenUpdate | frontend/src/pages/Public/Packages.tsx:37-45 | An UPDATE after an INSERT of the same id also replaces the appended row. |
| PublicPackages.DurationLabel | frontend/src/pages/Public/Packages.tsx:87-95 | A known lower-cased duration gives its label, any other gives "per " and the duration as typed; every label starts with "per ". |
| PublicPackages.DurationLabelsIgnoreCase | frontend/src/pages/Public/Packages.tsx:87-94 | monthly, quarterly, yearly and weekly, in any case, give their fixed labels. |
| PublicPackages.DurationLabelExamples | frontend/src/pages/Public/Packages.tsx:94 | "Monthly" gives "per month", and "Daily" keeps its casing. |
| MemberDashboard.FirstReadAt | frontend/src/pages/Member/Dashboard.tsx:84 | `read_at` is the first read row's non-empty `read_at`, else null. |
| MemberDashboard.Format | frontend/src/pages/Member/Dashboard.tsx:82-85 | A formatted notification keeps id, title, message, priority and creation time, and takes the first read's `read_at`. |
| MemberDashboard.FormatAll | frontend/src/pages/Member/Dashboard.tsx:82-85 | Formatting keeps length and order, and absent data gives `[]`. |
| MemberDashboard.UnreadCount | frontend/src/pages/Member/Dashboard.tsx:259-261 | The badge count is at most the list length, is zero iff every notification has a `read_at`, and is the whole length when none has. |
| MemberDashboard.LoadedUnreadCount | frontend/src/pages/Member/Dashboard.tsx:82-85 | After loading, the badge counts the rows whose first joined read has no `read_at`. |
| MemberDashboard.LocalMark | frontend/src/pages/Member/Dashboard.tsx:112-118 | The local update sets `read_at` only on notifications with that id; length, order and all others are unchanged. |
| MemberDashboard.MarkAsRead | frontend/src/pages/Member/Dashboard.tsx:97-123 | The upsert is sent iff there is a member id. The list changes only after a successful upsert. |
| MemberDashboard.MarkLowersUnreadCount | frontend/src/pages/Member/Dashboard.tsx:112-118 | Marking lowers the unread badge by exactly the number of unread notifications with that id. |
| MemberDashboard.MarkTwiceKeepsReadStatus | frontend/src/pages/Member/Dashboard.tsx:112-118 | A second mark changes no read status. |
| MemberDashboard.StatusColor | frontend/src/pages/Member/Dashboard.tsx:180-191 | paid is green, pending yellow, overdue red, and anything else gray, each as an iff. |
| MemberDashboard.StatusColorDeterminesStatus | frontend/src/pages/Member/Dashboard.tsx:180-191 | A known status shares its colour with no other status. |
| MemberDashboard.PriorityColor | frontend/src/pages/Member/Dashboard.tsx:193-204 | high is red and normal blue; low and anything else are gray, each as an iff. |
| MemberDashboard.ShortId | frontend/src/pages/Member/Dashboard.tsx:129 | The short id is the bill id's first 8 characters, or all of a shorter id. |
| MemberDashboard.ReceiptNumber | frontend/src/pages/Member/Dashboard.tsx:129 | The receipt number is "Receipt #" followed by exactly the short id, at most 17 characters. |
| MemberDashboard.ReceiptFileName | frontend/src/pages/Member/Dashboard.tsx:147 | The file name is "receipt-", exactly the short id, and ".txt", at most 20 characters. |
| MemberDashboard.ReceiptNamesAgree | frontend/src/pages/Member/Dashboard.tsx:125-147 | The heading and the file name carry the same short id, and different short ids give different names. |
| MemberDashboard.ReceiptsCollideOnSharedPrefix | frontend/src/pages/Member/Dashboard.tsx:125-147 | Bills whose ids share their first 8 characters get the same receipt number and file name. |
| UserDashboard.ClauseCommas | frontend/src/pages/User/Dashboard.tsx:76 | A clause holds exactly the commas of the query. |
| UserDashboard.ClauseWithoutCommas | frontend/src/pages/User/Dashboard.tsx:76 | A clause built from a comma-free query has no comma. |
| UserDashboard.QueryEmbeddedVerbatim | frontend/src/pages/User/Dashboard.tsx:76 | The filter is `3·|q| + 43` long. The query appears in it exactly as typed, untrimmed, after `name.ilike.%`. |
| UserDashboard.OrFilterCommas | frontend/src/pages/User/Dashboard.tsx:76 | The filter holds two commas of its own and three per comma of the query. |
| UserDashboard.OrFilterClauses | frontend/src/pages/User/Dashboard.tsx:76 | A comma-free query splits into exactly the name, email and phone clauses. |
| UserDashboard.OrFilterPieceCount | frontend/src/pages/User/Dashboard.tsx:76 | Each comma in the query adds three pieces to the split filter. |
| UserDashboard.PackageName | frontend/src/pages/User/Dashboard.tsx:88 | The package name is the joined name, else "No Package". |
| UserDashboard.ToRecords | frontend/src/pages/User/Dashboard.tsx:81-89 | The mapping keeps length and order and copies id, name, email, phone, join date and status. |
| UserDashboard.ToRecordsAppend | frontend/src/pages/User/Dashboard.tsx:81-89 | Mapping a concatenation is concatenating the mappings. |
| UserDashboard.HandleSearch | frontend/src/pages/User/Dashboard.tsx:57-104 | A blank query sends nothing and changes nothing. Otherwise it sends the raw-query filter with limit 10, `loading` ends false, and results are replaced only on success. |
| UserDashboard.BlankQuerySendsNothing | frontend/src/pages/User/Dashboard.tsx:58-61 | No request is sent iff the query is all white space, and the page is then unchanged. |
| Logging.Plan | frontend/src/services/logging.service.ts:125-147 | At most four calls, each one of the two `eq`s, the `limit` or the range built from the filters, and a range only in last place. |
| Logging.PageSize | frontend/src/services/logging.service.ts:145 | The page size is the limit when truthy, else 50. |
| Logging.Normalize | frontend/src/services/logging.service.ts:130-147 | A filter survives normalization iff it is truthy. |
| Logging.EqValue | frontend/src/services/logging.service.ts:130-136 | An `eq` value is read back iff the plan has an `eq` on that column. |
| Logging.LimitValue | frontend/src/services/logging.service.ts:138-140 | A limit is read back iff the plan has a `limit` call. |
| Logging.RangeStart | frontend/src/services/logging.service.ts:142-147 | A range start is read back iff the plan has a `range` call. |
| Logging.PlanRoundTrip | frontend/src/services/logging.service.ts:130-147 | Reading the plan back gives exactly the truthy filters. |
| Logging.SamePlanIffSameTruthyFilters | frontend/src/services/logging.service.ts:130-147 | Two filter sets build the same plan iff they agree on their truthy entries. |
| Logging.CallsIffTruthy | frontend/src/services/logging.service.ts:130-147 | Each `eq`, the `limit` and the `range` are added iff their filter is truthy. |
| Logging.RangeSpansPageSize | frontend/src/services/logging.service.ts:142-147 | A truthy offset adds, last, the range `[offset, offset + (limit or 50) - 1]`, which spans exactly `limit || 50` rows. |
| Logging.LimitAloneOnlyLimits | frontend/src/services/logging.service.ts:138-147 | A limit with no offset or offset 0 only limits. |
| Logging.FalsyFiltersBuildNothing | frontend/src/services/logging.service.ts:130-147 | No filters, or empty strings and zeros, add no call. |
| Logging.ActingUser | frontend/src/services/logging.service.ts:69-74 | It uses the explicit user id when truthy, and otherwise the session's. A session lookup that throws leaves no user to log. |
| Logging.LogAction | frontend/src/services/logging.service.ts:63-97 | The promise always resolves. A row is sent unless the session lookup threw. The row carries the action, the details, no IP, and the chosen user. |
| Logging.InsertOutcomeIrrelevant | frontend/src/services/logging.service.ts:86-96 | An insert error or exception changes nothing `logAction` does. |
| Logging.ExplicitUserIgnoresSession | frontend/src/services/logging.service.ts:70-74 | With a truthy user id, the session plays no part. |
| Logging.ErrorDetails | frontend/src/services/logging.service.ts:107-111 | The details' keys are `error`, `stack` and the context's. Context values win. Otherwise `error` is the message and `stack` is the stack, or undefined. |
| Logging.LogError | frontend/src/services/logging.service.ts:102-112 | `logError` resolves and sends `error_occurred` with the merged details. |
| Logging.ContextOverridesError | frontend/src/services/logging.service.ts:107-111 | A context `error` key replaces the message. Without one the message stays. Without a context the details are exactly message and stack. |

## Left out

- Network, database, storage and realtime mechanics (the Supabase client, the REST `fetch`, channel subscriptions, the connection probe): every call is replaced by the value it settles with.
- Ordering and limits that the server applies: the server honours `order(...)`, `limit(10)` and `range(...)`. The model states which calls are made, not which rows come back.
- JSX rendering, toasts, `console` output, `confirm()` and the Blob / URL receipt download.
- Locale and time formatting, and `new Date()`: these are the `today` / `now` parameters. The two timestamps taken in `markNotificationAsRead` (the upsert's and the local update's) are one `now` here.
- `Math.random` file naming in `uploadPhoto`, and the upload itself. Its outcome is a parameter of `MemberForm.PhotoUploaded`.
- Timer wall-clock time and `Promise.race`: the timeouts are discrete events (`AuthStore.TimerFired`, `AdminMembers.TimedOut`).
- Unicode case folding: `toLowerCase` and the case-insensitive email pattern are modelled over ASCII letters only.
- Property names inherited from `Object.prototype` (such as `constructor`) in `getDurationLabel`'s lookup table: the model treats only the four listed durations as keys.
- `signUp`, `getById`, `update`, `delete`, `uploadPhoto`, `fetchMemberData`, `fetchUserDetails` and `fetchPackages`: these only forward to the database.
- `getActivityLogs`' response: it throws the query's error or returns its rows unchanged. The model covers the query it builds.
- The `logAction` calls inside `create`: their effect on `create` is nothing, because `Logging.LogAction` always resolves.
- AuthStore.Step: a second `initialize` is modelled as a no-op, because it is called once at start-up. The provider's own listener calls after `signOut()` are separate `AuthStateChanged` events, not part of the `SignOut` step.
- AuthStore.Step: a failing remote `signOut()` inside the fail-closed paths leads, through the surrounding `catch` blocks, to the same `{null, false}` state. Only the fact that a sign-out was issued is recorded.
- Text.TrimEmptyIffBlank: white space is the set ECMAScript's `trim` removes, spelled out as code points; a space separator added to Unicode's category Zs after that list was taken is not in it.
- Router.Visit: `createBrowserRouter` percent-decodes the path before matching it; the model compares the path as given. Case folding is ASCII, which is what a case-insensitive pattern of ASCII letters does.
- Router.DeniedDashboardRenders: the button assigns `window.location.href`, a full page load that starts a new store. The lemma is about the decision once that store has settled on the same user, not about the sign-in the reload goes through.
- MemberForm.HandleSubmit: the email input has `type="email"`, and the browser's own check of that type can block a submit the form's rules allow (for example `a@b..cd` or `a@-b.cd`). The model states only the form's rules.
- MemberForm.InputOf: when editing, the form's default values are the whole member record, so the `update` call also receives keys such as `id` and `created_at`. The model's input type carries only the form's fields.
- Logging.Plan: `limit` and `offset` are JavaScript numbers. The model takes them as integers, without `NaN` or fractions.
- The `or` filter's grammar beyond its commas: parentheses, double quotes and reserved characters in the search query are not interpreted.
- The `role` column is a plain string. Only the three declared roles are proved never to be denied at their home; `Router.UnknownRoleDeniedAtHome` covers the rest.
