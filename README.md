# FriendForce client: a Dafny model

FriendForce is a personal-relationship manager. Its React client lists
contacts and reminders, composes email "blasts", and shows a dashboard. All
data lives behind a REST API under `/api/friendforce`. This project models
the client's logic and proves properties of it. That logic is:

- the view-model rules of the four pages: filters, counts, labels, form
  validation and the dialog state machines;
- the request and response shaping in `src/lib/api.ts`;
- the cache-invalidation policy of the react-query hooks.

The modules follow the source files:

| module | source |
|---|---|
| `Types` | `src/types/friendforce.ts`: the records, as datatypes |
| `Api` | `src/lib/api.ts`: `fetchWithCSRF`, `handleResponse`, the endpoint table |
| `QueryCache` | the part of react-query the hooks rely on, stated as an assumption |
| `DashboardHooks`, `ContactHooks`, `ReminderHooks` | `src/hooks/use-dashboard.ts`, `use-contacts.ts`, `use-reminders.ts` |
| `ContactsPage`, `RemindersPage`, `BlastsPage`, `DashboardPage` | `src/pages/Contacts.tsx`, `Reminders.tsx`, `Blasts.tsx`, `Dashboard.tsx` |
| `Text`, `Seqs`, `Display`, `Wrappers` | the JavaScript primitives the pages use, the `getInitials` helper (defined identically in `Contacts.tsx`, `Reminders.tsx` and `Dashboard.tsx`), the `formatLastContact` helper (defined identically in `Contacts.tsx` and `Dashboard.tsx`), and `Option` |

The page state holders are classes:

- `ContactsPageState`, `RemindersPageState`, `BlastComposer` and
  `DashboardPageState` hold the `useState` fields. Their handlers are
  methods that modify those fields.
- The shared query client is the class `QueryCache.Cache`. Its `entries`
  map from query key to `Fresh` or `Stale`.
- Every handler that awaits a mutation takes a boolean saying whether the
  mutation resolves. It calls the hook's settle method on the cache. Its
  `ensures` states, for both outcomes, the new dialog state, the toast,
  what is sent (the payload, the selected id, or the `Api.Endpoint`
  naming the contact or reminder the request is for) and the new cache
  entries.
- Toasts are return values.

Modelling choices that differ from a literal reading of the source:

- **Dates.** A reminder's `due_date` is an integer day number.
  `getDaysUntil` is also modelled on millisecond instants with a fixed
  local-time offset (`RemindersPage.GetDaysUntil`). On two instants it is
  the difference of their local day numbers. The due date string is
  parsed as midnight UTC, so west of UTC the count is one day short (see
  Findings); the rest of the model counts local days, as intended.
- **`handleResponse`.** The response body is an `Option<Json>`. `None`
  stands for a body that `response.json()` cannot parse.
- **A non-ok response whose body is JSON `null`.** `.catch(() => ({}))`
  only replaces a parse failure, so `error.detail` then throws a
  `TypeError`, not the intended `Error`. The model keeps this case as the
  outcome `Threw(DetailOfNull)`.
- **The table of paths and methods** is proved injective for well-formed
  ids.
- **The reminder id "upcoming"** is the exception: `GET
  /reminders/upcoming/` is both `remindersApi.upcoming` and
  `remindersApi.get("upcoming")`. The query key `["reminders",
  "upcoming"]` is likewise shared by `useUpcomingReminders` and
  `useReminder("upcoming")`.
- **"1 days overdue".** The day label has no singular, so one day overdue
  reads "1 days overdue"; `RemindersPage.OneDayOverdue` shows this.

## Model

| member | source | states |
|---|---|---|
| Types.ContactTypeName | src/types/friendforce.ts:1 | the three type literals, none of them the selector value "all" |
| Text.Lower | src/pages/Contacts.tsx:74-75 | `toLowerCase` keeps the length and lowers every character in place |
| Text.ContainsIffOccurs | src/pages/Contacts.tsx:74-75 | `includes` holds exactly when the needle occurs at some index of the haystack |
| Text.Contains | src/pages/Contacts.tsx:74-75 | `includes` as a scan: the needle is a prefix of the haystack or of one of its suffixes; `ContainsIffOccurs` gives its meaning |
| Text.Split | src/pages/Contacts.tsx:119-121 | `split(" ")` returns at least one piece, and no piece holds the separator |
| Text.JoinSplit | src/pages/Contacts.tsx:119-121 | joining the pieces of a split with the separator gives back the string |
| Text.Join | src/lib/api.ts:32 | `Array.prototype.join(sep)`: the pieces with the separator between each two; `JoinSplit` and `SplitJoin` make it the inverse of `Split` |
| Text.SplitJoin | src/lib/api.ts:40-144 | splitting a join of separator-free pieces gives back the pieces |
| Text.TrimStart | src/pages/Blasts.tsx:27 | removes exactly the leading run of ECMAScript whitespace |
| Text.TrimEnd | src/pages/Blasts.tsx:27 | removes exactly the trailing run of ECMAScript whitespace |
| Text.Trim | src/pages/Blasts.tsx:27 | `trim()` never grows the string and leaves no whitespace at either end |
| Text.TrimEmptyIffBlank | src/pages/Blasts.tsx:27 | `trim()` is empty exactly when every character is whitespace |
| Text.NatToString | src/lib/api.ts:32 | the decimal rendering is non-empty digits without a leading zero |
| Text.ParseNatToString | src/lib/api.ts:32 | reading back the decimal digits gives the number |
| Text.NatToStringInjective | src/lib/api.ts:32 | different numbers render differently |
| Text.NumberInTextInjective | src/pages/Reminders.tsx:118-121 | a number set between a fixed prefix and suffix can be read back |
| Seqs.Filter | src/pages/Contacts.tsx:71-79 | `filter` keeps only elements satisfying the predicate and never grows |
| Seqs.FilterIsSubsequence | src/pages/Contacts.tsx:71-79 | a filtered list is a subsequence of its source, in order |
| Seqs.FilterMultiset | src/pages/Contacts.tsx:71-79 | every satisfying element is kept as often as it occurs; the rest are dropped |
| Seqs.FilterMembership | src/pages/Reminders.tsx:69-72 | an element is in the filtered list exactly when it is in the list and satisfies the predicate |
| Seqs.FilterIdempotent | src/pages/Contacts.tsx:71-79 | filtering twice with one predicate is filtering once |
| Seqs.FilterPartition | src/pages/Reminders.tsx:69-72 | a predicate and its negation split a list, by multiset and by length |
| Display.FirstChar | src/pages/Contacts.tsx:122 | `n[0]` is one character, or nothing for an empty token |
| Display.Initials | src/pages/Contacts.tsx:119-123 | no more initials than tokens from splitting on a space |
| Display.WordStartsAgree | src/pages/Contacts.tsx:119-123 | split-map-join equals a character scan that keeps each non-space character following a space or the start |
| Display.InitialsAreWordStarts | src/pages/Contacts.tsx:119-123 | the initials are exactly the word-starting characters, with their case unchanged |
| Display.WordStartsHaveNoSpace | src/pages/Contacts.tsx:119-123 | initials never contain a space, so empty tokens contribute nothing |
| Display.FormatLastContact | src/pages/Contacts.tsx:114-117 | "Never" exactly when the date is null or empty; otherwise the relative phrase for that date |
| Api.ErrorDetail | src/lib/api.ts:31-32 | an error body has a detail exactly when it is an object whose `detail` is truthy |
| Api.JsString | src/lib/api.ts:32 | `String(x)` on a JSON value: a string is itself, a number its decimal digits, `null` and booleans their keywords, an array its joined items, an object "[object Object]" |
| Api.HandleResponse | src/lib/api.ts:29-38 | non-ok always throws: `detail` as text if truthy, else "Request failed: status"; a `null` body gives the TypeError; ok 204 returns undefined; other ok returns the parsed body or rejects |
| Api.DetailStringIsMessage | src/lib/api.ts:32 | a non-empty string `detail` becomes the error message unchanged |
| Api.GenericMessage | src/lib/api.ts:32 | the fallback message "Request failed: " followed by the status; `GenericMessageIdentifiesStatus` shows it names the status |
| Api.GenericMessageIdentifiesStatus | src/lib/api.ts:32 | two generic messages are equal exactly when their statuses are |
| Api.FetchWithCsrf | src/lib/api.ts:13-27 | Content-Type, X-CSRFToken and the caller's headers as keys; caller headers win; Content-Type defaults to application/json; X-CSRFToken is the token when truthy; credentials are "include"; url, method and body pass through |
| Api.Path | src/lib/api.ts:40-144 | the URL of each client function, built from the base, the resource, the id and the action; `PathIsSegments` and `RouteInvertsTable` are its properties |
| Api.Method | src/lib/api.ts:40-144 | the HTTP method of each client function: GET for reads, POST for create, log-interaction and complete, PATCH for update, DELETE for delete |
| Api.Options | src/lib/api.ts:40-144 | the options passed by each client function: no method exactly for the GET operations and otherwise the name of `Method(e)`; a body exactly for create and update, and then the payload; no credentials or headers of its own |
| Api.ApiRequest | src/lib/api.ts:40-144 | each client function fetches `Path(e)` with `Method(e)`; only create and update send a body; credentials "include"; X-CSRFToken exactly when a token is present |
| Api.PathIsSegments | src/lib/api.ts:11 | every path is the base, then the resource, the optional id and the optional action, each followed by "/" |
| Api.RouteInvertsTable | src/lib/api.ts:40-144 | method and path of a well-formed operation identify that operation |
| Api.TableIsInjective | src/lib/api.ts:40-144 | no two well-formed operations share method and path |
| Api.UpcomingIdCollides | src/lib/api.ts:88-91 | reading the reminder "upcoming" has the same method and path as the upcoming list |
| QueryCache.Invalidate | src/hooks/use-contacts.ts:26 | an invalidation keeps the key set, stales every key under the prefix and leaves the others |
| QueryCache.InvalidateAll | src/hooks/use-contacts.ts:25-28 | a sequence of invalidations stales exactly the keys under one of the prefixes |
| QueryCache.InvalidateIdempotent | src/hooks/use-contacts.ts:26 | invalidating a prefix twice is invalidating it once |
| QueryCache.InvalidateCommutes | src/hooks/use-contacts.ts:26-27 | the order of two invalidations does not matter |
| QueryCache.DisjointRoots | src/hooks/use-contacts.ts:21-63 | no key lies under two different one-element prefixes |
| QueryCache.Cache.InvalidateQueries | src/hooks/use-contacts.ts:26 | the cache's new entries are the invalidation of the old ones |
| QueryCache.Cache.constructor | src/App.tsx:23 | a new query client holds no entries |
| QueryCache.Cache.Read | src/hooks/use-contacts.ts:14-18 | a query fetches exactly when enabled and its key is missing or stale, after which the key is fresh |
| DashboardHooks.DashboardRoot | src/hooks/use-dashboard.ts:6-24 | ["dashboard"] is a prefix of the stats, stale and recent keys |
| DashboardHooks.DashboardStatsKey | src/hooks/use-dashboard.ts:7 | the stats query's key ["dashboard", "stats"] |
| DashboardHooks.StaleContactsKey | src/hooks/use-dashboard.ts:14 | the stale-contacts query's key ["dashboard", "stale"] |
| DashboardHooks.RecentContactsKey | src/hooks/use-dashboard.ts:21 | the recent-contacts query's key ["dashboard", "recent"] |
| ContactHooks.ContactsKey | src/hooks/use-contacts.ts:8 | the contact list's key ["contacts"], the prefix every contact mutation invalidates |
| ContactHooks.ContactKey | src/hooks/use-contacts.ts:15 | a contact's key lies under the list key ["contacts"] and differs from it |
| ContactHooks.ContactQueryEnabled | src/hooks/use-contacts.ts:17 | `enabled: !!id`: the query runs exactly for a non-empty id |
| ContactHooks.ContactInvalidations | src/hooks/use-contacts.ts:25-61 | the prefixes a successful mutation invalidates: ["contacts"] first, and ["dashboard"] for every mutation except update |
| ContactHooks.AfterContactMutation | src/hooks/use-contacts.ts:25-61 | the key set never changes; every contacts key is stale after a success and unchanged after a failure |
| ContactHooks.SettleContactMutation | src/hooks/use-contacts.ts:21-63 | the cache after a mutation settles is the per-mutation invalidation on success and unchanged on failure |
| ContactHooks.UseContact | src/hooks/use-contacts.ts:13-19 | an empty id fetches nothing and changes nothing; otherwise the read fetches exactly when the key is missing or stale; after a fetch the contact's key is fresh and nothing else changes |
| ContactHooks.ContactMutationInvalidates | src/hooks/use-contacts.ts:25-28 | create, delete and log-interaction stale every contacts and dashboard key and change no other |
| ContactHooks.ContactMutationRefreshesDashboard | src/hooks/use-dashboard.ts:7-22 | after such a mutation the three dashboard queries fetch on their next read |
| ContactHooks.UpdateSparesDashboard | src/hooks/use-contacts.ts:37-39 | an update stales the contacts keys and leaves the dashboard keys as they were |
| ContactHooks.ContactMutationSparesReminders | src/hooks/use-contacts.ts:21-63 | no contact mutation changes a reminders key |
| ContactHooks.FailedContactMutationChangesNothing | src/hooks/use-contacts.ts:25 | a failed mutation changes no entry |
| ReminderHooks.RemindersKey | src/hooks/use-reminders.ts:8 | the reminder list's key ["reminders"], the prefix every reminder mutation invalidates |
| ReminderHooks.UpcomingRemindersKey | src/hooks/use-reminders.ts:15 | the upcoming key lies under ["reminders"] |
| ReminderHooks.ReminderKey | src/hooks/use-reminders.ts:22 | a reminder's key lies under ["reminders"]; it equals the upcoming key exactly for the id "upcoming" |
| ReminderHooks.ReminderQueryEnabled | src/hooks/use-reminders.ts:24 | `enabled: !!id`: the query runs exactly for a non-empty id |
| ReminderHooks.ReminderInvalidations | src/hooks/use-reminders.ts:32-68 | the prefixes a successful mutation invalidates: ["reminders"] first, and ["dashboard"] for every mutation except update |
| ReminderHooks.AfterReminderMutation | src/hooks/use-reminders.ts:32-68 | the key set never changes; every reminders key is stale after a success and unchanged after a failure |
| ReminderHooks.SettleReminderMutation | src/hooks/use-reminders.ts:28-70 | the cache after a mutation settles is the per-mutation invalidation on success and unchanged on failure |
| ReminderHooks.UseReminder | src/hooks/use-reminders.ts:20-26 | an empty id fetches nothing and changes nothing; otherwise the read fetches exactly when the key is missing or stale; after a fetch the reminder's key is fresh and nothing else changes |
| ReminderHooks.ReminderMutationInvalidates | src/hooks/use-reminders.ts:32-35 | create, delete and complete stale every reminders and dashboard key and change no other |
| ReminderHooks.ReminderMutationRefreshesUpcoming | src/hooks/use-reminders.ts:15 | after such a mutation the upcoming list fetches on its next read |
| ReminderHooks.UpdateReminderSparesDashboard | src/hooks/use-reminders.ts:44-46 | an update stales the reminders keys and leaves the dashboard keys as they were |
| ReminderHooks.ReminderMutationSparesContacts | src/hooks/use-reminders.ts:28-70 | no reminder mutation changes a contacts key |
| ReminderHooks.FailedReminderMutationChangesNothing | src/hooks/use-reminders.ts:32 | a failed mutation changes no entry |
| ContactsPage.FilteredContacts | src/pages/Contacts.tsx:71-79 | a missing list gives nothing; every shown contact's lowered name or email contains the lowered search, and its type is the selected one unless "all" |
| ContactsPage.FilteredIsSubsequence | src/pages/Contacts.tsx:71-79 | the shown list keeps the contacts' order |
| ContactsPage.FilteredIsComplete | src/pages/Contacts.tsx:72-78 | every matching contact is shown as often as it occurs, and no other |
| ContactsPage.FilteredIdempotent | src/pages/Contacts.tsx:71-79 | filtering the shown list again changes nothing |
| ContactsPage.UnfilteredShowsAll | src/pages/Contacts.tsx:55-56 | the initial controls (empty search, "all") show every contact |
| ContactsPage.ContactsByType | src/pages/Contacts.tsx:125-130 | a missing list counts zero of each type |
| ContactsPage.CountsCoverAll | src/pages/Contacts.tsx:125-130 | the three counts sum to the list's length |
| ContactsPage.CountIsUnsearchedFilter | src/pages/Contacts.tsx:125-130 | each count is the size of the list shown for that type with an empty search |
| ContactsPage.KeepTruthy | src/pages/Contacts.tsx:90-93 | an optional field is kept exactly when it holds a non-empty string |
| ContactsPage.BuildContactPayload | src/pages/Contacts.tsx:87-94 | name and type always; email, phone, birthday and notes exactly when non-empty, with their values |
| ContactsPage.PayloadIdempotent | src/pages/Contacts.tsx:87-94 | a payload carries no empty field, so rebuilding it changes nothing |
| ContactsPage.EmptyFormPayload | src/pages/Contacts.tsx:58-65 | the reset form's payload has only the empty name and the type friend |
| ContactsPage.ContactFormError | src/pages/Contacts.tsx:82-85 | "Name is required" exactly when the name is empty |
| ContactsPage.ContactsPageState.constructor | src/pages/Contacts.tsx:57-65 | the dialog starts closed with the empty form |
| ContactsPage.ContactsPageState.SetAddDialogOpen | src/pages/Contacts.tsx:143 | opening or closing the dialog leaves the form |
| ContactsPage.ContactsPageState.SetFormData | src/pages/Contacts.tsx:164-218 | an edit replaces the form and leaves the dialog |
| ContactsPage.ContactsPageState.HandleAddContact | src/pages/Contacts.tsx:81-107 | empty name: error toast, nothing sent, nothing changed; else the payload is sent and the cache settles; on success the dialog closes, the form resets and the success toast shows; on failure nothing else changes |
| ContactsPage.ContactsPageState.HandleDeleteContact | src/pages/Contacts.tsx:109-112 | the request is `DELETE` of that contact (`Api.DeleteContact(id)`); the delete settles in the cache; "Contact deleted" only on success |
| RemindersPage.PendingReminders | src/pages/Reminders.tsx:69-70 | only reminders not completed |
| RemindersPage.CompletedReminders | src/pages/Reminders.tsx:71-72 | only completed reminders |
| RemindersPage.RemindersPartition | src/pages/Reminders.tsx:69-72 | both lists keep order; a reminder is in exactly the list its flag names; together they are the whole list by multiset and length |
| RemindersPage.CeilDiv | src/pages/Reminders.tsx:113 | `Math.ceil(a / m)` is the least r with a <= r * m |
| RemindersPage.StartOfDay | src/pages/Reminders.tsx:109-111 | `setHours(0,0,0,0)` gives the local midnight at or before the instant, less than a day before |
| RemindersPage.GetDaysUntil | src/pages/Reminders.tsx:107-115 | both instants moved to local midnight, their difference divided by a day and rounded up; `GetDaysUntilIsDayDifference` gives its meaning |
| RemindersPage.GetDaysUntilIsDayDifference | src/pages/Reminders.tsx:107-115 | for two instants, the millisecond computation equals the local day number of the due instant minus today's |
| RemindersPage.ParseDateOnly | src/pages/Reminders.tsx:110 | a date-only string is read as midnight UTC of its calendar day |
| RemindersPage.GetDaysUntilAsWritten | src/pages/Reminders.tsx:107-115 | the page's count on a date-only due date, parsed as midnight UTC |
| RemindersPage.AsWrittenWestOfUtc | src/pages/Reminders.tsx:110-111 | west of UTC the page counts one day fewer than the local days to the due date |
| RemindersPage.AsWrittenEastOfUtc | src/pages/Reminders.tsx:110-111 | at and east of UTC the page counts the local days to the due date |
| RemindersPage.DueTodayShownOverdue | src/pages/Reminders.tsx:110-121 | a reminder due today, seen at 10:00 in UTC-4, is labelled "1 days overdue" instead of "Today" |
| RemindersPage.ParseDateOnlyLocal | src/pages/Reminders.tsx:110 | the intended parse: local midnight of the due date's own day |
| RemindersPage.GetDaysUntilLocal | src/pages/Reminders.tsx:107-115 | with the intended parse the count is the number of local days from today to the due date, on every offset |
| RemindersPage.DaysUntil | src/pages/Reminders.tsx:107-115 | the reference count: due day number minus today's, to which the page's millisecond count is proved equal |
| RemindersPage.DaysUntilLabel | src/pages/Reminders.tsx:117-122 | "N days overdue" with N = -d below 0, "Today" at 0, "Tomorrow" at 1, "in N days" from 2 |
| RemindersPage.OneDayOverdue | src/pages/Reminders.tsx:118 | one day overdue reads "1 days overdue" |
| RemindersPage.LabelFirstChar | src/pages/Reminders.tsx:117-122 | the kind of label (overdue, today or tomorrow, future) follows from its first character |
| RemindersPage.DaysUntilLabelInjective | src/pages/Reminders.tsx:117-122 | two labels are equal exactly when their day counts are |
| RemindersPage.OverdueIffOverdueLabel | src/pages/Reminders.tsx:279-280 | a row is drawn overdue exactly when its label is the overdue kind |
| RemindersPage.FrequencyLabel | src/pages/Reminders.tsx:46-52 | defined for all five frequencies; "One-time" exactly for "none" |
| RemindersPage.ReminderFormError | src/pages/Reminders.tsx:75-78 | "Please fill in all required fields" exactly when contact, title or due date is empty |
| RemindersPage.RemindersPageState.constructor | src/pages/Reminders.tsx:55-61 | the dialog starts closed with the empty form and frequency "none" |
| RemindersPage.RemindersPageState.SetAddDialogOpen | src/pages/Reminders.tsx:135 | opening or closing the dialog leaves the form |
| RemindersPage.RemindersPageState.SetFormData | src/pages/Reminders.tsx:154-198 | an edit replaces the form and leaves the dialog |
| RemindersPage.RemindersPageState.HandleAddReminder | src/pages/Reminders.tsx:74-89 | a missing field: error toast, nothing sent, nothing changed; else the form is sent and the cache settles; on success close, reset and toast; on failure nothing else changes |
| RemindersPage.RemindersPageState.HandleDeleteReminder | src/pages/Reminders.tsx:91-94 | the request is `DELETE` of that reminder (`Api.DeleteReminder(id)`); the delete settles in the cache; "Reminder deleted" only on success |
| RemindersPage.RemindersPageState.HandleCompleteReminder | src/pages/Reminders.tsx:96-99 | the request completes that reminder (`Api.CompleteReminder(id)`); the completion settles in the cache; "Reminder marked as complete" only on success |
| BlastsPage.ContactsWithEmail | src/pages/Blasts.tsx:24 | a missing list gives nothing; every recipient has a non-empty email |
| BlastsPage.RecipientsAreContactsWithEmail | src/pages/Blasts.tsx:24 | recipients are exactly the contacts with an email, in order, with their multiplicities |
| BlastsPage.BlastSaveError | src/pages/Blasts.tsx:26-36 | a blank message is reported first, then an empty recipient list; otherwise no error |
| BlastsPage.BlastSentText | src/pages/Blasts.tsx:39 | the success toast "Blast ready to send to N contacts!" for N recipients; `BlastSentTextInjective` shows it names N |
| BlastsPage.BlastSentTextInjective | src/pages/Blasts.tsx:39 | the success toast determines the recipient count |
| BlastsPage.BlastComposer.constructor | src/pages/Blasts.tsx:19-20 | an empty message and a closed preview |
| BlastsPage.BlastComposer.EditMessage | src/pages/Blasts.tsx:84 | an edit replaces the message and leaves the preview |
| BlastsPage.BlastComposer.SetPreviewOpen | src/pages/Blasts.tsx:97 | opening or closing the preview leaves the message |
| BlastsPage.BlastComposer.HandleSave | src/pages/Blasts.tsx:26-36 | the message never changes; a failed check shows its error and leaves the preview; otherwise the preview opens |
| BlastsPage.BlastComposer.HandleSend | src/pages/Blasts.tsx:38-42 | the toast carries the recipient count; the preview closes and the message is cleared |
| DashboardPage.StatItems | src/pages/Dashboard.tsx:69-94 | four tiles in a fixed order; each value is its stats field, or 0 when the stats are absent |
| DashboardPage.StatCaptionsDistinct | src/pages/Dashboard.tsx:182-184 | the captions used as keys are pairwise distinct |
| DashboardPage.LastContactOf | src/pages/Dashboard.tsx:96-99 | the last-contact line of the needs-attention and recent-contacts lists: "Never" exactly for a null or empty date, otherwise the relative label of that date |
| DashboardPage.DashboardPageState.constructor | src/pages/Dashboard.tsx:48-49 | the dialog starts closed with no contact selected |
| DashboardPage.DashboardPageState.SetLogMeetupOpen | src/pages/Dashboard.tsx:122-127 | opening or closing the dialog leaves the selection |
| DashboardPage.DashboardPageState.SelectContact | src/pages/Dashboard.tsx:140 | choosing a contact leaves the dialog |
| DashboardPage.DashboardPageState.HandleLogMeetup | src/pages/Dashboard.tsx:58-67 | no selection: error toast, nothing sent, nothing changed; else the id is logged and the cache settles; on success toast, close and clear the selection; on failure nothing else changes |
| DashboardPage.DashboardPageState.QuickLog | src/pages/Dashboard.tsx:305 | the request logs an interaction for that row's contact (`Api.LogInteraction(contactId)`); it settles in the cache and changes no page state |

## Left out

- Text.Lower: only A to Z are lowered. JavaScript's `toLowerCase` lowers every Unicode letter, so the search is exact only for ASCII-cased letters.
- Unicode surrogate pairs: `n[0]` takes a UTF-16 code unit. The model works on Dafny characters, which are whole scalar values.
- `formatDistanceToNow` from date-fns and `toLocaleDateString`: foreign library output. `Display.FormatLastContact` returns `RelativeTo(timestamp)` in place of the phrase.
- RemindersPage.GetDaysUntil: the local-time offset is one constant, so daylight-saving changes are not modelled. The offset is UTC minus local time in milliseconds, positive west of UTC, as `getTimezoneOffset` counts it. Of the parse by `new Date` only the date-only "YYYY-MM-DD" form the date input produces is modelled (`ParseDateOnly`); a reminder's `due_date` is that day's number.
- `fetch`, the network and `getCSRFToken` from `./django`: that helper is not part of this model. The token is an `Option<string>` parameter, and a response is an abstract value.
- `JSON.stringify` of the payloads: a payload is sent as its datatype value or as a `Json` parameter.
- JavaScript numbers in `Json`: they are integers, so floating-point fields are not modelled.
- React-query internals: request deduplication, retries, refetch scheduling, garbage collection, async ordering, and the `isPending` flags that disable buttons while a mutation runs. Prefix invalidation and fetch-when-stale are stated as assumptions in `QueryCache`.
- QueryCache.Cache.Read: `Fresh` means "not invalidated since the last fetch". The client in `src/App.tsx` keeps react-query's default `staleTime` of 0, so to react-query every entry is stale once fetched, and it refetches on mount, on window focus and on reconnect. Those refetches are not modelled: `Read` says only when an invalidation forces a refetch.
- The fetched data itself: a read marks its key fresh, and the lists the pages show are parameters.
- The api.ts client functions not called by the modelled pages: update and get are still in the endpoint table and in the hooks.
- Toasts are return values, not UI.
- JSX markup, icons, colours (`typeColors`), the landing components, `src/pages/Landing.tsx`, `src/App.tsx` and routing: presentation only.
- The "Contact"/"Contacts" plural in the list header: presentation only.

## Findings

| source | as written | input that shows it | evidently intended | confidence | as-written member | corrected member |
|---|---|---|---|---|---|---|
| src/pages/Reminders.tsx:110 | `new Date(dateStr)` reads the date-only due date as midnight UTC; `setHours(0, 0, 0, 0)` then moves it to the local midnight of that instant, which west of UTC is the previous day | due 2026-10-14, viewed at 10:00 local time on 2026-10-14 in UTC-4: `getDaysUntil` returns -1 and the row shows "1 days overdue" in red; `AsWrittenWestOfUtc` shows every offset west of UTC counts one day short | the count of local days from today to the due date, 0 and "Today" here | high, not executed | RemindersPage.DueTodayShownOverdue | RemindersPage.GetDaysUntilLocal |
