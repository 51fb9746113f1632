# CampusOps in Dafny

CampusOps is a campus service-request portal. Students file requests, such as a broken water
cooler or a lost ID card. Staff filter the requests, search them and set their status and
remarks. Admins see status counts, a top-five category breakdown and a printable report.

This project models the application's logic and proves properties of it:

- the shared store in `App.tsx`;
- the three dashboards;
- the report;
- sign-up and sign-in;
- the settings dialog;
- the keyword-driven chat assistant;
- the seed data.

Modules, one per source file:

| module | file | models |
|---|---|---|
| `MockData` | `mock_data.dfy` | `mockData.ts`: users, requests, statuses, the seed records and the service types |
| `App` | `app.dfy` | `App.tsx`: the store (`class AppState`), the status update, the profile update and `renderView` |
| `StaffDashboard` | `staff_dashboard.dfy` | the status filter, the search and the newest-first list; the action dialog (`class StaffPanel`) |
| `StudentDashboard` | `student_dashboard.dfy` | the student's own list and badges; the request form and its 800 ms submission timer (`class StudentPanel`) |
| `AdminDashboard` | `admin_dashboard.dfy` | the analytics; the report toggle and quick settings (`class AdminPanel`) |
| `ReportView` | `report_view.dfy` | the report's figures, resolution rate, shares and recommendations |
| `Categories` | `categories.dfy` | the per-service-type count, its key order, and the stable sort by count with the top-five cut |
| `Auth` | `auth.dfy` | the password criteria, the sign-up guard chain (`class SignUpPage`) and the fixed-profile sign-in pages |
| `SettingsModal` | `settings_modal.dfy` | the profile editing and the four preference switches (`class SettingsPanel`) |
| `Assistant` | `assistant.dfy` | the chat log, the blank-input guard, the keyword classifier and the reply timer (`class ChatWindow`) |

Shared modules:

- `Requests` (`requests.dfy`): the newest-first comparator and the status counts.
- `Sequences` (`sequences.dfy`): `filter`, and a stable insertion sort. ECMAScript 2019 requires `Array.prototype.sort` to be stable (section 22.1.3.27 of ECMA-262, 10th edition).
- `Text` (`text.dfy`): ASCII `toLowerCase`, `includes`, `trim`, `split(sep)[0]`, and the lexicographic order on date strings.
- `Wrappers` (`wrappers.dfy`): `Option` and `Result`.

How the React code maps to Dafny:

- **Component state.** Each component's `useState` fields become the fields of a Dafny class. Each event handler becomes a method.
- **Handler contracts.** A method's `modifies` clause names the fields the handler sets. Its `ensures` clauses give their new values, and the values of everything else.
- **Callbacks.** The callbacks a component receives (`onRequestUpdate`, `onSignup`, `onUserUpdate`) become values the method returns.
- **Timers.** A `setTimeout` splits a handler into two steps, because the component can change between the two:
  - the handler itself records the work the timer captured (`StudentPanel.scheduled`, `ChatWindow.awaitingReply`);
  - a second method fires the oldest timer (`StudentPanel.TimerFires`, `ChatWindow.ReplyArrives`).
- **Derived values.** Values computed during rendering become functions. Examples: `filteredRequests`, `myRequests`, and `categoryData` and `topCategories` (the same computation in both components).

### Where the code is permissive

- **Submitting a request.** `handleRequestSubmit` prepends whatever it is given. Nothing checks the service type against `SERVICE_TYPES` or requires a description. The only guard is in the student form: `Incomplete` blocks an empty type or description.
- **Status updates.**
  - `handleRequestUpdate` accepts any status.
  - An unknown id changes nothing and reports no error.
  - Remarks only replace the old ones when they are non-empty (`remarks || req.remarks`). They can therefore never be cleared.
- **Profile updates.** `handleUserUpdate` with an unknown id leaves the directory alone, reports no error, and still signs in the supplied record.
- **Registration.** `handleUserRegistration` and the sign-up form do not check for an empty name or email in code. Only the HTML `required` attribute does, and that is outside the model. The password rules and the confirmation are checked.
- **Sign-in.** It checks no identifier: the student page always signs in the seed student, and the staff page signs in the seed staff member or admin.

## Model

| member | source | states |
|---|---|---|
| MockData.SeedRequestIdsDistinct | src/app/mockData.ts:61-92 | the three seed requests have pairwise distinct ids |
| MockData.SeedUsers | src/app/mockData.ts:55-59 | the seed users have distinct ids, and every role has a seed user |
| MockData.SeedServiceTypesOffered | src/app/mockData.ts:94-104 | every seed request names a service type from the offered list |
| MockData.SeedNewestFirst | src/app/mockData.ts:61-92 | the seed dates are strictly decreasing, so the seed is already newest first with no ties |
| MockData.SeedRemarks | src/app/mockData.ts:90 | exactly the request `req3` carries remarks |
| MockData.ServiceTypesDistinct | src/app/mockData.ts:94-104 | nine pairwise distinct service types, the last being `Other` |
| Text.Lower | src/app/pages/StaffDashboard.tsx:45-47 | lower-casing keeps the length and maps each character on its own |
| Text.LowerIdempotent | src/app/components/GeminiAssistant.tsx:44 | lower-casing twice is the same as lower-casing once |
| Text.ContainsIff | src/app/pages/StaffDashboard.tsx:45 | `includes` holds exactly when the needle occurs at some position |
| Text.ContainsEmpty | src/app/pages/StaffDashboard.tsx:45 | every string includes the empty string |
| Text.TrimStart | src/app/components/GeminiAssistant.tsx:30 | trimming the start leaves a suffix of the input |
| Text.TrimEnd | src/app/components/GeminiAssistant.tsx:30 | trimming the end leaves a prefix of the input |
| Text.TrimStartEmpty | src/app/components/GeminiAssistant.tsx:30 | trimming the start gives the empty string exactly when every character is whitespace |
| Text.TrimEndEmpty | src/app/components/GeminiAssistant.tsx:30 | trimming the end gives the empty string exactly when every character is whitespace |
| Text.TrimStartAt | src/app/components/GeminiAssistant.tsx:30 | a non-empty start-trimmed string begins with a non-whitespace character |
| Text.TrimEmptyIff | src/app/components/GeminiAssistant.tsx:30 | `trim()` is empty exactly when the input is all whitespace, the empty string included |
| Text.BeforeFirst | src/app/pages/StudentDashboard.tsx:61 | `split(sep)[0]` is a prefix free of the separator, ending at the first separator if there is one |
| Text.BeforeFirstOf | src/app/pages/StudentDashboard.tsx:61 | `split('T')[0]` of `d + 'T' + rest` is `d` when `d` has no 'T' |
| Text.LexLessAt | src/app/pages/StaffDashboard.tsx:49 | a string is earlier when it first differs from another by a smaller character |
| Text.LexTrichotomy | src/app/pages/StaffDashboard.tsx:49 | of two date strings one is earlier, or they are equal |
| Text.LexAsymmetric | src/app/pages/StaffDashboard.tsx:49 | no date string is both earlier and later than another |
| Text.LexTransitive | src/app/pages/StaffDashboard.tsx:49 | the earlier-than order on date strings is transitive |
| Sequences.Filter | src/app/pages/StaffDashboard.tsx:43 | `filter` keeps only elements satisfying the predicate and never lengthens the list |
| Sequences.FilterCons | src/app/pages/StaffDashboard.tsx:43 | filtering `[x] + s` keeps `x` exactly when it satisfies the predicate, then filters `s` |
| Sequences.FilterConcat | src/app/pages/StaffDashboard.tsx:43 | filtering distributes over concatenation |
| Sequences.FilterMultiset | src/app/pages/StaffDashboard.tsx:43 | each element kept by `filter` appears as often as in the input; a rejected one never appears |
| Sequences.FilterKeepsAll | src/app/pages/StaffDashboard.tsx:43 | a predicate every element satisfies keeps the whole list |
| Sequences.FilterAgree | src/app/pages/StaffDashboard.tsx:43 | two predicates that agree on every element filter alike |
| Sequences.FilterSplit | src/app/pages/AdminDashboard.tsx:38-40 | complementary predicates split the list's length between them |
| Sequences.FilterPermutation | src/app/pages/StudentDashboard.tsx:92 | reordering a list does not change what a filter keeps, nor how many |
| Sequences.Insert | src/app/pages/StaffDashboard.tsx:49 | inserting adds exactly the element to the multiset |
| Sequences.StableSort | src/app/pages/StaffDashboard.tsx:49 | `sort` returns a permutation of its input |
| Sequences.InsertSorted | src/app/pages/StaffDashboard.tsx:49 | inserting into a sorted list under a total preorder keeps it sorted |
| Sequences.StableSortSorted | src/app/pages/StaffDashboard.tsx:49 | under a total, transitive comparator the sort result is ordered |
| Sequences.FilterPastOne | src/app/pages/StaffDashboard.tsx:49 | moving an element past one it is not tied with keeps the order of the tied elements |
| Sequences.InsertKeepsTies | src/app/pages/StaffDashboard.tsx:49 | inserting keeps the relative order of elements tied with any given one |
| Sequences.TiedPrecedes | src/app/pages/StaffDashboard.tsx:49 | under a transitive comparator an element tied with `e` is ahead of all that `e` is ahead of |
| Sequences.StableSortKeepsTies | src/app/pages/StaffDashboard.tsx:49 | stability: elements the comparator ties keep their original relative order |
| Requests.NewestFirstIsPreorder | src/app/pages/StaffDashboard.tsx:49 | the newest-first comparator is total and transitive on well-formed dates |
| Requests.NewestFirstTies | src/app/pages/StaffDashboard.tsx:49 | two requests tie under newest first exactly when they have the same date |
| Requests.SortNewestFirstSpec | src/app/pages/StaffDashboard.tsx:49 | the newest-first sort is a permutation, never puts an earlier date before a later one, and keeps same-date requests in input order |
| Requests.CountStatusSorted | src/app/pages/StudentDashboard.tsx:92 | sorting does not change any status count |
| Requests.StatusCountsPartition | src/app/pages/AdminDashboard.tsx:37-40 | the Submitted, In Progress and Resolved counts add up to the number of requests |
| Requests.SeedOnePerStatus | src/app/mockData.ts:61-92 | the seed has exactly one request of each status |
| App.StatusUpdateAt | src/app/App.tsx:59-65 | the update keeps length and order, leaves other ids untouched, sets the status of a matching request, keeps its other fields, and replaces remarks only with non-empty ones |
| App.RemarksNeverCleared | src/app/App.tsx:62 | a request that has remarks still has remarks after any status update |
| App.StatusUpdateUnknownId | src/app/App.tsx:59-65 | an update naming an id that is not in the list leaves the list unchanged |
| App.StatusUpdateIdempotent | src/app/App.tsx:59-65 | repeating the same update changes nothing more |
| App.FindUser | src/app/App.tsx:42 | `find` returns nothing exactly when no user has the id, and otherwise the first user with it |
| App.ReplaceUserSpec | src/app/App.tsx:71 | a profile update replaces exactly the entries with the user's id, keeps every id in place and keeps ids distinct |
| App.RenderView | src/app/App.tsx:83-121 | a dashboard is shown only to a user of its role; its view name with anyone else shows Access Denied |
| App.LoginShowsOwnDashboard | src/app/App.tsx:40-45 | after a login with a role, the view navigated to renders the user's own dashboard |
| App.AppState.constructor | src/app/App.tsx:27-31 | no user, the landing view, the seed requests and users, settings closed |
| App.AppState.Navigate | src/app/App.tsx:34-37 | only the view changes |
| App.AppState.Login | src/app/App.tsx:40-45 | the stored record with the same id, else the supplied one, becomes the user, and the view is that role's dashboard |
| App.AppState.Logout | src/app/App.tsx:48-51 | no user and the landing view; store and directory unchanged |
| App.AppState.SubmitRequest | src/app/App.tsx:54-56 | the new request is prepended, unchecked, and nothing else changes |
| App.AppState.UpdateRequest | src/app/App.tsx:59-65 | the requests become the status update of the old ones; nothing else changes |
| App.AppState.UpdateUser | src/app/App.tsx:68-72 | the user becomes the updated record and the directory entry with its id is replaced; requests unchanged |
| App.AppState.RegisterUser | src/app/App.tsx:75-80 | the new user is appended to the directory, signed in and sent to their role's dashboard |
| App.AppState.OpenSettings | src/app/App.tsx:115 | the settings dialog is open |
| App.AppState.CloseSettings | src/app/App.tsx:139 | the settings dialog is closed |
| App.RenameKeepsSnapshot | src/app/App.tsx:68-72 | renaming a user after a submission signs in the renamed record and updates the directory, but leaves the store, and so the student name copied into that request, as the submission left it |
| StaffDashboard.FilteredRequestsMembers | src/app/pages/StaffDashboard.tsx:43-48 | a request is listed exactly when it passes the status filter and the case-insensitive search, as often as it is stored |
| StaffDashboard.FilteredRequestsOrder | src/app/pages/StaffDashboard.tsx:49 | the list is newest first, and same-date requests keep the store's order |
| StaffDashboard.EmptySearchListsAll | src/app/pages/StaffDashboard.tsx:43-49 | 'All' with an empty query lists every stored request, newest first |
| StaffDashboard.ButtonStatus | src/app/pages/StaffDashboard.tsx:214-222 | neither dialog button sets the status back to Submitted |
| StaffDashboard.ConfirmUneditedKeepsRemarks | src/app/pages/StaffDashboard.tsx:63 | confirming the dialog with its preloaded remarks keeps the request's remarks exactly and sets the chosen status |
| StaffDashboard.StaffPanel.constructor | src/app/pages/StaffDashboard.tsx:36-40 | filter 'All', empty query and remarks, no selection, dialog closed |
| StaffDashboard.StaffPanel.SetFilter | src/app/pages/StaffDashboard.tsx:105 | the filter is the chosen one |
| StaffDashboard.StaffPanel.SetSearchQuery | src/app/pages/StaffDashboard.tsx:98 | the query is the typed text |
| StaffDashboard.StaffPanel.SetRemarks | src/app/pages/StaffDashboard.tsx:204 | the remarks are the typed text |
| StaffDashboard.StaffPanel.OpenActionDialog | src/app/pages/StaffDashboard.tsx:61-65 | the request is selected, the remarks are its remarks or empty, and the dialog is open |
| StaffDashboard.StaffPanel.HandleStatusUpdate | src/app/pages/StaffDashboard.tsx:51-59 | with no selection nothing is sent or changed; otherwise the selected id, the button's status and the current remarks are sent, and the dialog is closed and cleared |
| StudentDashboard.MyRequestsSpec | src/app/pages/StudentDashboard.tsx:43 | the list holds exactly the user's requests, as often as stored, newest first, same-date ones in store order |
| StudentDashboard.BadgesBounded | src/app/pages/StudentDashboard.tsx:92-99 | the Pending and Resolved badges never add up to more than the list's length |
| StudentDashboard.OwnSubmissionCounted | src/app/pages/StudentDashboard.tsx:43 | the user's new submission joins their list and raises Pending by one, leaving Resolved unchanged |
| StudentDashboard.OthersSubmissionHidden | src/app/pages/StudentDashboard.tsx:43 | another student's request never changes the user's list |
| StudentDashboard.NewRequest | src/app/pages/StudentDashboard.tsx:53-62 | the filed request has the clock id, the user's id and current name, the form's type, location and description, status Submitted and no remarks, and is dated by a 'T'-free prefix of the timestamp |
| StudentDashboard.NewRequestDate | src/app/pages/StudentDashboard.tsx:61 | a `YYYY-MM-DDThh:mm` timestamp dates the request `YYYY-MM-DD` |
| StudentDashboard.StudentPanel.constructor | src/app/pages/StudentDashboard.tsx:35-40 | not submitting, an empty form, no timer pending |
| StudentDashboard.StudentPanel.SetServiceType | src/app/pages/StudentDashboard.tsx:119 | only the service type changes |
| StudentDashboard.StudentPanel.SetLocation | src/app/pages/StudentDashboard.tsx:138 | only the location changes |
| StudentDashboard.StudentPanel.SetDescription | src/app/pages/StudentDashboard.tsx:149 | only the description changes |
| StudentDashboard.StudentPanel.HandleSubmit | src/app/pages/StudentDashboard.tsx:45-52 | an incomplete form is ignored; otherwise the panel is submitting and a timer holding the user and form is queued; only complete forms are ever queued |
| StudentDashboard.StudentPanel.TimerFires | src/app/pages/StudentDashboard.tsx:52-68 | the oldest timer files the request built from what it captured, clears the form and stops submitting; the request always has a type and a description |
| Categories.OccurrencesSnoc | src/app/pages/AdminDashboard.tsx:50-52 | counting one more request raises only its own type's count, by one |
| Categories.OccurrencesPositive | src/app/pages/AdminDashboard.tsx:49-52 | a type's count is positive exactly when some request has that type |
| Categories.OccurrencesOfDistinct | src/app/pages/AdminDashboard.tsx:49-52 | with pairwise distinct types every type is counted once |
| Categories.FirstSeen | src/app/pages/AdminDashboard.tsx:54 | the object's keys are distinct and are exactly the service types that occur |
| Categories.FirstSeenSnoc | src/app/pages/AdminDashboard.tsx:49-54 | a key is appended the first time its type is seen, and never otherwise |
| Categories.CountStep | src/app/pages/AdminDashboard.tsx:51 | one step of the counting loop keeps keys and counts in step with the requests read so far |
| Categories.CountCategories | src/app/pages/AdminDashboard.tsx:49-52 | the loop yields the keys in first-seen order and, for each key, the number of its requests |
| Categories.Entries | src/app/pages/AdminDashboard.tsx:54-56 | one entry per key, holding the key and that type's count |
| Categories.MoreFrequentIsPreorder | src/app/pages/AdminDashboard.tsx:57 | the by-count comparator is total and transitive |
| Categories.CountSumConcat | src/app/pages/AdminDashboard.tsx:54-57 | entry counts add up across concatenation |
| Categories.CountSumInsert | src/app/pages/AdminDashboard.tsx:57 | inserting an entry adds its count to the total |
| Categories.CountSumSorted | src/app/pages/AdminDashboard.tsx:57 | sorting keeps the total of the counts |
| Categories.EntryWithinSum | src/app/pages/AdminDashboard.tsx:57 | no single entry's count exceeds the total |
| Categories.CountSumPrefix | src/app/pages/AdminDashboard.tsx:57 | the top-five cut's total is at most the whole total |
| Categories.EntriesConcat | src/app/pages/AdminDashboard.tsx:54-56 | building entries distributes over concatenated keys |
| Categories.CountSumSnoc | src/app/pages/AdminDashboard.tsx:49-52 | one more request raises the total of an entry list with distinct keys by one when its type is listed, and leaves it otherwise |
| Categories.CategoryCountsSum | src/app/pages/AdminDashboard.tsx:49-56 | the category counts add up to the number of requests |
| Categories.RankedSpec | src/app/pages/AdminDashboard.tsx:57 | the ranking is a permutation of the entries with counts non-increasing |
| Categories.RankedKeepsTies | src/app/pages/AdminDashboard.tsx:57 | entries with equal counts keep their first-seen order |
| Categories.RankedFaithful | src/app/pages/AdminDashboard.tsx:54-57 | every ranked entry names an occurring type with its true count, at least one |
| Categories.RankedAllTied | src/app/pages/AdminDashboard.tsx:57 | when every type has the same count the ranking is first-seen order |
| Categories.FirstSeenOfDistinct | src/app/pages/AdminDashboard.tsx:54 | with pairwise distinct types the keys are the types in request order |
| Categories.RankedOfDistinct | src/app/pages/AdminDashboard.tsx:54-57 | with pairwise distinct types the ranking lists each type once, in request order |
| Categories.TopCategoriesShape | src/app/pages/AdminDashboard.tsx:57 | the breakdown has min(5, number of types) entries, is a prefix of the ranking and is non-increasing |
| Categories.TopCategoriesFaithful | src/app/pages/AdminDashboard.tsx:54-57 | every listed count is the type's true count, at least one, and they total at most the number of requests |
| Categories.PrefixDominates | src/app/pages/AdminDashboard.tsx:57 | an entry after a prefix of a sorted ranking has no more than any entry in the prefix |
| Categories.TopCategoriesDominate | src/app/pages/AdminDashboard.tsx:57 | a type left out of the breakdown has no more requests than any type in it |
| Categories.HighestVolumeSpec | src/app/components/ReportView.tsx:212 | the first category is absent exactly when there are no requests, and otherwise has the most requests of any type |
| Categories.RankCategories | src/app/components/ReportView.tsx:23-29 | counting, ranking and cutting to five gives the top categories |
| AdminDashboard.ComputeAnalytics | src/app/pages/AdminDashboard.tsx:37-57 | total and status counts that add up to the total, and the five largest categories |
| AdminDashboard.SeedTypesDistinct | src/app/mockData.ts:61-92 | the seed requests have pairwise distinct service types |
| AdminDashboard.SeedCategoryData | src/app/pages/AdminDashboard.tsx:54-57 | on the seed the breakdown is the three types, one request each, in seed order |
| AdminDashboard.AdminPanel.constructor | src/app/pages/AdminDashboard.tsx:30-34 | report hidden, theme 'Brand Blue', alerts off |
| AdminDashboard.AdminPanel.GenerateReport | src/app/pages/AdminDashboard.tsx:59-61 | the report is shown |
| AdminDashboard.AdminPanel.CloseReport | src/app/pages/AdminDashboard.tsx:247 | the report is hidden |
| AdminDashboard.AdminPanel.HandleQuickSetting | src/app/pages/AdminDashboard.tsx:63-70 | 'System Alerts' flips the flag and announces its new state; 'Color Theme' only announces; anything else does nothing; the theme never changes |
| ReportView.Percentage | src/app/components/ReportView.tsx:147 | the share times the whole is 100 times the part; it lies in [0, 100] for a part of the whole, positive for a positive part |
| ReportView.ResolutionRate | src/app/components/ReportView.tsx:20 | 0 with no requests, without dividing; otherwise the percentage resolved, within [0, 100] |
| ReportView.ResolutionRateExtremes | src/app/components/ReportView.tsx:20 | nothing resolved gives 0, everything resolved gives 100 |
| ReportView.BuildReport | src/app/components/ReportView.tsx:16-29 | status counts adding up to the total, a rate in [0, 100], the top categories, a busiest category absent only for no requests and never outnumbered, and a backlog equal to the pending count |
| ReportView.CategorySharesBounded | src/app/components/ReportView.tsx:147 | each listed category's share is positive and at most 100 |
| ReportView.SeedResolutionRate | src/app/components/ReportView.tsx:20 | on the seed one request in three is resolved |
| Auth.AnyChar | src/app/pages/Auth.tsx:50-52 | a character-class test holds exactly when some character is in the class |
| Auth.CheckPasswordStrength | src/app/pages/Auth.tsx:47-54 | each criterion holds exactly when: six or more characters; a lower-case letter; an upper-case letter; a character that is no ASCII letter or digit |
| Auth.DigitsAreNoSymbol | src/app/pages/Auth.tsx:52 | an all-digit password meets no symbol criterion |
| Auth.CriteriaExamples | src/app/pages/Auth.tsx:47-54 | "Campus#1" meets every criterion and "campus#1" does not |
| Auth.SignUp | src/app/pages/Auth.tsx:72-99 | a weak password is refused first, then a mismatched confirmation; otherwise a student built from the form, with id `s` plus the clock reading and the photo or the default avatar |
| Auth.SignUpOpensStudentDashboard | src/app/pages/Auth.tsx:98 | a registered sign-up lands on the student dashboard, which renders |
| Auth.SignUpPage.constructor | src/app/pages/Auth.tsx:59-67 | no photo, empty passwords, empty form with department 'Computer Science' |
| Auth.SignUpPage.SetPassword | src/app/pages/Auth.tsx:193 | the password is the typed text |
| Auth.SignUpPage.SetConfirmPassword | src/app/pages/Auth.tsx:217 | the confirmation is the typed text |
| Auth.SignUpPage.SetForm | src/app/pages/Auth.tsx:153 | the form fields are the typed ones |
| Auth.SignUpPage.PhotoLoaded | src/app/pages/Auth.tsx:101-110 | the preview is the loaded data URL |
| Auth.SignUpPage.HandleSubmit | src/app/pages/Auth.tsx:72-99 | the outcome is the sign-up of the page's current form, passwords and photo |
| Auth.StudentSignIn | src/app/pages/Auth.tsx:243-246 | whatever is typed, the seed student, with the student role, signs in |
| Auth.StaffLogin | src/app/pages/Auth.tsx:306-310 | the admin profile exactly on the admin page, else the staff profile; the role matches and the profile is in the directory |
| Assistant.Classify | src/app/components/GeminiAssistant.tsx:43-50 | 'water' beats 'id card', which beats 'ragging', all case-insensitive; with none of them the topic is general |
| Assistant.ClassifyIgnoresCase | src/app/components/GeminiAssistant.tsx:44 | lower-casing a message does not change its topic |
| Assistant.BlankIff | src/app/components/GeminiAssistant.tsx:30 | input counts as blank exactly when it is empty or all whitespace |
| Assistant.ChatWindow.constructor | src/app/components/GeminiAssistant.tsx:14-18 | closed, the log holding only the greeting, empty input, no reply pending |
| Assistant.ChatWindow.Toggle | src/app/components/GeminiAssistant.tsx:147 | the window's open state flips |
| Assistant.ChatWindow.Close | src/app/components/GeminiAssistant.tsx:84 | the window is closed |
| Assistant.ChatWindow.SetInput | src/app/components/GeminiAssistant.tsx:126 | the input is the typed text |
| Assistant.ChatWindow.Send | src/app/components/GeminiAssistant.tsx:29-40 | blank input changes nothing; otherwise the untrimmed text is appended as the user's message, the input is cleared and a reply is queued; the greeting stays first |
| Assistant.ChatWindow.ReplyArrives | src/app/components/GeminiAssistant.tsx:42-58 | the oldest pending message gets the canned reply for its topic appended; the greeting stays first |
| SettingsModal.Toggle | src/app/components/SettingsModal.tsx:52 | the chosen preference flips and the other three stay |
| SettingsModal.PreferencesByKeys | src/app/components/SettingsModal.tsx:24-29 | preferences agreeing on all four keys are equal |
| SettingsModal.ToggleTwice | src/app/components/SettingsModal.tsx:52 | toggling a key twice restores the preferences |
| SettingsModal.TogglesCommute | src/app/components/SettingsModal.tsx:52 | toggles of any two keys commute |
| SettingsModal.SaveProfile | src/app/components/SettingsModal.tsx:41-48 | nothing without a signed-in user; otherwise that user with the edited name and email and every other field as it was |
| SettingsModal.SettingsPanel.constructor | src/app/components/SettingsModal.tsx:20-29 | not editing, the user's name and email or empty, the initial preferences |
| SettingsModal.SettingsPanel.SyncUser | src/app/components/SettingsModal.tsx:32-37 | a present user's name and email are copied in; a missing user changes nothing |
| SettingsModal.SettingsPanel.StartEditing | src/app/components/SettingsModal.tsx:134 | editing mode is on |
| SettingsModal.SettingsPanel.SetName | src/app/components/SettingsModal.tsx:110 | the name is the typed text |
| SettingsModal.SettingsPanel.SetEmail | src/app/components/SettingsModal.tsx:114 | the email is the typed text |
| SettingsModal.SettingsPanel.HandleSaveProfile | src/app/components/SettingsModal.tsx:41-48 | the record handed to the store is the saved profile; editing ends when a user is present, and nothing changes otherwise |
| SettingsModal.SettingsPanel.HandleToggle | src/app/components/SettingsModal.tsx:50-58 | the preferences become the toggle of the chosen key |

## Left out

- Rendering, styling, icons, animations (`motion`, `AnimatePresence`) and the charts in `AdminDashboard.tsx` are out of scope. The `statusData` array exists only for a chart.
- The progress-bar width `(resolvedRequests/totalRequests)*100` in `AdminDashboard.tsx` is only drawn, and with no requests it is `NaN`.
- Toasts are out of scope, with one exception: the quick-setting notice that `AdminPanel.HandleQuickSetting` returns, because its text depends on the state. Left out with them:
  - the download PDF/CSV and two-factor buttons, which only show a toast;
  - the dark-mode and reduce-motion toasts in `handleToggle`.
- `handleSaveChanges` only shows a toast and calls `onClose`. Closing is `App.AppState.CloseSettings`.
- Three browser effects are outside the model:
  - `window.scrollTo` in `handleNavigate`;
  - `scrollIntoView` in the chat window;
  - the `FileReader` internals. The photo upload is modelled by `PhotoLoaded`, which receives the data URL.
- Clocks are parameters, not reads:
  - `Date.now()` becomes `freshId` for the request or message id and `stamp` for the user id;
  - `new Date().toISOString()` becomes `isoNow`.
- `toLocaleDateString` in the report header is not modelled.
- Timer order: `StudentPanel.TimerFires` and `ChatWindow.ReplyArrives` fire pending timers oldest first. The 800 ms and 1000 ms delays are equal for all pending timers, so this is the order in which they would fire. Wall-clock time itself is not modelled.
- ReportView.ResolutionRate: the result is the exact real percentage, not the string that `toFixed(1)` renders, or `'0'` when there are no requests.
- ReportView.Percentage: as above, the exact value rather than its `toFixed(1)` rendering.
- Requests.NewestFirst compares date strings lexicographically, which agrees with `new Date(d).getTime()` for the `YYYY-MM-DD` dates the code produces. A malformed date gives `NaN` in the source's comparator; that case is not modelled.
- Text.Lower maps only ASCII letters. `toLowerCase` also maps other Unicode letters.
- Auth.CheckPasswordStrength counts characters for the six-character rule. JavaScript's `length` counts UTF-16 code units, so the two differ outside the Basic Multilingual Plane.
- Categories.CountCategories: a service type equal to an `Object.prototype` property name is not modelled. The source counts with a plain object, `categoryCount[k] = (categoryCount[k] || 0) + 1`, and for such a name it does something else:
  - for `constructor` or `toString` the read finds the inherited function, the count becomes a string, and the comparator `b.count - a.count` yields `NaN`;
  - for `__proto__` the assignment is ignored and the key never appears in `Object.keys`, so the counts no longer add up to the number of requests.
  The model counts such a type like any other. No entry of `SERVICE_TYPES` is such a name, and the student form offers only those entries. The store would accept one, though, because it checks nothing.
- Categories.FirstSeen gives object keys in insertion order. JavaScript puts integer-like keys first, and a service type such as "123" would be listed earlier. No offered service type is integer-like.
- The `password` field of `User` is never read by the code and is not modelled.
- Context views are not modelled: `LandingPage`, `RoleSelection`, `Navbar`, `Footer`, `Layout` and `Logo`, and per-status badge colours (`getStatusColor`).
