# rwfc-financialsystem console core in Dafny

This project models the logic of a React accounting-practice console:
- **conversation registry.** An in-memory registry of client–staff conversations, with single-owner claiming, message append and find-or-create per client.
- **route gate.** Decides which page a request renders, from the session and the profile's role.
- **session store.** Holds the `user`, `session` and `loading` cells and the events that update them.
- **staff conversation screen.** On the first reply, a staff member claims the thread and it becomes private.
- **client portal.**
- **list screens.** Tasks, users, service templates, documents and clients, each with its filter, form validation, create/edit/delete state updates and colour lookups.

The code is organised as follows:
- One Dafny module per source file: `MockData`, `App`, `AuthContext`, `ClientDetail`, `ClientPortal`, `Tasks`, `UserManagement`, `Settings`, `Documents` and `Clients`.
- Shared modules hold JavaScript string and array semantics (`Text`: `trim`, ASCII `toLowerCase`, `includes`, `split`/`join`, initials; `Seqs`: `filter`, `find`, `map`), the role type (`Types`) and `Option`/`Call` (`Wrappers`).
- State that the source updates in place is a class with `modifies` clauses:
  - the module-level `conversations` array is `MockData.ConversationRegistry`;
  - each screen's React state cells are the fields of a page class.
- Each method's `ensures` ties the new state to a pure function of the old state. The properties live in lemmas about those functions.

Outside inputs are parameters. These are:
- remote Supabase results: `Call<T>` is `Returned(value)` or `Threw`, and `Clients.Response` is `{ data }` or `{ error }`;
- the clock: a `nat` instant;
- faker draws: constructor arguments, constrained as the generators constrain them;
- yup's email check: a function parameter `isEmail`.

## Model

| member | source | states |
|---|---|---|
| MockData.ConversationRegistry.Seeded | src/data/mockData.ts:45-95 | seven conversations: three unassigned with one client message, four assigned with client/staff/client messages, placed in descending last-activity order; the registry invariant holds |
| MockData.ConversationIdsOneToN | src/data/mockData.ts:127-142 | under the registry invariant the conversation ids are exactly 1..n, which is why `length + 1` is fresh |
| MockData.ConversationRegistry.UnassignedConversations | src/data/mockData.ts:101-103 | exactly the unassigned conversations, in registry order |
| MockData.ConversationRegistry.ConversationByClient | src/data/mockData.ts:105-107 | the first conversation of that client in registry order; none exactly when the client has none |
| MockData.Claimed | src/data/mockData.ts:109-116 | claiming touches only the conversation with that id and never an assigned one; ids, clients and messages stay |
| MockData.ClaimAssigns | src/data/mockData.ts:111-114 | an unassigned conversation becomes assigned to the claimer, with id and name |
| MockData.ClaimPreservesInvariant | src/data/mockData.ts:109-116 | claiming keeps ids unique and dense, status consistent with the assignee, and message ids 1..n |
| MockData.SecondClaimKeepsOwner | src/data/mockData.ts:111 | the first claim wins: a second claim by anyone changes nothing |
| MockData.ConversationRegistry.Claim | src/data/mockData.ts:109-116 | the registry becomes `Claimed` of the old one and stays valid |
| MockData.WithMessage | src/data/mockData.ts:118-125 | only the conversation with that id changes; status and assignee never change; an unknown id changes nothing |
| MockData.AppendEffect | src/data/mockData.ts:121-123 | exactly one message numbered `n + 1` is appended at the end and the activity time is stamped; nothing else in the conversation changes |
| MockData.AppendPreservesInvariant | src/data/mockData.ts:118-125 | appending keeps the registry invariant; message ids stay 1..n |
| MockData.ConversationRegistry.AddMessage | src/data/mockData.ts:118-125 | the registry becomes `WithMessage` of the old one and stays valid |
| MockData.FindOrCreateResult | src/data/mockData.ts:127-142 | the returned conversation belongs to the client; the registry is unchanged or has exactly it prepended |
| MockData.FindOrCreateEffect | src/data/mockData.ts:128-140 | an existing conversation is returned unchanged; otherwise a new empty unassigned conversation with id `n + 1` goes in front |
| MockData.FindOrCreateFindsItself | src/data/mockData.ts:127-142 | afterwards the client lookup finds the returned conversation |
| MockData.FindOrCreateIdempotent | src/data/mockData.ts:127-142 | a second call returns the same conversation and adds nothing |
| MockData.FindOrCreatePreservesInvariant | src/data/mockData.ts:130-139 | creating keeps ids unique and dense |
| MockData.FindOrCreateCreatesOne | src/data/mockData.ts:129-140 | a client with no conversation ends with exactly one |
| MockData.CreatedIsListedEmpty | src/data/mockData.ts:135-136 | a created conversation is listed as unassigned while it has no message |
| MockData.ConversationRegistry.FindOrCreate | src/data/mockData.ts:127-142 | registry and result are those of `FindOrCreateResult`; the registry stays valid |
| App.ProtectedRoute | src/App.tsx:20-36 | no session goes to `/login`; a loaded role outside a non-empty list is refused exactly, to `/client-portal` for clients and `/dashboard` otherwise |
| App.ProtectedRouteAdmits | src/App.tsx:20-35 | an empty role list, or a profile not yet loaded, admits any session |
| App.AppRoutes | src/App.tsx:41-51 | the loading skeleton shows exactly while loading |
| App.SignedOutArea | src/App.tsx:54-63 | signed out, only login, sign-up and forgot-password render; every other path redirects to `/login` |
| App.ClientArea | src/App.tsx:66-75 | a client renders only the portal; every other path redirects there |
| App.StaffArea | src/App.tsx:78-95 | `/users` admits only admins (or an unloaded profile); the client and workpaper routes admit the staff roles; unknown and public paths redirect to `/dashboard` |
| App.NonAdminUsersGoesToDashboard | src/App.tsx:89 | a manager or staff member asking for `/users` lands on the dashboard |
| App.AdminReachesStaffRoutes | src/App.tsx:81-89 | an admin renders every staff route |
| App.RedirectTargetsRender | src/App.tsx:38-96 | every redirect target renders a page: redirects settle in one hop |
| AuthContext.UseAuth | src/contexts/AuthContext.tsx:15-21 | throws exactly when no provider is present, else returns its value |
| AuthContext.UserFor | src/contexts/AuthContext.tsx:36-51 | no session means no user; with a session the profile row or null on a query error; a thrown query leaves the user |
| AuthContext.AuthProvider.constructor | src/contexts/AuthContext.tsx:24-26 | starts with no user, no session, loading |
| AuthContext.AuthProvider.Value | src/contexts/AuthContext.tsx:94-97 | the context value carries the three cells; in a valid store a caller never sees a role without a session |
| AuthContext.AuthProvider.ScreenFor | src/App.tsx:38-63 | in the store's state the skeleton shows exactly while loading; signed out only the public pages render |
| AuthContext.AuthProvider.FetchInitialSession | src/contexts/AuthContext.tsx:29-58 | loading always ends; a throw from `getSession` changes nothing else; otherwise session and user are set as `UserFor` says; never a user without a session |
| AuthContext.AuthProvider.Subscribe | src/contexts/AuthContext.tsx:63 | the listener becomes live and nothing else changes |
| AuthContext.AuthProvider.OnAuthStateChange | src/contexts/AuthContext.tsx:63-81 | while subscribed the session becomes the event's and the user follows `UserFor`; loading is untouched |
| AuthContext.AuthProvider.Logout | src/contexts/AuthContext.tsx:88-92 | after a successful sign-out user and session are null; a throw leaves both |
| AuthContext.AuthProvider.Teardown | src/contexts/AuthContext.tsx:83-85 | after unsubscribing, events no longer change the store |
| ClientDetail.ComposerIffVisible | src/pages/ClientDetail.tsx:211-254 | a viewer has the composer exactly when the messages are not hidden |
| ClientDetail.AppendOnlyChanges | src/pages/ClientDetail.tsx:94-98 | an append changes only the target conversation |
| ClientDetail.ClaimWithNoticeEffect | src/pages/ClientDetail.tsx:91-95 | claim plus notice: one encrypted "System" message appended, ownership to the viewer if it was free, invariant kept |
| ClientDetail.StaffReplyEffect | src/pages/ClientDetail.tsx:89-98 | on a thread shown unassigned: +2 messages (notice, reply), and the viewer owns it unless someone already did; on an assigned one: +1 and ownership untouched; nothing else changes |
| ClientDetail.FirstReplyMakesPrivate | src/pages/ClientDetail.tsx:91-98 | after the first reply the replier reads and writes, every other viewer is locked out of both |
| ClientDetail.RefindAfterReply | src/pages/ClientDetail.tsx:100 | after a reply the client's thread is found again |
| ClientDetail.ClientDetailPage.constructor | src/pages/ClientDetail.tsx:43-44 | no conversation and an empty draft at mount |
| ClientDetail.ClientDetailPage.Load | src/pages/ClientDetail.tsx:80-85 | the thread is looked up by the route's client id; nothing is created |
| ClientDetail.ClientDetailPage.Edit | src/pages/ClientDetail.tsx:89 | the draft takes the typed text |
| ClientDetail.ClientDetailPage.Reply | src/pages/ClientDetail.tsx:91-98 | the registry calls produce `StaffReply` |
| ClientDetail.ClientDetailPage.Send | src/pages/ClientDetail.tsx:87-101 | a blank draft, missing thread or missing user is a no-op; otherwise the registry gets the staff reply, the draft clears and the thread is re-read and found |
| ClientPortal.RepeatedLoadsAddNothing | src/pages/ClientPortal.tsx:29-34 | loading again adds nothing and returns the same thread; a new client gets exactly one, avatar = the name's initials |
| ClientPortal.ClientSendEffect | src/pages/ClientPortal.tsx:45-57 | a client send appends one unencrypted client message whatever the assignment; the refresh creates nothing |
| ClientPortal.ClientPortalPage.constructor | src/pages/ClientPortal.tsx:22-23 | no conversation and an empty draft at mount |
| ClientPortal.ClientPortalPage.Load | src/pages/ClientPortal.tsx:29-34 | with a user, the registry and the thread are those of find-or-create with the name's initials |
| ClientPortal.ClientPortalPage.Edit | src/pages/ClientPortal.tsx:45 | the draft takes the typed text |
| ClientPortal.ClientPortalPage.Send | src/pages/ClientPortal.tsx:43-58 | a blank draft, missing thread or missing user is a no-op; otherwise one message is appended, the registry keeps its size, the draft clears and the thread is the client's |
| Text.TrimEmptyIffBlank | src/pages/ClientDetail.tsx:89 | `trim() === ''` exactly for drafts made only of whitespace |
| Text.SearchIgnoresCase | src/pages/Tasks.tsx:59-61 | terms or fields equal up to case match alike; an upper-cased term, or an upper-cased field, matches exactly where the original does |
| Text.SplitJoin | src/pages/Settings.tsx:53-66 | splitting a join on a separator that no part contains gives the parts back |
| Text.JoinSplit | src/pages/Settings.tsx:53-66 | joining a split gives the text back |
| Text.InitialsOfName | src/pages/ClientPortal.tsx:31 | a name of non-empty single-space-separated words has one initial per word, its first letter |
| Types.ParseRole | src/types/supabase.ts:4 | a string parses to the role whose name it is, and to nothing if no role has that name |
| Tasks.ValidateTask | src/pages/Tasks.tsx:36-43 | accepted exactly when title, client, assignee and due date are non-empty and the priority is one of three |
| Tasks.ValidateOpenedTask | src/pages/Tasks.tsx:69-78 | a task's own fields validate back to themselves |
| Tasks.FilteredTasks | src/pages/Tasks.tsx:58-65 | a task is kept iff the search hits title, client or assignee and both selects admit it; order kept; no filter keeps all |
| Tasks.NextTaskId | src/pages/Tasks.tsx:83 | one more than some task's id and larger than every id, i.e. the largest id plus one; 1 for an empty list |
| Tasks.EditedTasks | src/pages/Tasks.tsx:80 | only tasks with the edited id change; ids and status stay |
| Tasks.CreateKeepsIdsUnique | src/pages/Tasks.tsx:81-87 | the created task's id is fresh |
| Tasks.TasksPage.constructor | src/pages/Tasks.tsx:25-52 | the generated tasks, numbered 1..n, with no filters |
| Tasks.TasksPage.Visible | src/pages/Tasks.tsx:58-65 | the rows shown: list entries passing the search and selects, in list order, and every entry that passes |
| Tasks.TasksPage.OpenModal | src/pages/Tasks.tsx:67-71 | opens on the given task or a blank form; the search and filter cells are kept |
| Tasks.TasksPage.CloseModal | src/pages/Tasks.tsx:73-76 | closes and forgets the edited task; the search and filter cells are kept |
| Tasks.TasksPage.Submit | src/pages/Tasks.tsx:78-90 | rejected input changes nothing; an edit overwrites; a create prepends a pending task with a fresh id; ids stay unique; the search and filter cells are kept |
| Tasks.TasksPage.SetDeleting | src/pages/Tasks.tsx:186-245 | records or dismisses the pending delete; the search and filter cells are kept |
| Tasks.TasksPage.DeleteTask | src/pages/Tasks.tsx:92-97 | with a pending id every task with it goes and the id clears; `0` or none does nothing; the search and filter cells are kept |
| UserManagement.ValidateUser | src/pages/UserManagement.tsx:38-42 | accepted exactly when name and email are non-empty, the email passes, and the role is one of four |
| UserManagement.FilteredUsers | src/pages/UserManagement.tsx:58-64 | a user is kept iff the search hits name or email and both selects admit it; order kept |
| UserManagement.EditedUsers | src/pages/UserManagement.tsx:66-79 | every user with the edited id becomes the edited record as `reset(user)` loaded it, with the form's name, email and role; every other user is untouched; ids stay |
| UserManagement.EditListedUser | src/pages/UserManagement.tsx:77-79 | with unique ids, editing a listed user changes that user alone, and only in name, email and role |
| UserManagement.EditCopiesOverRepeatedId | src/pages/UserManagement.tsx:66-82 | after `length + 1` has repeated id 2, editing the older user 2 makes both entries copies of its record, so the newer user's own fields are lost |
| UserManagement.LengthPlusOneCollides | src/pages/UserManagement.tsx:82 | `users.length + 1` after a delete repeats a live id |
| UserManagement.LengthPlusOneFresh | src/pages/UserManagement.tsx:82 | with unique ids, `length + 1` is fresh exactly when no user has that id; always fresh while ids are 1..n |
| UserManagement.DeleteThenCreate | src/pages/UserManagement.tsx:77-100 | from ids 1..n, deleting id k and creating one repeats an id exactly when k is not n |
| UserManagement.NextUserId | src/pages/UserManagement.tsx:82 | the intended id: the largest id plus one, larger than every id, 1 for an empty list |
| UserManagement.CreateKeepsIdsUnique | src/pages/UserManagement.tsx:80-90 | with the intended id, creating keeps ids unique |
| UserManagement.RoleColor | src/pages/UserManagement.tsx:102-110 | anything that is not a role name is gray |
| UserManagement.RoleColorsDistinct | src/pages/UserManagement.tsx:102-110 | the four roles have four distinct non-gray colours |
| UserManagement.UserManagementPage.constructor | src/pages/UserManagement.tsx:26-51 | the generated users, numbered 1..n, with no filters; every id positive |
| UserManagement.UserManagementPage.Visible | src/pages/UserManagement.tsx:58-64 | the rows shown: list entries passing the search and selects, in list order, and every entry that passes |
| UserManagement.UserManagementPage.OpenModal | src/pages/UserManagement.tsx:66-70 | opens on the given user or a blank form; the search and filter cells are kept |
| UserManagement.UserManagementPage.CloseModal | src/pages/UserManagement.tsx:72-75 | closes and forgets the edited user; the search and filter cells are kept |
| UserManagement.UserManagementPage.Submit | src/pages/UserManagement.tsx:77-93 | rejected input changes nothing; an edit turns every user with the edited id into the edited record with the form's fields; a create prepends an active user with id `users.length + 1`; ids stay positive; the search and filter cells are kept |
| UserManagement.UserManagementPage.SetDeleting | src/pages/UserManagement.tsx:201-244 | records or dismisses the pending delete; the search and filter cells are kept |
| UserManagement.UserManagementPage.DeleteUser | src/pages/UserManagement.tsx:95-100 | with a pending id every user with it goes and the id clears; `0` or none does nothing; the search and filter cells are kept |
| Settings.TaskLines | src/pages/Settings.tsx:66 | exactly the non-blank lines of the text: each kept line is non-blank and newline-free, every non-blank line is kept as often as it occurs, blank lines never, in their original order and spelling |
| Settings.TaskLinesJoin | src/pages/Settings.tsx:53-66 | joining tasks with newlines and parsing back returns them, when none is blank or holds a newline |
| Settings.BlankTextGivesNoTasks | src/pages/Settings.tsx:36-66 | a whitespace-only task text passes `required` yet yields no task |
| Settings.ValidateTemplate | src/pages/Settings.tsx:30-37 | accepted exactly when name, type, description and task text are non-empty and hours and price are numbers above zero; tasks are the parsed lines |
| Settings.BlankFormRejected | src/pages/Settings.tsx:55 | the blank form does not validate |
| Settings.OpenedFormValidates | src/pages/Settings.tsx:30-66 | a template the schema accepts, with non-blank single-line tasks, opens on a form that validates back to its own fields and tasks |
| Settings.ResubmitUnchanged | src/pages/Settings.tsx:53-68 | opening a template and saving it unchanged leaves the list as it was |
| Settings.EditedTemplates | src/pages/Settings.tsx:67-68 | only templates with the edited id change; ids stay |
| Settings.LengthPlusOneCollides | src/pages/Settings.tsx:71 | for three templates numbered 1..3, the shape of the seeds, `templates.length + 1` after deleting the first repeats the third's id |
| Settings.SeededTemplates | src/pages/Settings.tsx:24-28 | the three fixed templates, numbered 1..3 |
| Settings.LengthPlusOneFresh | src/pages/Settings.tsx:71 | with unique ids, `length + 1` is fresh exactly when no template has that id; always fresh while ids are 1..n |
| Settings.DeleteThenCreate | src/pages/Settings.tsx:69-84 | from ids 1..n, deleting id k and creating one repeats an id exactly when k is not n |
| Settings.NextTemplateId | src/pages/Settings.tsx:71 | the intended id: the largest id plus one, larger than every id, 1 for an empty list |
| Settings.CreateKeepsIdsUnique | src/pages/Settings.tsx:69-74 | with the intended id, creating keeps ids unique |
| Settings.ServiceTypeColor | src/pages/Settings.tsx:86-96 | gray exactly for types outside the six |
| Settings.ServiceTypeColorsDistinct | src/pages/Settings.tsx:86-96 | the six types have six distinct colours |
| Settings.SettingsPage.constructor | src/pages/Settings.tsx:24-44 | starts with the three seeded templates; every id positive |
| Settings.SettingsPage.OpenModal | src/pages/Settings.tsx:50-58 | opens on the template (tasks joined by newlines) or the blank form |
| Settings.SettingsPage.CloseModal | src/pages/Settings.tsx:60-63 | closes and forgets the edited template |
| Settings.SettingsPage.Save | src/pages/Settings.tsx:66-76 | an edit merges the form into every template with the edited id; a create prepends one with id `templates.length + 1`; the modal closes; ids stay positive |
| Settings.SettingsPage.Submit | src/pages/Settings.tsx:65-77 | rejected input changes nothing; accepted input is saved as `Save` states, with the parsed task lines |
| Settings.SettingsPage.SetDeleting | src/pages/Settings.tsx:133-195 | records or dismisses the pending delete |
| Settings.SettingsPage.DeleteTemplate | src/pages/Settings.tsx:79-84 | with a pending id every template with it goes and the id clears; `0` or none does nothing |
| Documents.StatusFor | src/pages/Documents.tsx:55 | above 85 processed, above 70 review-needed, else processing; never failed |
| Documents.StatusMonotone | src/pages/Documents.tsx:55 | more confidence never gives a less finished status |
| Documents.ConfidenceColor | src/pages/Documents.tsx:103-107 | green from 85, yellow from 70, else red |
| Documents.ColorAgreesExceptAtThresholds | src/pages/Documents.tsx:55-107 | colour and status disagree exactly at 70 and 85 |
| Documents.MockDocuments | src/pages/Documents.tsx:45-64 | fifteen documents numbered 1..n with the status derived from the drawn confidence |
| Documents.MockDocumentsShape | src/pages/Documents.tsx:45-56 | generated ids are 1..15 and distinct, confidence is 65..99, no status is failed |
| Documents.StatusCount | src/pages/Documents.tsx:236-238 | the number of documents whose status is the given one (its multiplicity among the statuses), never above the total |
| Documents.CountsSumToTotal | src/pages/Documents.tsx:235-238 | the processed, review-needed and processing counts add up to the total |
| Documents.FilteredDocuments | src/pages/Documents.tsx:66-71 | a document is kept iff the search hits name or client and the status select admits it; order kept |
| Documents.Unselected | src/pages/Documents.tsx:331 | every occurrence of the id goes; every other id stays, in order |
| Documents.CheckThenUncheck | src/pages/Documents.tsx:328-332 | checking then unchecking a row restores a selection that did not hold it |
| Documents.DocumentsPage.constructor | src/pages/Documents.tsx:39-45 | the generated documents, no filters, nothing selected |
| Documents.DocumentsPage.Render | src/pages/Documents.tsx:45 | each render draws the documents again; the selection stays and still names documents |
| Documents.DocumentsPage.Visible | src/pages/Documents.tsx:66-71 | the rows shown: list entries passing the search and selects, in list order, and every entry that passes |
| Documents.DocumentsPage.ToggleAll | src/pages/Documents.tsx:284-290 | ticking selects exactly the visible ids in row order; unticking clears |
| Documents.DocumentsPage.ToggleRow | src/pages/Documents.tsx:327-333 | ticking appends the id; unticking removes all its occurrences and keeps the rest |
| Clients.ValidateClient | src/pages/Clients.tsx:17-23 | accepted exactly when name, email, company and VAT number are non-empty and the email passes |
| Clients.PhoneIsOptional | src/pages/Clients.tsx:22 | the phone never decides acceptance |
| Clients.FilteredClients | src/pages/Clients.tsx:56-62 | a client is kept iff the search hits name, company or VAT number and the status select admits it; order kept |
| Clients.CardInitials | src/pages/Clients.tsx:167 | at most two characters, no space |
| Clients.CardInitialsOfName | src/pages/Clients.tsx:167 | for a name of words, the first letters of its first two words |
| Clients.ClientsPage.constructor | src/pages/Clients.tsx:26-33 | empty list, loading, no error |
| Clients.ClientsPage.Visible | src/pages/Clients.tsx:56-62 | the cards shown: list entries passing the search and selects, in list order, and every entry that passes |
| Clients.ClientsPage.FetchClients | src/pages/Clients.tsx:39-50 | an error is stored and the list kept; data replaces the list and clears the error; loading ends false either way; the search and filter cells are kept |
| Clients.ClientsPage.OpenModal | src/pages/Clients.tsx:64-68 | opens on the given client or a blank form; the search and filter cells are kept |
| Clients.ClientsPage.CloseModal | src/pages/Clients.tsx:70-73 | closes and forgets the edited client; the search and filter cells are kept |
| Clients.ClientsPage.Submit | src/pages/Clients.tsx:75-85 | after an accepted form the list is refetched and the modal closes whether or not the write failed; the error is the refetch's own; the search and filter cells are kept |
| Clients.ClientsPage.SetDeleting | src/pages/Clients.tsx:179 | records or dismisses the pending delete; the search and filter cells are kept |
| Clients.ClientsPage.DeleteClient | src/pages/Clients.tsx:87-94 | the local list loses the client only when the remote delete succeeded; a failure is stored; the pending id clears either way; the search and filter cells are kept |
| Seqs.FilterMultiplicity | src/pages/Settings.tsx:66 | `filter` keeps each element that passes as often as it occurs and drops the others entirely |
| Seqs.RemoveKeyCount | src/pages/Clients.tsx:91 | with unique ids, deleting a listed id removes exactly one entry and an absent id removes none |

## Left out

- Supabase. The auth calls (`getSession`, `signOut`, the change subscription) and the `profiles`/`clients` queries are left out as behaviour; only their outcomes enter, as parameters. The data sent by an insert or update is not modelled: the list comes back through the refetch. `Clients.ClientsPage.FetchClients` and `Submit` assume the fetched rows have distinct ids, as the `clients` table's primary key guarantees; the page itself does not check it.
- Concurrency. The auth listener may interleave with the in-flight initial fetch in the session store, and a late profile could land after the session is cleared. The model runs each handler to completion, one at a time.
- faker. Generated values are arbitrary arguments (the service templates are not generated: they are the fixed `Settings.SeededTemplates`). Only the constraints the generators impose are kept: ids `1..n`, confidence 65..99, 15 documents, seven seeded conversations with client ids 1..15 and staff ids 1..5.
- Clock and formatting. `new Date()` is a `nat` instant, and one handler uses one instant. `toLocaleTimeString`/`toISOString` strings are not modelled; a message keeps its instant.
- `toLowerCase` (and `toUpperCase` in `Text.SearchIgnoresCase`) is modelled on ASCII letters only. `trim` uses the ECMAScript whitespace set.
- Initials. `n[0]` in the source is one UTF-16 code unit; the model takes one Dafny `char`, so a name starting with a character outside the basic plane would give half a surrogate pair in the source and the whole character here.
- Email syntax. yup's email regex is not part of this model; it is the parameter `isEmail`.
- Route ids. A non-numeric `:id` (`Number(id)` giving `NaN`) is not modelled; the route's client id is an `Option` of an id.
- Aliasing. The registry's `find` returns the same object the array holds. The screens' copies are modelled as values, re-read from the registry after each change. What a stale copy displays between renders is not modelled.
- src/pages/Compliance.tsx and src/pages/Workpapers.tsx. These are calendar arithmetic, currency formatting and floating-point variances over generated data.
- src/pages/Dashboard.tsx. It is a timer and rendering over the unassigned list. At line 116 it reads the last message of each unassigned conversation, and `MockData.CreatedIsListedEmpty` shows a freshly created one has none.
- src/pages/Login.tsx, src/pages/SignUp.tsx and src/pages/ForgotPassword.tsx. They delegate to remote auth.
- src/components/ui/Modal.tsx and src/components/ui/ConfirmationDialog.tsx. These are presentation only. The dialog's confirm and dismiss are `DeleteTask`/`SetDeleting(None)` and their counterparts.
- Plain setters. The search-box and select setters are plain assignments to the filter fields; they are not separate methods.
- Ids. `Profile.id` is a string and registry ids are numbers; both are the one id type `Types.UserId`.
- Documents.DocumentsPage: the `view` tab and the upload drop zone, which only logs, are not modelled.
- Settings.ServiceTypeColor: models a lookup in a plain table. A type string naming an inherited object property (such as `constructor`) would not give gray in the source. The select offers only the six types.
- Settings.ValidateTemplate: `estimatedHours` and `price` are `real`, not IEEE doubles; an input that does not read as a number is `None`.
- Behaviour that follows the code where its own wording suggests more:
  - `logout` clears the cells only when `signOut` returns.
  - The registry is sorted only when seeded. Later appends do not reorder it.
  - Nothing stops a client from having several conversations. The lookups take the first.
  - In `Clients.ClientsPage.Submit`, the write's error is overwritten by the refetch's `setError(null)`.

## Findings

| source | as written | input that shows it | evidently intended | confidence | as-written member | corrected member |
|---|---|---|---|---|---|---|
| src/pages/UserManagement.tsx:82 | a new user's id is `users.length + 1` | users with ids 1 and 2; delete 1; add a user: it gets id 2, which user 2 still has | an id larger than every live id, as src/pages/Tasks.tsx:83 does | high (not executed) | UserManagement.LengthPlusOneCollides | UserManagement.CreateKeepsIdsUnique |
| src/pages/Settings.tsx:71 | a new template's id is `templates.length + 1` | the seeded templates 1, 2, 3; delete 1; add one: it gets id 3, which template 3 still has | an id larger than every live id | high (not executed) | Settings.LengthPlusOneCollides | Settings.CreateKeepsIdsUnique |

The page classes create with the ids as written, so their `Valid()` keeps ids positive but not unique; `DeleteThenCreate` in each module states, for every list numbered 1..n, exactly which deletions lead to a repeated id. The corrected ids `NextUserId` and `NextTemplateId` are proved fresh by `CreateKeepsIdsUnique`; `src/pages/Tasks.tsx:83` already uses that form. On the users page a repeated id also spreads through edits: editing the older of two users with the same id copies its whole record over the newer one (`UserManagement.EditCopiesOverRepeatedId`).
