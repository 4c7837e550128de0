# Agency OS project list and create forms, in Dafny

A verified model of the small pieces of sequential logic in an
agency-management web application (clients, projects, tasks on a hosted
record store):

- the **project list** (`ProjectList`): the status filter over the loaded
  projects, the counts on the "All", "Active" and "Completed" buttons, the
  status badge (`getStatusColor` and `formatStatus`), the description cut to
  60 characters, the client label fallback, and the choice between the empty
  state and the table;
- the **New Project** modal (`NewProjectForm`): its initial draft, the insert
  payload (empty optional fields become null, `budget` only when filled), and
  `handleSubmit` as one step over `(isOpen, loading, error, formData)`;
- the **Add Client** modal (`NewClientForm`): the same shape with its own
  defaults and message, sending the draft verbatim plus `user_id`.

The identity provider and the record store are not called: their answers are
inputs to the step functions (`Form.AuthReply`: signed in with an id, nobody
signed in, or a rejected call; `Form.InsertReply`: inserted, an error reply,
or a rejected call). `Form.Run` replays a sequence of user events (open,
close, field edits, submit) through a form, dropping events whose control is
not on screen or is disabled, so that invariants of every reachable state can
be stated. Strings are `seq<char>`; `Strings` holds `split`, `join` and the
ASCII upper-casing used by `formatStatus`.

Modules: `Wrappers` (Option), `Database` (row shapes and status
enumerations), `Strings`, `ProjectList`, `Form`, `NewProjectForm`,
`NewClientForm`.

The two create forms differ in how they treat a call that rejects (throws)
rather than returning an error object. The project handler wraps its calls in
`try`/`catch`/`finally`, so a rejection shows its message and clears
`loading`. The client handler has no `try`, so a rejection ends it with
`loading` still set and the error cleared, and its submit button stays
disabled from then on (`NewClientForm.SubmitClient`,
`NewClientForm.LoadingIsPermanent`).

## Model

| member | source | states |
|---|---|---|
| Database.ParseClientStatus | src/lib/types/database.ts:8 | a stored client status is read back exactly when it is one of active, inactive, lead, and reading is the inverse of writing |
| Database.InsertPart | src/lib/types/database.ts:14 | omitting the system-assigned columns from a row and storing the result under the same id and timestamps gives the row back |
| Database.Stored | src/lib/types/database.ts:1-14 | a stored row carries the id and timestamps the store assigned |
| Database.ProjectStatusNames | src/app/projects/new-project-button.tsx:208-212 | the five selectable project statuses are stored as the five known status strings, no two alike |
| Database.DisplayName | src/app/projects/new-project-button.tsx:147 | a client is named by its company when that is non-empty, else by its contact name; empty only when both are |
| Strings.UpperAscii | src/app/projects/project-list.tsx:45 | upper-casing maps a–z to A–Z and keeps every other character |
| Strings.Split | src/app/projects/project-list.tsx:44 | splitting yields at least one piece and no piece contains the separator |
| Strings.Join | src/app/projects/project-list.tsx:46 | the joined string is as long as the pieces plus one separator between each adjacent pair, and starts with the first piece |
| Strings.JoinSplit | src/app/projects/project-list.tsx:44-46 | joining the pieces of a split with the separator gives back the string |
| Strings.SplitJoin | src/app/projects/project-list.tsx:44-46 | splitting a join of separator-free pieces gives back the pieces |
| Strings.Capitalize | src/app/projects/project-list.tsx:45 | capitalising a word keeps its length |
| Strings.CapitalizeAll | src/app/projects/project-list.tsx:44-45 | mapping capitalise over the words capitalises each word, position by position |
| ProjectList.WithStatus | src/app/projects/project-list.tsx:24 | the status filter keeps exactly the projects with that status and is never longer than its input |
| ProjectList.Visible | src/app/projects/project-list.tsx:22-24 | filter "all" shows the input list itself; any other filter shows exactly the projects with that status |
| ProjectList.WithStatusAppend | src/app/projects/project-list.tsx:24 | filtering a concatenation is the concatenation of the filtered parts, so order is kept |
| ProjectList.WithStatusIsSubsequence | src/app/projects/project-list.tsx:24 | the filtered list is an order-preserving subsequence of the input |
| ProjectList.SubsequenceDropFront | src/app/projects/project-list.tsx:24 | a subsequence of a list's tail is a subsequence of the list |
| ProjectList.SubsequenceOfTail | src/app/projects/project-list.tsx:24 | dropping the head of a subsequence keeps it a subsequence |
| ProjectList.WithStatusCounts | src/app/projects/project-list.tsx:24 | every matching project is kept as many times as it occurs; no other project is kept |
| ProjectList.VisibleIsExactFilter | src/app/projects/project-list.tsx:22-24 | under a filter other than "all" the table shows the matching projects in input order, none dropped, none added |
| ProjectList.WithStatusKeepsMatching | src/app/projects/project-list.tsx:24 | a list whose projects all match passes the filter unchanged |
| ProjectList.WithStatusIdempotent | src/app/projects/project-list.tsx:24 | filtering an already filtered list by the same status changes nothing |
| ProjectList.VisibleIdempotent | src/app/projects/project-list.tsx:22-24 | re-applying the selected filter to the visible list changes nothing |
| ProjectList.PositionsSnoc | src/app/projects/project-list.tsx:94 | appending a project adds its position to the status positions exactly when its status matches |
| ProjectList.WithStatusLength | src/app/projects/project-list.tsx:94 | the length of the filtered list equals the number of positions holding the status |
| ProjectList.WithStatusDisjointBound | src/app/projects/project-list.tsx:94-104 | the projects kept under two different statuses number at most the whole list |
| ProjectList.Counts | src/app/projects/project-list.tsx:84-104 | "All" counts the whole list; "Active" and "Completed" count exactly the rows their filter would show, i.e. the positions with that status; the two together never exceed "All" |
| ProjectList.StatusColor | src/app/projects/project-list.tsx:26-41 | every status gets one of the five badge styles; a status outside the five known ones gets the "planning" style |
| ProjectList.StatusColorTotal | src/app/projects/project-list.tsx:26-41 | every status gets a badge; unknown statuses get the "planning" badge; the five known statuses get five different badges |
| ProjectList.TitleScan | src/app/projects/project-list.tsx:43-47 | the one-pass reference rewrite of a status keeps its length |
| ProjectList.TitleScanAt | src/app/projects/project-list.tsx:43-47 | the reference rewrite turns each `-` into a space and upper-cases exactly the first character of each word |
| ProjectList.FormatIsScan | src/app/projects/project-list.tsx:43-47 | split, capitalise and join with a space agrees with the one-pass reference rewrite |
| ProjectList.JoinConsFirst | src/app/projects/project-list.tsx:46 | prefixing the first word prefixes the joined string |
| ProjectList.FormatStatus | src/app/projects/project-list.tsx:43-47 | the label has the status's length and no `-`; each `-` becomes a space and each word's first letter is upper-cased, the rest kept |
| ProjectList.FormatOnHold | src/app/projects/project-list.tsx:43-47 | "on-hold" is shown as "On Hold" |
| ProjectList.FormatWord | src/app/projects/project-list.tsx:43-47 | a status without `-` is shown with only its first letter upper-cased |
| ProjectList.Shorten | src/app/projects/project-list.tsx:141-143 | a description of at most 60 characters is shown unchanged; a longer one as its first 60 characters followed by "...", 63 in all |
| ProjectList.ShortenIdempotent | src/app/projects/project-list.tsx:141-143 | shortening a shortened description changes nothing, and a shown description is at most 63 characters |
| ProjectList.DescriptionLine | src/app/projects/project-list.tsx:139-145 | the description line appears exactly when the description is non-null and non-empty, and then shows it shortened |
| ProjectList.ClientLabel | src/app/projects/project-list.tsx:148 | the client cell is never empty: the company if non-empty, else the contact name if non-empty, else "—" |
| ProjectList.RowOf | src/app/projects/project-list.tsx:127-164 | a row carries the project's id and name, its shortened description, its client label, its formatted status label and badge colour, and its due date exactly when one is set |
| ProjectList.Render | src/app/projects/project-list.tsx:49-127 | the empty state is shown exactly when the unfiltered list is empty; otherwise the buttons show the counts and the table has one row per visible project, in order |
| ProjectList.NoMatchShowsEmptyTable | src/app/projects/project-list.tsx:49-127 | a non-empty list whose filter matches nothing shows the table with zero rows, not the empty state |
| Form.Fresh | src/app/projects/new-project-button.tsx:18-20 | a form starts closed, not loading, without an error, holding its initial draft |
| Form.BeginSubmit | src/app/projects/new-project-button.tsx:36-37 | a submit starts by setting loading and clearing any previous error, touching nothing else |
| Form.NullIfEmpty | src/app/projects/new-project-button.tsx:50 | an optional field becomes null exactly when it is empty, and reading null back as empty restores it |
| Form.Run | src/app/projects/new-project-button.tsx:285 | a run sends at most one insert per event |
| Form.RunAppend | src/app/projects/new-project-button.tsx:285 | running one sequence of events and then another from where it stopped is the same as running them back to back: events are handled in order and inserts come out in the order sent |
| Form.Enabled | src/app/projects/new-project-button.tsx:94-285 | an event other than opening reaches the component only while the modal is open; a submit reaches it exactly when the modal is open, not loading, and the draft passes the `required` checks |
| Form.DisabledEventIgnored | src/app/projects/new-project-button.tsx:285 | an event that does not reach the component (a submit while loading, say) leaves the whole run as if it had not happened |
| Form.SentAtMostSubmits | src/app/projects/new-project-button.tsx:61-63 | when only submits send inserts, a run sends at most one insert per submit event |
| NewProjectForm.BuildPayload | src/app/projects/new-project-button.tsx:47-59 | the payload carries the user's id, name, client and status verbatim; description and dates are null exactly when empty; a budget is present exactly when the budget text is non-empty; every field but the budget can be read back from it |
| NewProjectForm.SubmitProject | src/app/projects/new-project-button.tsx:34-83 | loading ends false on every path; an insert is sent exactly when a user is found; the error is cleared exactly on success; success closes the form and resets it to the initial state; every failure keeps the form open state and draft and shows "You must be logged in" or the backend's message |
| NewProjectForm.SubmitForgetsPriorError | src/app/projects/new-project-button.tsx:36-37 | the outcome of a submit does not depend on the error or loading flag it started from |
| NewProjectForm.BadgeMatchesOptionLabel | src/app/projects/new-project-button.tsx:208-212 | the list's badge label of each selectable status equals that option's label in the form |
| NewProjectForm.OptionLabel | src/app/projects/new-project-button.tsx:208-212 | each option label is as long as its stored value and starts with a capital letter |
| NewProjectForm.Apply | src/app/projects/new-project-button.tsx:138-270 | each of the seven inputs sets exactly its own field to the value chosen and leaves the other six as they were; the status select stores the chosen status's name, one of the five known statuses |
| NewProjectForm.Ready | src/app/projects/new-project-button.tsx:141-167 | the browser lets the form submit exactly when the project name and a client are filled in; the initial draft cannot be submitted |
| NewProjectForm.Handle | src/app/projects/new-project-button.tsx:88-285 | only a submit sends an insert or changes loading and error; a submit always ends with loading cleared |
| NewProjectForm.RunStaysConsistent | src/app/projects/new-project-button.tsx:80-82 | from a consistent state, any events and backend replies leave the form not loading and with one of the five known statuses |
| NewProjectForm.ReachableConsistent | src/app/projects/new-project-button.tsx:24-32 | every state reachable from the initial one is consistent |
| NewProjectForm.RunSendsNamedProjects | src/app/projects/new-project-button.tsx:141-167 | every project the form sends has a name and a selected client, as the `required` fields demand |
| NewProjectForm.InsertsOnlyOnSubmit | src/app/projects/new-project-button.tsx:61-63 | the form sends at most one project per submit event |
| NewClientForm.BuildPayload | src/app/clients/new-client-button.tsx:36-39 | the payload is the draft unchanged, empty strings included, plus the user's id |
| NewClientForm.AsClientInsert | src/lib/types/database.ts:14 | a payload is a client row to insert exactly when its status is a client status; every optional column is then present, never null |
| NewClientForm.SubmitClient | src/app/clients/new-client-button.tsx:23-58 | an insert is sent exactly when a user is found; success closes the form and resets it to the initial state; a missing user or an error reply shows "You must be logged in to create a client" or the backend's message and clears loading, keeping open state and draft; a rejected call leaves loading set and no error |
| NewClientForm.SubmitForgetsPriorError | src/app/clients/new-client-button.tsx:25-26 | the outcome of a submit does not depend on the error or loading flag it started from |
| NewClientForm.Handle | src/app/clients/new-client-button.tsx:63-246 | only a submit sends an insert or changes loading and error |
| NewClientForm.Apply | src/app/clients/new-client-button.tsx:121-222 | each of the six inputs sets exactly its own field to the value chosen and leaves the other five as they were; the status select stores the chosen client status's name, which parses back to that status |
| NewClientForm.Ready | src/app/clients/new-client-button.tsx:124 | the browser lets the form submit exactly when the company is filled in; the initial draft cannot be submitted |
| NewClientForm.RunKeepsValidStatus | src/app/clients/new-client-button.tsx:194-208 | whatever happens, a draft with a client status keeps a client status |
| NewClientForm.RunSendsClientRows | src/app/clients/new-client-button.tsx:36-39 | every payload sent from a state with a valid draft status is a well-formed client row |
| NewClientForm.ReachableSendsClientRows | src/app/clients/new-client-button.tsx:14-21 | in every reachable state the draft status is active, inactive or lead, and every payload sent is a well-formed client row |
| NewClientForm.LoadingIsPermanent | src/app/clients/new-client-button.tsx:246 | once left loading, the form stays loading and never sends another insert |
| NewClientForm.RejectionCanBeReached | src/app/clients/new-client-button.tsx:28 | opening the form, filling in the company and submitting into a rejected identity call reaches the stuck loading state |
| NewClientForm.RunSendsCompanies | src/app/clients/new-client-button.tsx:124 | every client the form sends has a company name, as the `required` field demands |
| NewClientForm.InsertsOnlyOnSubmit | src/app/clients/new-client-button.tsx:36-39 | the form sends at most one client per submit event |
| NewClientForm.SentClientsStoreAsRows | src/app/clients/new-client-button.tsx:36-39 | every client the form sends is stored as a client row with the sent company (never empty) and email, a client status named as sent, and omitting the assigned columns from the stored row gives back exactly the insert |

## Left out

- Page loaders (`src/app/page.tsx`, the dashboard, projects and clients pages): sign-in redirects and record-store queries run by the hosted service; there is no logic of their own to model.
- The project detail page, its header and its task list: outside the modelled components.
- NewProjectForm.BuildPayload: models only whether `budget` is present, not the number `parseFloat` makes of the text, because floating-point parsing is out of scope; the read-back promise therefore covers every field but the budget.
- Due-date rendering with `toLocaleDateString`: locale-dependent; a row keeps the stored date, or none when it is empty or null.
- `router.refresh`, the record-store client and the identity calls: foreign calls, replaced by the reply inputs of `Form`.
- React's asynchronous scheduling: each `handleSubmit` is one step; events arriving while a submit is awaited (closing the form mid-request) are not interleaved.
- NewProjectForm.Ready: models the two `required` checks but not the budget input's `type="number" step="0.01"` validation, which also blocks a submit whose budget text is not a number with at most two decimals; the model lets such submits through.
- NewClientForm.Ready: models the `required` company check but not the browser's `type="email"` format check, which also blocks a submit with a malformed address; the model lets such submits through.
- Markup, class names other than the badge colours, and icons: presentation only.
- `ClientUpdate` and the other type aliases: they shape the records only.
- Strings.UpperAscii: upper-cases ASCII letters only; `toUpperCase` on other characters (including ones whose upper case is longer) is not modelled, so `FormatStatus` keeping the length holds of the model for every input but of the source only for ASCII.
- ProjectList.Shorten: counts characters, where `substring` counts UTF-16 code units; the two agree for text without surrogate pairs.
