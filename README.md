# Engineering office back office: a verified model of its core

The system is the back office of an engineering consultancy, written as a
Next.js application over MongoDB. This project models the parts of it that
decide things, and proves what they promise:

- **The request gate** (`middleware.ts`). A path is public or protected by
  plain prefix. The decision uses only the pathname and whether a non-empty
  `token` cookie is present. The route matcher skips the Next.js asset paths
  before the gate runs.
- **Authentication and users.**
  - The login handler runs a chain of checks with early returns. Success
    sets a signed `token` cookie holding the user's id, role and name.
  - User registration requires an email no one else has. Listing users never
    shows passwords.
  - The profile update applies only the fields that are given.
- **Attendance.**
  - The day's ledger allows one record per user and UTC day.
  - Check-in is refused when today's record exists. Check-out is refused
    when it does not.
  - The day key is the `YYYY-MM-DD` prefix of the ISO timestamp.
- **Clients.** Creation requires a name and a phone. Quick add finds a client
  by name or creates one with a placeholder phone.
- **Seeding.** A repeatable run creates the administrator, three clients,
  three projects, and tasks and transactions when those collections are
  empty. A second run changes nothing.
- **Finance.**
  - Income and expense totals, net profit, and the ten latest transactions.
  - Transactions, expenses and two kinds of invoice, each created through its
    handler's validation and its schema's enums and defaults.
  - Numbered invoices are numbered `INV-<year>-<serial>`.
- **Dashboard counters.**
- **The invoice dialog.** Editing an item line recomputes the total. Adding
  a line keeps the total. Removing a line keeps the displayed amount.
- **The new-project dialog.** Two steps, a task checklist that toggles, and
  a submit that clears the form.
- **The two navigation menus.** At most one entry is highlighted, and the
  mobile drawer renders nothing while closed.

Each handler is modelled over an in-memory collection class,
`Store.Collection`. Its methods are the Mongoose calls the handlers make:

| Method | Mongoose call |
|---|---|
| `Find` | `findOne` |
| `FindId` | `findById` |
| `Create` | `create` |
| `FindOrCreate` | find-then-create |
| `Save` | `save` |

A reply is `Ok(status, value)` or `Err(status, message)`.

The following enter as parameters:

- bcrypt's hashing and comparison;
- the token signer;
- the clock (`Date.now()` as milliseconds);
- the year of `getFullYear()`;
- whatever the browser's fetches return.

Where the code's own names and comments suggest more than the code does,
the model follows the code:

- `lib/jwt.ts:12` and `lib/auth.ts:24` each define a `verifyToken`, but
  `middleware.ts` never calls either. The gate never verifies the token: any
  non-empty cookie value opens every protected page
  (`Middleware.TokenNeverVerified`).
- `models/Attendance.ts:5` calls the stored date "normalized to start of
  day", without naming a time zone. The day key is the UTC date, because
  `toISOString()` is UTC. Two instants of one UTC day share a key whatever
  the server's time zone (`Clock.SameUtcDaySameKey`).
- The dashboard reports its task count as `pendingTasks`
  (`app/api/dashboard/route.ts:27`), but the count compares `status` with
  `'Completed'`. No task status is spelled that way (the enum is `todo`,
  `in_progress`, `review`, `done`), so the count is always the number of
  tasks (`DashboardApi.CountOfUnusedName`).
- The finance invoice handler's "basic validation"
  (`app/api/finance/invoices/route.ts:35-40`) checks only project, amount
  and due date. Its schema (`models/Finance.ts:19,27`) also requires a
  client and an issue date, whose absence ends in a 500.
- Each checklist tile of the new-project dialog calls `handleTaskToggle`
  twice on a click on its checkbox: once from the checkbox's
  `onCheckedChange` (`components/projects/create-project-dialog.tsx:283`)
  and once from the tile's `onClick` (line 279), which the click bubbles
  to. The set of selected tasks comes out as it was; an unticked task stays
  unticked and the list is unchanged (`ProjectDialog.CheckboxClick`).

## Model

| member | source | states |
|---|---|---|
| Common.StartsWithAnyIff | middleware.ts:12 | `some(path => pathname.startsWith(path))` holds iff some listed prefix is a prefix of the pathname |
| Middleware.Decide | middleware.ts:4-25 | a redirect goes only to `/dashboard` or `/login`; `/dashboard` only with a non-empty token, `/login` only without one |
| Middleware.Gate | middleware.ts:27-37 | a path the matcher skips always passes; any redirect is the middleware's decision on a path the matcher did not skip |
| Middleware.PublicPathIff | middleware.ts:9-12 | a path is public iff it starts with `/login`, `/api/auth/login`, `/api/auth/register` or `/api/seed` |
| Middleware.LoginLookalikesArePublic | middleware.ts:12 | every path beginning `/login`, such as `/login-x`, is public: the test ignores segment boundaries |
| Middleware.PublicSecondChar | middleware.ts:9 | every public path begins `/l` or `/a` |
| Middleware.PublicNotSkipped | middleware.ts:35 | the route matcher never skips a public path |
| Middleware.PublicPathDecision | middleware.ts:15-17 | a public path with a non-empty token is redirected to `/dashboard`; without one it passes |
| Middleware.ProtectedPathDecision | middleware.ts:20-24 | a protected path without a token that is neither static nor skipped goes to `/login`; with any non-empty token, or when static or skipped, it passes |
| Middleware.TokenNeverVerified | middleware.ts:5 | any two non-empty tokens get the same decision on every path |
| Middleware.RedirectTargets | middleware.ts:16-21 | `/dashboard` is protected and not static; `/login` is public; the matcher skips neither |
| Middleware.NoRedirectLoop | middleware.ts:15-22 | following a redirect with the same cookie passes at once |
| Middleware.MatcherSkipsPassingPaths | middleware.ts:35 | the `_next/static`, `_next/image` and `favicon.ico` paths the matcher skips would pass the middleware anyway |
| Middleware.FaviconLookalikeUnprotected | middleware.ts:35 | `/favicon-ico` is skipped by the matcher and reaches the page without a session, though the middleware alone would send it to `/login` |
| Clock.YearAndDay | app/api/attendance/route.ts:40 | the day within the year is between 0 and the year's length, and the year's first day plus that day is the day counted from the starting year |
| Clock.TimeString | app/api/attendance/route.ts:40 | the time part of `toISOString()` is exactly 13 characters `HH:mm:ss.sssZ`, separators in place |
| Clock.IsoString | app/api/attendance/route.ts:40 | `toISOString()` is the date, a `T` the date never contains, and the 13-character time ending in `Z` |
| Clock.DayKey | app/api/attendance/route.ts:40 | the day key is a string of digits and date separators |
| Clock.MonthsMakeYear | app/api/attendance/route.ts:40 | the month lengths add up to the year length, 365 or 366 |
| Clock.MonthAndDay | app/api/attendance/route.ts:40 | a day of the year falls in a month from 1 to 12, with a day of month between 1 and that month's length |
| Clock.CivilFromDays | app/api/attendance/route.ts:40 | every day number has a month from 1 to 12 and a day within that month's length |
| Clock.EpochIsNewYear1970 | app/api/attendance/route.ts:40 | day 0 is 1 January 1970 |
| Clock.FirstLeapDay | app/api/attendance/route.ts:40 | day 789 is 29 February 1972 |
| Clock.EpochKey | app/api/attendance/route.ts:40 | the instant 0 has the key `1970-01-01` |
| Clock.BeforeFirst | app/api/attendance/route.ts:40 | `split(c)[0]` is a prefix of the string |
| Clock.DayKeyIsIsoPrefix | app/api/attendance/route.ts:40 | the text before the first `T` of `toISOString()` is exactly the UTC date `YYYY-MM-DD` |
| Clock.SameUtcDaySameKey | app/api/attendance/route.ts:40 | two instants of the same UTC day have the same day key |
| Clock.KeyOfMidnight | app/api/attendance/route.ts:40 | every instant of a UTC day has the key of that day's midnight |
| AttendanceModel.OnePerDayAtMostOne | models/Attendance.ts:31 | under the unique (user, date) index a user and a day identify at most one record |
| AttendanceApi.CheckInRecord | app/api/attendance/route.ts:52-57 | the new record carries the user, today's key and the check-in instant; it has no check-out and the status is `present` |
| AttendanceApi.CheckIn | app/api/attendance/route.ts:42-59 | an existing record for the user today gives 400 "Already checked in today" and no change; otherwise exactly one record is appended; the one-record-per-day invariant is kept |
| AttendanceApi.CheckOut | app/api/attendance/route.ts:60-73 | no record today gives 404 "No check-in record found for today"; otherwise only that record's check-out is set to now; the invariant is kept |
| AttendanceApi.Post | app/api/attendance/route.ts:26-84 | an unknown action gives 400 "Invalid action"; the target user is the given id or the first stored user; with neither, check-in gives 500 "Failed to process attendance" and check-out 404 "No check-in record found for today"; check-in and check-out act on today's key as above; a failure changes nothing |
| AttendanceApi.OfDay | app/api/attendance/route.ts:12 | each record of the given day appears as many times as it is stored, and no other record appears |
| AttendanceApi.List | app/api/attendance/route.ts:6-16 | GET lists each stored record of the requested day (today's key when none is given) as many times as it is stored and no other record, sorted by check-in time |
| AttendanceApi.ListIsDayByCheckIn | app/api/attendance/route.ts:6-16 | GET returns each record of the requested day (today when none is given) exactly once, sorted by check-in time |
| AttendanceApi.WorkingDay | app/api/attendance/route.ts:42-73 | a check-in then a check-out on one UTC day leaves one new record with both instants |
| Store.FirstMatchExtend | app/api/seed/route.ts:38 | appending documents does not change which document `findOne` returns for a filter that already matched |
| Store.FirstMatchAppend | app/api/seed/route.ts:42-43 | a document appended when nothing matched is what `findOne` then returns |
| Store.FirstMatch | app/api/users/route.ts:30 | `findOne(filter)` finds the first document matching the filter, or none iff no document matches |
| Store.Collection.Find | app/api/users/route.ts:30 | the method returns exactly the first matching position and changes nothing |
| Store.Collection.FindId | app/api/users/profile/route.ts:15 | `findById` finds the document with that id, or none iff no document has it |
| Store.Collection.Create | app/api/users/route.ts:40-46 | `create` appends exactly one document with a fresh id and the given data |
| Store.Collection.FindOrCreate | app/api/clients/quick/route.ts:11-22 | a matching document is returned and nothing changes; otherwise one new document is appended |
| Store.Collection.Save | app/api/users/profile/route.ts:32 | `save` replaces the data of one document and keeps its id, its creation time and every other document |
| Store.Collection.FirstId | app/api/attendance/route.ts:36 | `User.findOne()` with no filter finds the first stored user, if any |
| Store.NewestFirst | app/api/clients/route.ts:8 | the listing holds every document once, newest first; the numbered-invoice and finance-invoice listings sort the same way |
| UserModel.RoleNamesRoundTrip | models/User.ts:19-23 | the role enum's names and the roles correspond one to one |
| UserModel.Public | app/api/users/route.ts:48-50 | the public view keeps every field of the user except the password |
| UserModel.PublicForgetsOnlyPassword | app/api/users/route.ts:48-50 | two users with the same public view differ at most in their passwords |
| UserModel.EmailIdentifiesUser | models/User.ts:17 | under the unique email index an email identifies one stored user |
| Login.Failure | app/api/auth/login/route.ts:59-65 | the 500 reply names the step reached and the exception's message |
| Login.SessionCookie | app/api/auth/login/route.ts:51-56 | the cookie is `token`, http-only, path `/`, one week long, and secure exactly in production |
| Login.Login | app/api/auth/login/route.ts:6-66 | success is 200 with the given email and a well-formed session cookie; failures are 400, 401 or 500; a 500 reports the failed step or the missing password hash |
| Login.MissingCredentials | app/api/auth/login/route.ts:15-17 | an empty email or password gives 400 "Missing credentials" whatever is stored |
| Login.UnknownEmail | app/api/auth/login/route.ts:19-24 | an email no user has gives 401 "User not found" |
| Login.WrongPassword | app/api/auth/login/route.ts:26-31 | a password that does not match the stored hash gives 401 "Invalid password" |
| Login.Success | app/api/auth/login/route.ts:33-58 | a matching password gives 200 with the user's id, name, email and role, and a cookie whose token is signed over its id, role and name |
| Login.FoundByEmail | app/api/auth/login/route.ts:20 | with unique emails the lookup finds the user stored under that email |
| Login.LoginOpensTheGate | app/api/auth/login/route.ts:51-56 | after a login the token lets the holder through to every protected page, and from public pages to the dashboard |
| UsersApi.NewUser | app/api/users/route.ts:38-46 | creation succeeds iff a password, a name and an email are given and the role is empty or in the enum; the password is hashed, the role defaults to `employee`, and there are no permissions |
| UsersApi.Post | app/api/users/route.ts:23-60 | a taken email gives 400 "User already exists" and no change; a refused document gives 500; otherwise one user is appended and returned without its password; emails stay unique |
| UsersApi.List | app/api/users/route.ts:12 | one public view per user, newest first |
| UsersApi.ListHasEveryUser | app/api/users/route.ts:12 | the listing shows every stored user and nothing else |
| UsersApi.RegisteredUserCanLogIn | app/api/users/route.ts:38-46 | a user registered through POST can log in with the password it was registered with |
| ProfileApi.Patched | app/api/users/profile/route.ts:24-30 | name and email change only when given; the password is re-hashed only when given; role, avatar and permissions are kept |
| ProfileApi.CheckTaken | app/api/users/profile/route.ts:32 | the result is true iff another user holds the email |
| ProfileApi.Put | app/api/users/profile/route.ts:6-45 | an unknown id gives 404; for a stored user, the reply is 200 exactly when no other user holds the patched email, and 500 with no change exactly when one does; on success only that user is replaced by its patched version, returned without password |
| ProfileApi.EmptyPatchKeepsUser | app/api/users/profile/route.ts:24-30 | a body with no name, email or password leaves the user as it was |
| ProfileApi.PatchIdempotent | app/api/users/profile/route.ts:24-30 | applying the same update twice equals applying it once |
| ClientsApi.Post | app/api/clients/route.ts:19-41 | a missing name or phone gives 400 and no change; otherwise the body is appended as one new client and returned with 201 |
| QuickClientApi.QuickClient | app/api/clients/quick/route.ts:14-21 | the new client has the name, the phone or `0000000000`, empty contact fields and the note "Created via Quick Add"; it is valid iff the name is non-empty |
| QuickClientApi.QuickAdd | app/api/clients/quick/route.ts:5-32 | an existing client of that name is returned unchanged; otherwise one client is created, or 500 when the name is empty |
| QuickClientApi.QuickAddTwice | app/api/clients/quick/route.ts:11-22 | two quick adds under one name create at most one client, and the second returns what the first did |
| Seed.AdminUser | app/api/seed/route.ts:18-27 | the administrator has the admin email and role, the hashed `password123` and the permission `all` |
| Seed.SeedProjects | app/api/seed/route.ts:49-53 | three projects with the seed titles, each tied to the client of the same position, with the admin as its team |
| Seed.FindOrCreateAll | app/api/seed/route.ts:36-46 | every item's key is then present; nothing stored is changed or removed; new documents are items whose key was missing, no two with the same key, so each missing item is created exactly once; nothing is added when all were present; the returned id of each item, in item order, is that of the first stored document with the item's key, the one `findOne` returns |
| Seed.FindOrCreateStep | app/api/seed/route.ts:37-45 | one find-or-create keeps the loop's invariant: at most one document is added, only for a missing item, and with a key no earlier document has |
| Seed.FirstsKept | app/api/seed/route.ts:37-45 | after one more find-or-create every document collected so far is still the first with its key, and the one just returned is the first with the current item's key |
| Seed.FoundHaveIds | app/api/seed/route.ts:37-45 | the documents the loop collected are the first stored under the items' keys, so every key is present and each collected id is that of the first document with its item's key |
| Seed.SeedAdmin | app/api/seed/route.ts:14-27 | the administrator is found by email, or appended exactly once when missing |
| Seed.SeedClientsOnce | app/api/seed/route.ts:29-46 | all three seed clients are present afterwards, found by email; only missing ones are added, each once, so at most three documents are added; each returned id is that of the first client with the seed email, as `findOne` finds it |
| Seed.SeedClientsValid | app/api/seed/route.ts:30-34 | every seed client has a name and a phone, so the clients collection stays valid |
| Seed.SeedProjectsOnce | app/api/seed/route.ts:48-63 | every seed title is present afterwards; nothing stored changes; each added project is the seed project of that title (client, status, budget, dates and team), added only when its title was missing and at most once, so at most three are added; nothing is added when all were present; each returned id is that of the first project with the seed title |
| Seed.SeedProjectsPresent | app/api/seed/route.ts:48-57 | the seed projects are all present exactly when every seed title is |
| Seed.SeedLedgers | app/api/seed/route.ts:65-79 | a collection with documents is untouched; an empty tasks collection receives exactly the two seed tasks for the given projects and the admin; an empty transactions collection receives exactly the seed income and expense |
| Seed.StepsCreate | app/api/seed/route.ts:48-79 | ids exist that are the administrator's and those of the first client with each seed email and the first project with each seed title (so exactly the ids the program uses), for which the added projects are the seed projects, each title added at most once, and an empty tasks or transactions collection received exactly the seed documents |
| Seed.StepsLeaveSeeded | app/api/seed/route.ts:10-79 | after the five steps the administrator, every seed client and project, and some tasks and transactions are stored |
| Seed.StepsKeepSeeded | app/api/seed/route.ts:10-79 | a store that was already seeded comes out of the five steps unchanged |
| Seed.StepsSeed | app/api/seed/route.ts:10-90 | steps 1 to 5 together: the documents created are the seed documents for the ids `findOne` found (the first client and project with each seed key), no seed client or project twice, the store is seeded afterwards, and an already seeded store is left unchanged |
| Seed.SeedDirectory | app/api/seed/route.ts:14-63 | steps 1 to 3 in order; the returned ids are the administrator's, that of the first client with each seed email and that of the first project with each seed title; the clients added are missing seed clients and the projects added are the seed projects for those client ids, none added twice |
| Seed.Run | app/api/seed/route.ts:10-90 | the store is seeded afterwards; each missing seed client is added exactly once; the added projects are the seed projects for the first client with each seed email, each missing one added exactly once, and an empty tasks or transactions collection receives exactly the seed documents for the first project with each seed title; a seeded store is unchanged; the reported counts are 1 user, 3 clients, 3 projects and the stored tasks and transactions |
| Seed.RunTwice | app/api/seed/route.ts:10-90 | a second run reports the same counts as the first |
| Decimal.NatToStringRoundTrip | components/finance/invoice-dialog.tsx:53 | the decimal text of a natural number reads back as that number |
| Decimal.NatToStringInjective | app/api/invoices/route.ts:31 | distinct numbers have distinct decimal texts |
| Decimal.PadStart | app/api/invoices/route.ts:31 | `padStart` reaches the width and keeps the text as its suffix |
| Decimal.ZeroPadValue | app/api/invoices/route.ts:31 | left zero padding keeps the value of a digit string |
| Decimal.DigitCount | app/api/invoices/route.ts:31 | a number of at least 10^k has more than k digits |
| Decimal.ParseNumber | components/finance/invoice-dialog.tsx:78 | `Number("")` is 0, so an empty amount field is sent as 0; a digit string is its decimal value, leading zeros included; a `-` or `+` before the digits negates or keeps it; every other text is not a number (None) |
| Decimal.NumberOfToString | components/finance/invoice-dialog.tsx:53 | `Number(total.toString())` is the total |
| InvoicesApi.Serial | app/api/invoices/route.ts:31 | the serial is at least four digits |
| InvoicesApi.SerialValue | app/api/invoices/route.ts:31 | the serial's value is the stored count plus one |
| InvoicesApi.SerialNeverTruncated | app/api/invoices/route.ts:31 | padding never cuts digits: the serial is the count plus one padded to four, or longer |
| InvoicesApi.InvoiceNumber | app/api/invoices/route.ts:31 | the number is `INV-`, the year, `-` and the serial |
| InvoicesApi.InvoiceNumberInjective | app/api/invoices/route.ts:31 | within one year, different counts give different numbers |
| InvoicesApi.EleventhInvoice | app/api/invoices/route.ts:31 | with ten invoices stored in 2025 the next number is `INV-2025-0011` |
| InvoicesApi.ChosenNumber | app/api/invoices/route.ts:29-32 | a given number is kept; otherwise the number is generated from the year and the stored count |
| InvoicesApi.Build | models/Invoice.ts:17-39 | the schema accepts the invoice iff it has a number, client, total, due date, creator, a status in the enum or none, and described items; the status defaults to draft and the issue date to now |
| InvoicesApi.Post | app/api/invoices/route.ts:23-51 | a refused document or a taken number gives 500 and no change; otherwise one invoice is appended with the chosen number and the first user as creator; numbers stay unique |
| InvoicesApi.GeneratedNumberCanClash | app/api/invoices/route.ts:29-31 | a generated number can already be taken by an invoice filed by hand |
| FinanceApi.Aggregate | app/api/finance/route.ts:18-26 | the pipeline yields no group iff no transaction has that type, otherwise one |
| FinanceApi.SumOfNone | app/api/finance/route.ts:18-21 | with no transaction of a type the sum is 0 |
| FinanceApi.TotalIsSum | app/api/finance/route.ts:28-29 | `result[0]?.total \|\| 0` is the sum of the amounts of that type |
| FinanceApi.SumAppend | app/api/finance/route.ts:18-26 | the sum over two parts is the sum of the parts' sums |
| FinanceApi.Recent | app/api/finance/route.ts:11-15 | at most ten stored transactions, without repeats, latest date first |
| FinanceApi.RecentAreLatest | app/api/finance/route.ts:11-13 | no transaction left out is later than one that was listed |
| FinanceApi.Get | app/api/finance/route.ts:6-58 | income and expenses are the sums by type; net profit is their difference; the list is the recent transactions; the chart is the fixed six months |
| FinanceApi.NetProfitOfNewTransaction | app/api/finance/route.ts:28-30 | a new income raises the net profit by its amount, and a new expense lowers it by its amount |
| FinanceApi.Build | models/Transaction.ts:16-28 | the schema accepts the transaction iff its type is income or expense and it has an amount, a category and a creator; the date defaults to now |
| FinanceApi.Post | app/api/finance/route.ts:60-95 | a refused transaction gives 500 and no change; otherwise it is appended with the first user as creator and returned with 201 |
| FinanceInvoicesApi.Build | models/Finance.ts:16-37 | the schema accepts the invoice iff it has a client and an issue date, a status in the enum or none, and described items; the status defaults to pending |
| FinanceInvoicesApi.Post | app/api/finance/invoices/route.ts:30-52 | a missing project, amount or due date gives 400; a refused invoice gives 500; otherwise one invoice is appended and returned with 201 |
| FinanceInvoicesApi.AmountCheck | app/api/finance/invoices/route.ts:36 | the amount check refuses exactly a missing or zero amount; negative amounts get through |
| FinanceInvoicesApi.CreatedInvoiceIsComplete | models/Finance.ts:16-37 | every invoice POST stores has a project, a client, a non-zero amount and both dates |
| ExpensesApi.Build | models/Finance.ts:49-63 | the schema accepts the expense iff the category is in the enum or absent, which defaults to `other` |
| ExpensesApi.Post | app/api/finance/expenses/route.ts:19-40 | a missing title, amount or date gives 400; an unknown category gives 500; otherwise one expense is appended and returned with 201 |
| ExpensesApi.ZeroAmountRefused | app/api/finance/expenses/route.ts:24 | an amount of 0 counts as missing |
| ExpensesApi.List | app/api/finance/expenses/route.ts:8 | every expense once, latest date first |
| DashboardApi.CountStatusNot | app/api/dashboard/route.ts:15 | the count is the number of positions whose task status is not called the given name |
| DashboardApi.NoStatusIsCompleted | models/Task.ts:22 | no task status is named `Completed` |
| DashboardApi.CountOfUnusedName | app/api/dashboard/route.ts:15 | counting tasks whose status is not a name no status has counts every task |
| DashboardApi.Get | app/api/dashboard/route.ts:8-37 | the project and client counts are the collection sizes; revenue is the finance page's income; pending tasks are all tasks |
| InvoiceDialog.TotalAppend | components/finance/invoice-dialog.tsx:52 | the running total over two parts is the sum of the parts' totals |
| InvoiceDialog.Edited | components/finance/invoice-dialog.tsx:48 | an edit changes exactly the named field of the item |
| InvoiceDialog.ReplaceAt | components/finance/invoice-dialog.tsx:47-48 | the edited item replaces the one at the index, and the others are kept |
| InvoiceDialog.RemoveAt | components/finance/invoice-dialog.tsx:64 | the filter drops exactly the item at the index and keeps the order of the rest; an index past the end removes nothing |
| InvoiceDialog.TotalOfRemoved | components/finance/invoice-dialog.tsx:63-66 | removing an item lowers the true total by that item's quantity times price |
| InvoiceDialog.TotalAroundLine | components/finance/invoice-dialog.tsx:52 | the total splits around any one item |
| InvoiceDialog.TotalSingle | components/finance/invoice-dialog.tsx:52 | a single item's total is its quantity times price |
| InvoiceDialog.FindProject | components/finance/invoice-dialog.tsx:37 | `find` gives the first project with the id, or none iff no project has it |
| InvoiceDialog.ClientOf | components/finance/invoice-dialog.tsx:41 | the client id of the chosen project, or "" when the project or its client is missing |
| InvoiceDialog.InvoiceForm.constructor | components/finance/invoice-dialog.tsx:20-28 | the blank form: today's issue date, status pending, one blank item, and an amount that agrees with the total |
| InvoiceDialog.InvoiceForm.Reset | components/finance/invoice-dialog.tsx:89-97 | after a save the form is blank again |
| InvoiceDialog.InvoiceForm.ChangeProject | components/finance/invoice-dialog.tsx:36-44 | the project and its client are set; the amount, items, status and dates are kept |
| InvoiceDialog.InvoiceForm.ChangeItem | components/finance/invoice-dialog.tsx:46-54 | the item is edited and the amount becomes the text of the new total, so it agrees with the items |
| InvoiceDialog.InvoiceForm.AddItem | components/finance/invoice-dialog.tsx:56-61 | a blank item is appended; the total and the amount are unchanged, so agreement is kept |
| InvoiceDialog.InvoiceForm.RemoveItem | components/finance/invoice-dialog.tsx:63-66 | the item is removed and the amount is not recomputed: it still agrees with the items iff the removed line totalled 0 |
| InvoiceDialog.InvoiceForm.Payload | components/finance/invoice-dialog.tsx:75-83 | the posted body carries the project, client, items and dates, and `Number(amount)` |
| InvoiceDialog.ZeroTotalRefused | components/finance/invoice-dialog.tsx:78 | a form whose amount agrees with a zero total is refused by the endpoint's required-field check |
| InvoiceDialog.FreshTotalIsZero | components/finance/invoice-dialog.tsx:20-28 | the fresh form's total is 0, so submitting it unchanged is refused |
| ProjectDialog.Without | components/projects/create-project-dialog.tsx:82 | the filter removes every occurrence of the task and keeps every other occurrence |
| ProjectDialog.Toggled | components/projects/create-project-dialog.tsx:79-87 | the task's membership flips; other tasks' membership is kept; an absent task is appended at the end; a present one is removed everywhere |
| ProjectDialog.WithoutAbsent | components/projects/create-project-dialog.tsx:82 | filtering out an absent task changes nothing |
| ProjectDialog.WithoutAppend | components/projects/create-project-dialog.tsx:82-84 | filtering out a task that was just appended undoes the append |
| ProjectDialog.ToggleTwice | components/projects/create-project-dialog.tsx:79-87 | ticking and unticking a task restores the selection |
| ProjectDialog.WithoutNoDuplicates | components/projects/create-project-dialog.tsx:82 | filtering keeps a duplicate-free selection free of duplicates |
| ProjectDialog.ToggleKeepsNoDuplicates | components/projects/create-project-dialog.tsx:79-87 | toggles keep a selection free of duplicates |
| ProjectDialog.CheckboxClick | components/projects/create-project-dialog.tsx:271-285 | the two toggles of one checkbox click leave the set of selected tasks as it was, and an unticked task's list exactly as it was |
| ProjectDialog.ToggleStaysStandard | components/projects/create-project-dialog.tsx:271-285 | toggling one of the offered tasks keeps the selection within the offered tasks |
| ProjectDialog.SelectionBound | components/projects/create-project-dialog.tsx:14-38 | a duplicate-free selection of offered tasks has at most as many entries as the checklist offers |
| ProjectDialog.ProjectForm.constructor | components/projects/create-project-dialog.tsx:45-60 | a closed dialog on step 1 with an empty form, status `new` and no tasks |
| ProjectDialog.ProjectForm.Payload | components/projects/create-project-dialog.tsx:103-113 | the posted body: the selected tasks, `Number(budget)`, and the quick-added client's id |
| ProjectDialog.ProjectForm.ToggleTask | components/projects/create-project-dialog.tsx:79-87 | only the selection changes, by a toggle; the step, the open flag and every text field, the client name included, are kept |
| ProjectDialog.ProjectForm.Next | components/projects/create-project-dialog.tsx:303 | Next moves to step 2; the open flag, every text field (the client name included) and the selection are kept |
| ProjectDialog.ProjectForm.Previous | components/projects/create-project-dialog.tsx:310 | Previous moves to step 1; the open flag, every text field (the client name included) and the selection are kept |
| ProjectDialog.ProjectForm.Submit | components/projects/create-project-dialog.tsx:89-137 | the form's payload is posted; an accepted project closes the dialog on step 1 with a cleared form; after a refused one the step, the open flag, every text field and the selection are as before |
| ProjectDialog.EmptyBudgetIsZero | components/projects/create-project-dialog.tsx:107 | an empty budget field is sent as 0 |
| Navigation.ActiveFlags | components/layout/Sidebar.tsx:28-30 | each entry's flag is exact match for the root entry and prefix match for the others |
| Navigation.AtMostOneActive | components/layout/Sidebar.tsx:28-30 | in a menu where only the root's href is a prefix of other hrefs, at most one entry is active on any path |
| Sidebar.Active | components/layout/Sidebar.tsx:26-30 | `/dashboard` is active iff the path is exactly `/dashboard`; each other entry iff the path starts with its href |
| Sidebar.MenuPrefixFree | components/layout/Sidebar.tsx:8-15 | apart from `/dashboard`, no href of the six entries is a prefix of another |
| Sidebar.AtMostOneActive | components/layout/Sidebar.tsx:8-30 | on any path at most one sidebar entry is highlighted |
| Sidebar.SectionPageActivatesSection | components/layout/Sidebar.tsx:28-30 | every page under a section highlights that section and not the dashboard entry |
| Sidebar.HrLookalike | components/layout/Sidebar.tsx:30 | `/dashboard/hrx` highlights the HR entry alone |
| MobileSidebar.Render | components/layout/MobileSidebar.tsx:27-44 | nothing is rendered iff the drawer is closed; when open, `/` is active iff the path is `/` and the others by prefix |
| MobileSidebar.MenuPrefixFree | components/layout/MobileSidebar.tsx:9-17 | apart from `/`, no href of the seven entries is a prefix of another |
| MobileSidebar.AtMostOneActive | components/layout/MobileSidebar.tsx:42-44 | on any path the open drawer highlights at most one entry |
| MobileSidebar.RootOnlyOnRoot | components/layout/MobileSidebar.tsx:42-43 | the root entry is highlighted on no other path, although every path starts with `/` |
| MobileSidebar.TasksPageActivatesOnlyTasks | components/layout/MobileSidebar.tsx:12 | every page under `/tasks` highlights the tasks entry alone |

## Left out

- Amounts and budgets are JavaScript floating-point numbers. The model uses
  unbounded integers, so rounding, `NaN` arithmetic and fractional prices are
  not covered.
- `Number()` is modelled on integer text only (`Decimal.ParseNumber`). An
  optional leading `-` or `+` is read. Decimal points, exponents,
  surrounding whitespace, hexadecimal text and `Infinity` are treated as not
  a number, where JavaScript gives a fraction or an infinite number.
- Request bodies are typed: each field is a string, a number or a missing
  value. The handlers destructure arbitrary JSON. A field holding an object
  is not represented. For example, `{"email": {"$ne": null}}` turns
  `findOne({ email })` into a query operator that matches the first user
  with any email. This happens in `app/api/auth/login/route.ts:20`,
  `app/api/users/route.ts:30` and `app/api/clients/quick/route.ts:11`.
- Concurrency is not modelled. The race between two simultaneous check-ins,
  or two registrations under one email, is resolved by the database's unique
  index. The model is sequential, and the unique index appears as an
  invariant of the collection.
- Clock.DayKey: it is not proved that different UTC days give different
  keys. This needs the calendar conversion to be injective.
- Years outside the range of JavaScript `Date` are not excluded. For them,
  `toISOString()` throws, where the model still yields a text.
- `ObjectId` and `Date` casts are not modelled. A malformed id or date in a
  body is represented by a missing value (None or ""). Attendance dates are
  stored and queried as their `YYYY-MM-DD` key. Mongoose would cast the key
  to the `Date` at UTC midnight, which identifies the same day. A failed
  cast throws, and the handler's `catch` replies 500. The model replies
  differently in these cases:
  - ProfileApi.Put: a malformed `userId` gets 404 in the model. The source
    replies 500 "Failed to update profile".
  - AttendanceApi.List: a malformed `?date=` gets an empty list in the
    model. The source replies 500.
  - ExpensesApi.Post: a malformed expense date gets 400 in the model. The
    source replies 500 "Failed to create expense".
  - FinanceApi.Post: a malformed `date`, `project` or `client` is a
    missing value in the model, which stores `now` or no reference and
    replies 201. The source's cast fails and it replies 500 "Failed to
    create transaction".
  - InvoicesApi.Post: a malformed `issueDate` or `project` gets 201 with
    `now` or no project in the model. The source replies 500.
  - FinanceInvoicesApi.Post: a malformed `project` or `dueDate`, or an
    `amount` string that is not a number, gets 400 "Missing required
    fields" in the model. In the source these values pass the truthiness
    check, the cast fails, and it replies 500 "Failed to create invoice".
  - AttendanceApi.List: a full ISO instant such as
    `?date=2025-01-05T00:00:00.000Z` is cast by Mongoose to the same `Date`
    as the stored day, so the source lists that day's records. The model
    compares the text with the stored key and lists none.
- ExpensesApi.Build, InvoicesApi.Build and FinanceInvoicesApi.Build: a
  missing string field and an explicit `""` are the same value in the
  model. For the enum fields with a default (the expense category, the
  numbered invoice's status, the finance invoice's status) the model applies
  the default to both and replies 201. Mongoose applies the default only to
  a missing field; an explicit `""` fails the enum validator, and the
  handler replies 500.
- InvoicesApi.Build and FinanceInvoicesApi.Build: the numbers of an invoice
  line (quantity, unit price or price, total) are always present in the
  model. The schemas require them, so a line missing one of them is refused
  with 500 in the source. That case cannot be expressed in the model, so
  "described items" in these rows covers only the line's description.
- AttendanceApi.Post and AttendanceApi.List: `app/api/attendance/route.ts:3`
  imports `Attendance` as a default export, but `models/Attendance.ts:33`
  exports it only by name. The model assumes the import resolves to that
  model. As written, the import fails the type check, and without type
  checking it is `undefined`, so every GET and POST would end in the
  handler's `catch` with 500 "Failed to fetch attendance" or "Failed to
  process attendance".
- `updatedAt` timestamps are not kept.
- `lib/auth.ts` and `lib/jwt.ts` are not part of this model.
  - Hashing, comparison and signing are parameters.
  - Those files give conflicting token lifetimes (7 days and 1 day). The
    model never reads the lifetime; only the cookie's one-week `maxAge` is
    modelled.
- `lib/db.ts` (the shared connection promise) is not part of this model. A
  failed connection is a `fault` of the login handler only. The other
  handlers' `catch` blocks are modelled only where a schema refusal or the
  unique index reaches them.
- `hooks/usePolling.ts`, `app/api/debug/route.ts` and the rendering-only
  pages and components are not part of this model.
- `populate` is left out: listings return the stored references, not the
  joined documents.
- `app/api/projects/route.ts` and `app/api/tasks/route.ts` are not part of
  this model. They insert and list with no further logic. Their documents
  appear only as seed data and dashboard counts.
- Both `models/Invoice.ts` and `models/Finance.ts` register a Mongoose model
  named `Invoice`. Whichever module loads first wins the registry, and the
  other file then silently uses the first schema. The model keeps the two
  schemas separate, each with the endpoint that imports it.
- A filter on a missing body field (`{ email: undefined }`) is taken to match
  no document. Mongoose's handling of `undefined` in filters depends on its
  `strictQuery` setting.
- Store.NewestFirst, ExpensesApi.List and FinanceApi.Recent: the order among
  documents with equal sort keys is not stated, since the database does not
  guarantee it.
- The 500 reply of the login handler also carries the exception's `stack`.
  It is left out.
- Seed.Run: every `new Date()` and `Date.now()` of one seed run is taken as
  the same instant `now`.
- InvoiceDialog.InvoiceForm.constructor and InvoiceDialog.InvoiceForm.Reset
  take the day key of the browser's clock as a string, not the instant
  (`Clock.DayKey` of it).
- The project list the invoice dialog fetches when opened is a parameter of
  `ChangeProject`. The quick-add client id of the project dialog is a
  parameter of `Submit`. Whether the project endpoint accepted the body is
  also a parameter of `Submit`.
- `getFullYear()` is the local year of the server. It enters
  `InvoicesApi.Post` as the parameter `year`.
- The new-project dialog's user list (fetched for the manager field) and its
  `submitting` flag only drive rendering. They are left out.
