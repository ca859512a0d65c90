# Job board: routes, schema, client gate and CRUD pages

This project models the core of a small job board. A Flask backend keeps five
tables: users, employers, jobs, applications and profiles. A React client signs
users in, gates its navigation by role, and offers one CRUD page per resource.
The model covers four parts:

- **The backend.**
  - The SQLAlchemy schema is the `Models` and `Store` modules. Rows are held in maps keyed by id. The NOT NULL and UNIQUE constraints are checked at commit, and deletes follow the cascades the schema declares along its foreign keys.
  - The request handlers of `/auth`, `/jobs`, `/employers`, `/profiles` and `/applications` are one module each. Each handler's chain of guards is a pure function to a `Result`. The handler itself is a method on the `Database` object.
  - The partial-update loops are `while` loops. Each is proved equal to a recursive specification of "every present field set, every other field kept, or the first refusal".
- **The client's authorization gate** (`AppShell`) and its **session** (`Session`, `LoginPage`):
  - the navigation bar and the enabled routes as functions of `(authed, role)`;
  - the logout button;
  - the login handler, which is the only writer of the session.
- **The CRUD pages** (`PageState` plus one module per page):
  - the banners, forms and listing each handler leaves behind;
  - the sparse update payloads each page builds;
  - the grouping of applications into the pipeline board.
- **Client meets server** (`ClientServer`): what a route does with the payload a page builds. A field left blank in an update form is never sent, so the server keeps that column. A typed integer arrives as that integer. The lemmas also state what a route answers when a number field carries a string that is not a numeral: `Number()` turns it into `null` and the route refuses it. The pages' `type="number"` inputs never hand such a string to `Number()`, so those lemmas describe requests the pages themselves do not send (see "## Left out").

JSON scalars are `JsonValue`. Python's `int()` and `float()` and JavaScript's `Number()` are modelled on decimal numerals (`Numerals`). Numbers are exact reals.

Two behaviours of the code are worth noting:

- **Login and the session.** The login handler writes the token and the role independently, each only when it is truthy, and redirects after any successful reply (`frontend/src/pages/Login.jsx:14-21`). So a role can be stored without a token. `LoginPage.RoleWithoutTokenStaysSignedOut` shows that the shell then stays signed out.
- **A null application status.** `create_application` passes `data.get("status", "pending")` to the model, so a `null` status reaches the ORM as None. The ORM leaves a None attribute out of the INSERT, and the column default applies. So a null status is stored as `"pending"`, just like an absent one (`Models.InsertedStatus`).

## Model

| member | source | states |
|---|---|---|
| Models.HashMatchesOnlyItsPassword | app/routes/auth.py:37-43 | a stored password hash checks against the password it was made from and against no other |
| Models.InsertedStatus | app/models.py:68 | an inserted application's status is never null: a given status is kept, and a null one becomes the column default "pending" |
| Models.ConstraintsMeanUnique | app/models.py:10-11 | in tables that satisfy the schema's constraints, no two users share a username or an email, and no two employers share a name or an email (employer columns at app/models.py:24-25) |
| Models.Cascade | app/models.py:20-97 | deleting users, employers and jobs together with everything that references them only removes rows, never changes one, and keeps every foreign key pointing at an existing row |
| Models.WithoutUser | app/models.py:20-34 | deleting a user removes exactly that user, the user's employer rows and profiles, the jobs of those employers, and every application by the user or on such a job; referential integrity is preserved |
| Models.WithoutEmployer | app/models.py:53-58 | deleting an employer removes exactly it, its jobs and the applications on them; users and profiles are untouched; referential integrity is preserved |
| Models.WithoutJob | app/models.py:75-79 | deleting a job removes exactly it and the applications on it; the other tables are untouched; referential integrity is preserved |
| Models.WithoutApplication | app/models.py:63-79 | deleting an application removes that row alone, and integrity is preserved |
| Models.WithoutProfile | app/models.py:86-97 | deleting a profile removes that row alone, and integrity is preserved |
| Models.ShrinkingKeepsConstraints | app/models.py:7-97 | removing rows never breaks a NOT NULL or UNIQUE constraint that held before |
| Models.UserCascadeReachesApplications | app/models.py:23 | the cascade is transitive: after a user is deleted, no job of the user's employers remains and no application on such a job remains (job and application keys at app/models.py:53, 67) |
| Store.ShrinkingKeepsIds | app/models.py:9 | deleting rows keeps every remaining id positive and below its table's next id |
| Store.Database.constructor | app/models.py:7-97 | an empty database satisfies every constraint |
| Store.Database.InsertUser | app/routes/auth.py:48-51 | the insert commits exactly when the new user clashes with no username or email; on commit the user is added under a fresh id; otherwise nothing changes; constraints hold after |
| Store.Database.InsertEmployer | app/routes/employers.py:36-46 | the insert commits exactly when the new employer clashes with no name or email; on commit it is added under a fresh id; otherwise nothing changes |
| Store.Database.UpdateEmployer | app/routes/employers.py:73-75 | the commit succeeds exactly when the reassigned row has no null column and no clash; on success only that row changes; otherwise nothing changes |
| Store.Database.InsertJob | app/routes/jobs.py:64-65 | the job is added under a fresh id, and nothing else changes |
| Store.Database.UpdateJob | app/routes/jobs.py:102 | only the job under the given id changes |
| Store.Database.InsertApplication | app/routes/applications.py:39-40 | the application is added under a fresh id, and nothing else changes |
| Store.Database.UpdateApplication | app/routes/applications.py:72 | only the application under the given id changes |
| Store.Database.InsertProfile | app/routes/profiles.py:50-51 | the profile is added under a fresh id, and nothing else changes |
| Store.Database.UpdateProfile | app/routes/profiles.py:82 | the commit succeeds exactly when full_name is not null; on success only that row changes |
| Store.Database.ShrinkingKeepsValid | app/models.py:30-34 | tables obtained from valid tables by deleting rows satisfy the constraints, and their ids stay below the counters |
| Store.Database.Replace | app/routes/jobs.py:111-112 | the committed tables of a delete become the database's state; the id counters are kept |
| Store.Database.DeleteUser | app/models.py:30-34 | the tables become WithoutUser of the old tables, and the database stays valid |
| Store.Database.DeleteEmployer | app/routes/employers.py:83-84 | the tables become WithoutEmployer of the old tables, and the database stays valid |
| Store.Database.DeleteJob | app/routes/jobs.py:111-112 | the tables become WithoutJob of the old tables, and the database stays valid |
| Store.Database.DeleteApplication | app/routes/applications.py:81-82 | the tables become WithoutApplication of the old tables |
| Store.Database.DeleteProfile | app/routes/profiles.py:91-92 | the tables become WithoutProfile of the old tables |
| AuthRoutes.CheckRegistration | app/routes/auth.py:13-31 | a missing or empty body gives 400 "Missing JSON body"; any falsy field gives "Missing fields"; success means an email with '@', a password of at least 8 characters and a role in {user, employer, admin}, each taken from the body; every other outcome is 400 or an unhandled 500 |
| AuthRoutes.RegistrationGuardOrder | app/routes/auth.py:26-31 | the string guards decide in the order email, password, role: the first failing one names the message, and all passing gives the registration |
| AuthRoutes.NewUser | app/routes/auth.py:37-43 | the new row keeps username, email and role, and stores a hash that checks against exactly the given password |
| AuthRoutes.Register | app/routes/auth.py:13-51 | a refused body changes nothing; a taken email gives 400 "Email already exists" and changes nothing; otherwise exactly one user is added under a fresh id with 201 "User created" (or 500 and no change on a username clash) |
| AuthRoutes.CheckLogin | app/routes/auth.py:55-67 | a missing body, a falsy email or password, or an email without '@' are refused in that order; success returns the email and the password as sent |
| AuthRoutes.Login | app/routes/auth.py:55-80 | an unknown email or a wrong password gives 401 "Invalid credentials"; the right password gives 200 with a token for that user's id, the id and the user's role; the users table is never changed |
| AuthRoutes.Logout | app/routes/auth.py:84-87 | always 200 "Logged out" |
| Numerals.IntegerIsDecimal | app/routes/jobs.py:7-18 | every string `int()` accepts, `float()` accepts with the same value |
| Numerals.UnsignedDecimalBounds | app/routes/jobs.py:14-18 | an unsigned decimal lies between its whole part and the next integer |
| Numerals.Trunc | app/routes/jobs.py:7-11 | `int()` of a number truncates toward zero: within one of the number and no farther from zero |
| Numerals.ParseIntField | app/routes/jobs.py:7-11 | `_parse_int` succeeds exactly when `int()` does, with its value, and otherwise fails with "Invalid <field>" |
| Numerals.ParseFloatField | app/routes/jobs.py:14-18 | `_parse_float` succeeds exactly when `float()` does, with its value, and otherwise fails with "Invalid <field>" |
| Numerals.JsNumber | frontend/src/pages/Jobs.jsx:69-70 | `Number()` of a form string sends 0 for "", a number exactly for a decimal numeral, and null (NaN) for any other string (exponent numerals are among those; see "## Left out") |
| Numerals.ParseShowInt | app/routes/jobs.py:7-11 | `int()` of a rendered integer gives that integer back |
| Numerals.TypedIntegerArrives | frontend/src/pages/Jobs.jsx:69-70 | an integer typed into a number input reaches a route's `int()` as that integer (the route's conversion at app/routes/jobs.py:96-99) |
| Numerals.TypedDecimalTruncates | app/routes/employers.py:70-71 | a decimal typed into an id input reaches `int()` as its whole part |
| JobRoutes.JobToDict | app/routes/jobs.py:21-30 | the serialised job holds exactly the id and the five columns, each under its key |
| JobRoutes.NewJob | app/routes/jobs.py:39-63 | a missing or empty body gives 400 "Missing JSON body" before any field is read; an absent, None or "" required field gives "Missing fields"; a success carries the three texts as sent, `float(salary)` and `int(employer_id)`; every refusal is a 400 |
| JobRoutes.NewJobConversions | app/routes/jobs.py:49-54 | with every field present, a salary `float()` refuses gives "Invalid salary", else an employer_id `int()` refuses gives "Invalid employer_id", else the job is built |
| JobRoutes.Assign | app/routes/jobs.py:100 | `setattr` changes the one column to the converted value and keeps every other column |
| JobRoutes.FirstRejected | app/routes/jobs.py:87-99 | the position of the first present field the loop refuses: every field before it is accepted, and it is present and refused |
| JobRoutes.ApplyUpdate | app/routes/jobs.py:87-100 | the update succeeds exactly when every present field is acceptable; it then sets each present field to its converted value and keeps every other column; otherwise it answers "Invalid <field>" for the first refused field |
| JobRoutes.ApplyUpdateStep | app/routes/jobs.py:88-100 | one turn of the loop: an absent field is skipped, a refused one answers, and an accepted one is set before the rest |
| JobRoutes.FirstRejectedAt | app/routes/jobs.py:87-99 | a refused field preceded only by accepted ones is the first refused |
| JobRoutes.CreateBodyUpdatesToCreatedJob | app/routes/jobs.py:39-100 | a body `create_job` accepts, sent as an update, turns any job into the job `create_job` builds |
| JobRoutes.CreateJob | app/routes/jobs.py:39-66 | a refused body changes nothing and answers the refusal; an accepted body adds exactly one job under a fresh id and answers 201 with its dict |
| JobRoutes.GetJob | app/routes/jobs.py:69-74 | an unknown id gives 404; a known one gives 200 with that job's dict |
| JobRoutes.UpdateJob | app/routes/jobs.py:77-103 | an unknown id gives 404 before the body is read; an empty body gives 400; then the stored job becomes ApplyUpdate of it with 200, or the refusal is answered and nothing changes |
| JobRoutes.CheckField | app/routes/jobs.py:90-99 | a present value is refused exactly when it is not acceptable, and the refusal is "Invalid <field>" |
| JobRoutes.UpdatedJob | app/routes/jobs.py:87-100 | the loop over the fields computes ApplyUpdate of the loaded job |
| JobRoutes.DeleteJob | app/routes/jobs.py:106-113 | an unknown id gives 404 and no change; a known id is removed with its applications, so a later get gives 404 |
| EmployerRoutes.EmployerToDict | app/routes/employers.py:8-17 | the serialised employer never holds password_hash; it holds exactly the id and the other five columns |
| EmployerRoutes.NewEmployer | app/routes/employers.py:26-37 | a missing body gives "Missing JSON body"; any of the six fields falsy under `data.get` gives "Missing fields"; with all six truthy, the create fails exactly when `int(user_id)` raises (500); a success stores the five texts as sent and the converted user_id |
| EmployerRoutes.Assign | app/routes/employers.py:70-72 | `setattr` changes the one column and keeps every other |
| EmployerRoutes.ApplyUpdate | app/routes/employers.py:67-72 | the loop succeeds exactly when a present user_id converts; it sets each present field and keeps the rest; a failure is the unhandled 500 |
| EmployerRoutes.CreateBodyUpdatesToCreatedEmployer | app/routes/employers.py:26-72 | a body `create_employer` accepts, sent as an update, turns any employer into the one it would create |
| EmployerRoutes.CreateEmployer | app/routes/employers.py:26-46 | a refused body changes nothing; an accepted body adds the employer under a fresh id with 201, unless its name or email is taken (500, no change) |
| EmployerRoutes.GetEmployer | app/routes/employers.py:49-54 | an unknown id gives 404; a known one gives 200 with the dict |
| EmployerRoutes.UpdateEmployer | app/routes/employers.py:57-75 | 404 before the body; an empty body gives 400; the loop result is committed with 200, or a refusal, null column or clash changes nothing |
| EmployerRoutes.DeleteEmployer | app/routes/employers.py:78-85 | an unknown id gives 404; a known id is removed with its jobs and their applications |
| ProfileRoutes.ProfileToDict | app/routes/profiles.py:15-22 | the serialised profile holds exactly the id, user_id, full_name and bio |
| ProfileRoutes.NewProfile | app/routes/profiles.py:31-48 | a missing body, then an absent/None/"" user_id or full_name, then a user_id `_parse_int` refuses are answered in that order with 400; a success stores the converted user_id, full_name as sent, and bio as sent or null when absent |
| ProfileRoutes.Assign | app/routes/profiles.py:80 | `setattr` changes the one column and keeps every other |
| ProfileRoutes.ApplyUpdate | app/routes/profiles.py:73-80 | the loop succeeds exactly when a present user_id converts; it sets each present field and keeps the rest; the only refusal is 400 "Invalid user_id" |
| ProfileRoutes.UpdateAcceptsBlankText | app/routes/profiles.py:73-80 | unlike jobs, a None or "" full_name or bio passes the loop and is stored as given |
| ProfileRoutes.CreateProfile | app/routes/profiles.py:31-52 | a refused body changes nothing; an accepted one adds the profile under a fresh id with 201 |
| ProfileRoutes.GetProfile | app/routes/profiles.py:55-60 | an unknown id gives 404; a known one gives 200 with the dict |
| ProfileRoutes.UpdateProfile | app/routes/profiles.py:63-83 | 404 before the body; an empty body gives 400; a refusal changes nothing; a null full_name is refused at commit (500, no change); otherwise the profile is replaced with 200 |
| ProfileRoutes.DeleteProfile | app/routes/profiles.py:86-93 | an unknown id gives 404; a known id removes that profile alone |
| ApplicationRoutes.ApplicationToDict | app/routes/applications.py:8-15 | the serialised application holds exactly the id, user_id, job_id and status |
| ApplicationRoutes.NewApplication | app/routes/applications.py:24-38 | a missing body gives "Missing JSON body"; an absent/None/"" user_id or job_id gives "Missing fields"; past that, the create fails exactly when `int()` raises on an id (500); a success stores both ids converted, and the given status, or "pending" when it is absent or null |
| ApplicationRoutes.Rejection | app/routes/applications.py:66-69 | a present None or "" is refused with 400 "Invalid <field>"; otherwise only an id `int()` cannot convert is refused, as 500 |
| ApplicationRoutes.Assign | app/routes/applications.py:70 | `setattr` changes the one column and keeps every other |
| ApplicationRoutes.FirstRejected | app/routes/applications.py:63-69 | the position of the first present field the loop refuses |
| ApplicationRoutes.ApplyUpdate | app/routes/applications.py:63-70 | the loop succeeds exactly when no present field is refused; it then sets each present field (ids converted) and keeps the rest; otherwise it answers the first refused field's refusal |
| ApplicationRoutes.CreateBodyUpdatesToCreatedApplication | app/routes/applications.py:24-70 | a body `create_application` accepts, sent as an update, sets both ids to the created application's; an absent status keeps the old one, a null or empty status is refused with "Invalid status", and any other status becomes the created one |
| ApplicationRoutes.UpdateKeepsStatus | app/routes/applications.py:66-67 | an update never stores a null status |
| ApplicationRoutes.CreateApplication | app/routes/applications.py:24-42 | a refused body changes nothing; an accepted one adds the application under a fresh id with 201 |
| ApplicationRoutes.GetApplication | app/routes/applications.py:45-50 | an unknown id gives 404; a known one gives 200 with the dict |
| ApplicationRoutes.UpdateApplication | app/routes/applications.py:53-73 | 404 before the body; an empty body gives 400; the stored row becomes ApplyUpdate of it with 200, or the refusal is answered and nothing changes |
| ApplicationRoutes.DeleteApplication | app/routes/applications.py:76-83 | an unknown id gives 404; a known id removes that application alone |
| Session.SessionStore.constructor | frontend/src/App.jsx:16-17 | the store holds the given token and role |
| Session.SessionStore.SetToken | frontend/src/pages/Login.jsx:14-16 | the token entry is written and the role entry is left alone |
| Session.SessionStore.SetRole | frontend/src/pages/Login.jsx:17-19 | the role entry is written and the token entry is left alone |
| Session.SessionStore.Clear | frontend/src/App.jsx:33-37 | both entries are cleared |
| AppShell.Nav | frontend/src/App.jsx:55-73 | an entry is shown exactly when the access policy allows it for `(authed, role)`: Home always; Jobs, Applications and Logout when signed in; Employers for employer or admin; Profiles for admin; My Profile for user; Login and Register when signed out; entries appear in the shell's order |
| AppShell.NavAgreesWithRoutes | frontend/src/App.jsx:55-91 | every route is enabled exactly when its link is shown |
| AppShell.Routes | frontend/src/App.jsx:76-91 | a route is enabled exactly when it is not Logout (a button, not a route) and the access policy allows it for `(authed, role)` |
| AppShell.UnknownRoleFailsClosed | frontend/src/App.jsx:57-72 | signed in with a null or unrecognised role, only Home, Jobs, Applications and Logout are shown, and only the first three are routed |
| AppShell.SignedOutSeesOnlyEntryPages | frontend/src/App.jsx:68-90 | signed out, whatever role is stored, only Home, Login and Register are shown and routed |
| AppShell.App.constructor | frontend/src/App.jsx:16-17 | the shell is signed in exactly when a truthy token is stored, with the stored role |
| AppShell.App.HandleLogout | frontend/src/App.jsx:33-37 | the session is cleared, the shell is signed out with no role, and the bar shows only Home, Login and Register |
| LoginPage.AfterLogin | frontend/src/pages/Login.jsx:14-19 | the token becomes the reply's token exactly when that is truthy and is kept otherwise; the role likewise, independently |
| LoginPage.RoleWithoutTokenStaysSignedOut | frontend/src/pages/Login.jsx:14-21 | a reply with a role and no token stores the role alone, and the reloaded shell still shows only the signed-out entries |
| LoginPage.LoginPage.constructor | frontend/src/pages/Login.jsx:6-7 | the page starts with no message and no redirect |
| LoginPage.LoginPage.HandleSubmit | frontend/src/pages/Login.jsx:9-25 | a failed request writes no session entry, does not redirect, and shows the error or "Login failed"; a reply updates the session by AfterLogin, shows the user id and role, and redirects even without a token |
| PageState.ErrorText | frontend/src/pages/Jobs.jsx:55-57 | `err.message || fallback`: the message when it is non-empty, else the fallback; never empty when the fallback is not |
| PageState.RowsOrEmpty | frontend/src/pages/Jobs.jsx:26-30 | a null listing gives no rows; otherwise the rows as listed |
| PageState.CrudPage.constructor | frontend/src/pages/Jobs.jsx:6-24 | the page starts with no rows, no banners, and its forms at their initial values |
| PageState.CrudPage.Refresh | frontend/src/pages/Jobs.jsx:26-30 | a listing replaces the rows (null as none); a failure sets the error with the load fallback and keeps the rows; nothing else changes |
| PageState.CrudPage.HandleCreate | frontend/src/pages/Jobs.jsx:36-58 | sends the create payload of the form; on success sets the message, resets the create form and refreshes; on failure keeps the form and rows and sets the error; the other forms are untouched |
| PageState.CrudPage.HandleUpdate | frontend/src/pages/Jobs.jsx:60-85 | sends the update payload to the typed id; on success sets the message, clears the id and form and refreshes; on failure keeps them and sets the error |
| PageState.CrudPage.HandleDelete | frontend/src/pages/Employers.jsx:91-103 | deletes the typed id; the id input is cleared only on success; on failure the error is set |
| JobsPage.Sent | frontend/src/pages/Jobs.jsx:65-70 | salary and employer_id are sent through `Number()` (a number or null); the texts are sent as typed |
| JobsPage.CreatePayload | frontend/src/pages/Jobs.jsx:41-45 | the create payload carries every field, the two numbers through `Number()` |
| JobsPage.PayloadOf | frontend/src/pages/Jobs.jsx:65-70 | a key is present exactly for the non-blank fields among those given, each with its sent value |
| JobsPage.UpdatePayload | frontend/src/pages/Jobs.jsx:65-71 | a key is present exactly when its input is non-blank, with the sent value; `id` is never a key |
| JobsPage.UpdatePayloadByKey | frontend/src/pages/Jobs.jsx:65-70 | the update payload meets the key-by-key description of the page's assignments |
| JobsPage.ByKeyDetermines | frontend/src/pages/Jobs.jsx:65-70 | the key-by-key description fixes the payload |
| JobsPage.BlankUpdateSendsNothing | frontend/src/pages/Jobs.jsx:73-80 | the update form as reset sends `{}` |
| JobsPage.BuildUpdatePayload | frontend/src/pages/Jobs.jsx:65-70 | the conditional assignments build exactly UpdatePayload |
| JobsPage.Open | frontend/src/pages/Jobs.jsx:5-34 | a fresh page wired with the job payloads and texts, everything blank |
| EmployersPage.Sent | frontend/src/pages/Employers.jsx:67-73 | user_id is sent through `Number()`; the texts as typed |
| EmployersPage.CreatePayload | frontend/src/pages/Employers.jsx:43-46 | the create payload carries all six fields, user_id through `Number()` |
| EmployersPage.PayloadOf | frontend/src/pages/Employers.jsx:67-73 | a key is present exactly for the non-blank fields among those given |
| EmployersPage.UpdatePayload | frontend/src/pages/Employers.jsx:67-73 | a key is present exactly for the non-blank inputs among the six; `id` never |
| EmployersPage.UpdatePayloadByKey | frontend/src/pages/Employers.jsx:67-73 | the update payload meets the key-by-key description |
| EmployersPage.ByKeyDetermines | frontend/src/pages/Employers.jsx:67-73 | the key-by-key description fixes the payload |
| EmployersPage.BlankUpdateSendsNothing | frontend/src/pages/Employers.jsx:76-84 | the reset update form sends `{}` |
| EmployersPage.BuildUpdatePayload | frontend/src/pages/Employers.jsx:67-73 | the conditional assignments build exactly UpdatePayload |
| EmployersPage.Open | frontend/src/pages/Employers.jsx:5-36 | a fresh page wired with the employer payloads and texts, everything blank |
| ProfilesPage.Sent | frontend/src/pages/Profiles.jsx:54-57 | user_id is sent through `Number()`; the texts as typed |
| ProfilesPage.CreatePayload | frontend/src/pages/Profiles.jsx:37-40 | the create payload carries all three fields, so a blank bio is sent as "" |
| ProfilesPage.PayloadOf | frontend/src/pages/Profiles.jsx:54-57 | a key is present exactly for the non-blank fields among those given |
| ProfilesPage.UpdatePayload | frontend/src/pages/Profiles.jsx:54-57 | a key is present exactly for the non-blank inputs; `id` never |
| ProfilesPage.UpdatePayloadByKey | frontend/src/pages/Profiles.jsx:54-57 | the update payload meets the key-by-key description |
| ProfilesPage.ByKeyDetermines | frontend/src/pages/Profiles.jsx:54-57 | the key-by-key description fixes the payload |
| ProfilesPage.BlankUpdateSendsNothing | frontend/src/pages/Profiles.jsx:60 | the reset update form sends `{}` |
| ProfilesPage.BuildUpdatePayload | frontend/src/pages/Profiles.jsx:54-57 | the conditional assignments build exactly UpdatePayload |
| ProfilesPage.Open | frontend/src/pages/Profiles.jsx:5-30 | a fresh page wired with the profile payloads and texts, everything blank |
| ApplicationsPage.Sent | frontend/src/pages/Applications.jsx:63-66 | both ids are sent through `Number()`; the status as selected |
| ApplicationsPage.CreatePayload | frontend/src/pages/Applications.jsx:45-49 | the create payload carries both ids through `Number()` and the selected status |
| ApplicationsPage.PayloadOf | frontend/src/pages/Applications.jsx:63-66 | a key is present exactly for the non-blank fields among those given |
| ApplicationsPage.UpdatePayload | frontend/src/pages/Applications.jsx:63-66 | a key is present exactly for the non-blank inputs, the ids numeric; `id` never |
| ApplicationsPage.UpdatePayloadByKey | frontend/src/pages/Applications.jsx:63-66 | the update payload meets the key-by-key description |
| ApplicationsPage.ByKeyDetermines | frontend/src/pages/Applications.jsx:63-66 | the key-by-key description fixes the payload |
| ApplicationsPage.BlankUpdateSendsNothing | frontend/src/pages/Applications.jsx:69 | the reset update form sends `{}` |
| ApplicationsPage.BuildUpdatePayload | frontend/src/pages/Applications.jsx:63-66 | the conditional assignments build exactly UpdatePayload |
| ApplicationsPage.Open | frontend/src/pages/Applications.jsx:5-30 | a fresh page whose create form starts, and resets after a create, with status "pending", and whose update form resets to all blank |
| ApplicationsPage.WithStatus | frontend/src/pages/Applications.jsx:34-36 | an application is in the filtered list exactly when it is listed with that status |
| ApplicationsPage.Grouped | frontend/src/pages/Applications.jsx:32-38 | there are exactly the three groups pending, accepted and rejected; each holds exactly the listed applications with that status |
| ApplicationsPage.Unshown | frontend/src/pages/Applications.jsx:187-190 | the applications no column shows are exactly those whose status is none of the three |
| ApplicationsPage.WithStatusAppend | frontend/src/pages/Applications.jsx:34-36 | filtering a concatenation filters each part and keeps the listing order |
| ApplicationsPage.BoardPartitionsListing | frontend/src/pages/Applications.jsx:32-38 | the three columns and the unshown applications together count exactly the listing |
| ApplicationsPage.ColumnsAreDisjoint | frontend/src/pages/Applications.jsx:34-36 | no application appears in two columns |
| ClientServer.NumberInputVerdict | app/routes/jobs.py:90-99 | a non-blank string sent through `Number()` is accepted by the salary and employer_id checks, and by `int()`, exactly when it is a numeral; any other string is sent as null (input built at frontend/src/pages/Jobs.jsx:69-70) |
| ClientServer.JobAcceptsKeyByKey | app/routes/jobs.py:87-99 | a body the loop accepts has acceptable values under each key it carries |
| ClientServer.JobAcceptedOnlyIf | app/routes/jobs.py:87-99 | an update succeeds only on a body whose present values are all acceptable |
| ClientServer.JobAcceptedIf | app/routes/jobs.py:87-99 | a body whose present values are all acceptable is always taken |
| ClientServer.JobAcceptsByBody | app/routes/jobs.py:87-100 | a job update succeeds exactly when no present text is None or "" and a present salary and employer_id convert |
| ClientServer.JobUpdateAccepted | frontend/src/pages/Jobs.jsx:65-71 | the payload of the Jobs update form is taken by `update_job` exactly when the salary and employer id inputs are blank or numerals (route at app/routes/jobs.py:87-100) |
| ClientServer.JobColumnByBody | app/routes/jobs.py:87-100 | after an accepted update, a column is the converted value of its present key, or else the old column |
| ClientServer.SalaryFromColumn | app/routes/jobs.py:92-95 | a present salary is stored as its `float()`; an absent one is kept |
| ClientServer.EmployerIdFromColumn | app/routes/jobs.py:96-99 | a present employer_id is stored as its `int()`; an absent one is kept |
| ClientServer.JobUpdateByBody | app/routes/jobs.py:87-100 | after an accepted update, each text column is the body's value when present and the old one otherwise, and the numbers are the conversions of present values or the old ones |
| ClientServer.NumeralSent | frontend/src/pages/Jobs.jsx:69-70 | a numeral is sent as exactly its decimal value |
| ClientServer.JobTextColumns | frontend/src/pages/Jobs.jsx:65-67 | a text left blank in the update form keeps the stored column; a typed text is stored (route at app/routes/jobs.py:87-100) |
| ClientServer.JobNumberColumns | frontend/src/pages/Jobs.jsx:69-70 | a blank salary or employer id keeps the stored value; a typed one is a numeral and is stored as its value, the id truncated |
| ClientServer.JobUpdateColumns | frontend/src/pages/Jobs.jsx:65-71 | a field left blank in the Jobs update form is unchanged on the server, and every typed field is stored as typed (route at app/routes/jobs.py:87-89) |
| ClientServer.JobSalaryRefusal | app/routes/jobs.py:92-95 | when salary is the first refused field, the update answers "Invalid salary" |
| ClientServer.JobEmployerIdRefusal | app/routes/jobs.py:96-99 | when employer_id is the first refused field, the update answers "Invalid employer_id" |
| ClientServer.JobTextsAccepted | frontend/src/pages/Jobs.jsx:65-67 | the texts the Jobs update form sends are never refused |
| ClientServer.JobTextsAndSalaryAccepted | frontend/src/pages/Jobs.jsx:65-69 | with a blank or numeral salary input, nothing before employer_id is refused |
| ClientServer.JobSalaryFirstRefused | frontend/src/pages/Jobs.jsx:69 | a salary string that is not a numeral, sent through `Number()`, makes salary the first refused field; a browser `type="number"` input never yields such a string |
| ClientServer.JobEmployerIdFirstRefused | frontend/src/pages/Jobs.jsx:70 | with an accepted salary, an employer id string that is not a numeral makes employer_id the first refused field |
| ClientServer.JobSalaryRefused | frontend/src/pages/Jobs.jsx:69 | a salary string that is not a numeral is sent as null and gets 400 "Invalid salary" (route at app/routes/jobs.py:92-95); the pages' `type="number"` input never yields such a string |
| ClientServer.JobEmployerIdRefused | frontend/src/pages/Jobs.jsx:70 | with an accepted salary, an employer id string that is not a numeral is sent as null and gets 400 "Invalid employer_id" |
| ClientServer.TypedIntegerSent | frontend/src/pages/Jobs.jsx:69-70 | a typed integer is a numeral and is sent as that number |
| ClientServer.BlankUpdateFormsSendNothing | frontend/src/pages/Jobs.jsx:73-80 | every page's update form, as reset, sends `{}`, which each update route answers with "Missing JSON body" (app/routes/jobs.py:83-85) |
| ClientServer.TypedJobCreated | frontend/src/pages/Jobs.jsx:41-45 | a Jobs create form with non-blank texts and typed integers creates exactly the job typed (route at app/routes/jobs.py:39-63) |
| ClientServer.TypedJobBody | frontend/src/pages/Jobs.jsx:41-45 | such a form sends every required field present, the texts as typed, and numbers that convert to the typed integers |
| ClientServer.EmployerZeroUserIdIsMissing | frontend/src/pages/Employers.jsx:43-46 | a blank or zero user id is sent as 0, which `create_employer` answers "Missing fields" (app/routes/employers.py:32-34) |
| ClientServer.TypedProfileCreated | frontend/src/pages/Profiles.jsx:37-40 | a Profiles create form with a typed integer and a full name creates exactly that profile, a blank bio stored as "" (route at app/routes/profiles.py:31-52) |
| ClientServer.DefaultApplicationIsPending | frontend/src/pages/Applications.jsx:9-13 | the create form left at its initial status creates a "pending" application, which the board shows in its pending column (app/routes/applications.py:34-38) |
| ClientServer.ProfileUpdateByBody | app/routes/profiles.py:73-80 | after an accepted update, full_name and bio are the body's values when present and the old ones otherwise; user_id is the conversion or the old one |
| ClientServer.ProfileAcceptsByBody | app/routes/profiles.py:73-80 | a profile update succeeds exactly when a present user_id converts |
| ClientServer.ProfileUpdateAccepted | frontend/src/pages/Profiles.jsx:54-57 | the Profiles update payload is taken exactly when its user id string is blank or a numeral, and is otherwise refused with "Invalid user_id" (a case the `type="number"` input never produces) |
| ClientServer.ProfileUpdateColumns | frontend/src/pages/Profiles.jsx:54-57 | a field left blank in the Profiles update form is unchanged on the server; typed fields are stored as typed |
| ClientServer.ProfileFormNeverClearsText | frontend/src/pages/Profiles.jsx:57 | through this form, a bio or full name can never become null or "" unless it already was (route at app/routes/profiles.py:73-74) |
| ClientServer.EmployerColumnByBody | app/routes/employers.py:67-72 | after an accepted update, a column is the converted value of its present key, or else the old column |
| ClientServer.EmployerUpdateTextByBody | app/routes/employers.py:67-72 | after an accepted update, each text column is the body's value when present and the old one otherwise |
| ClientServer.UserIdFromColumn | app/routes/employers.py:70-71 | a present user_id is stored as its `int()`; an absent one is kept |
| ClientServer.EmployerUpdateUserIdByBody | app/routes/employers.py:70-71 | after an accepted update, user_id is the conversion of the present value or the old one |
| ClientServer.EmployerAcceptsByBody | app/routes/employers.py:67-72 | an employer update gets through the loop exactly when a present user_id converts |
| ClientServer.EmployerUpdateAccepted | frontend/src/pages/Employers.jsx:67-73 | the Employers update payload gets through the loop exactly when its user id string is blank or a numeral, and otherwise ends in the unhandled 500 (a case the `type="number"` input never produces) |
| ClientServer.EmployerTextColumns | frontend/src/pages/Employers.jsx:69-73 | a text left blank in the Employers update form is unchanged on the server; a typed text is stored |
| ClientServer.EmployerUserIdColumn | frontend/src/pages/Employers.jsx:68 | a blank user id keeps the stored one; a typed one is a numeral stored truncated |
| ClientServer.EmployerUpdateColumns | frontend/src/pages/Employers.jsx:67-73 | a field left blank in the Employers update form is unchanged on the server; typed fields are stored as typed |
| ClientServer.ApplicationUpdateByBody | app/routes/applications.py:63-70 | after an accepted update, status is the body's value when present and the old one otherwise; the ids are conversions of present values or the old ones |
| ClientServer.ApplicationAcceptsByBody | app/routes/applications.py:63-70 | an application update succeeds exactly when no present field is None or "" and present ids convert |
| ClientServer.ApplicationUpdateAccepted | frontend/src/pages/Applications.jsx:63-66 | the Applications update form is taken exactly when both id inputs are blank or numerals |
| ClientServer.ApplicationUpdateColumns | frontend/src/pages/Applications.jsx:63-66 | a field left blank in the Applications update form is unchanged on the server; typed fields are stored as typed |
| ClientServer.ApplicationUserIdRefusal | app/routes/applications.py:66-67 | a null user_id is refused with 400 "Invalid user_id" |
| ClientServer.ApplicationJobIdRefusal | app/routes/applications.py:66-67 | with an accepted or absent user_id, a null job_id is refused with 400 "Invalid job_id" |
| ClientServer.ApplicationUpdateRefusal | frontend/src/pages/Applications.jsx:64-65 | a user id string that is not a numeral gets "Invalid user_id"; with an accepted user id, a job id string that is not a numeral gets "Invalid job_id" (cases the `type="number"` inputs never produce) |
| ClientServer.SelectedStatusShown | frontend/src/pages/Applications.jsx:32-38 | an application updated to a status chosen from the select appears in that status's column (select at frontend/src/pages/Applications.jsx:159-168) |

## Left out

- Network I/O. The `fetch` wrapper in `frontend/src/api.js` is not part of this model. Each page handler takes the way its request settled as a parameter (`ApiReply`, `ListReply`, `LoginOutcome`).
- The session-storage helpers. Their file is not part of this model. The session is a two-entry store (`Session.SessionStore`), and the browser's string coercion of stored values is not modelled.
- Concurrency. Async ordering and races between in-flight requests are not modelled: each handler runs as one atomic step. The mount-time `useEffect` listing is a `Refresh` after `Open`.
- The list routes (`GET /jobs` and its siblings), the `/health` endpoint, and the framework wiring: configuration, the app factory, blueprint registration and migrations.
- Timestamps. `created_at` is left out of the rows and of every `*_to_dict`.
- Numbers.
  - Salaries and numbers are exact reals, so floating-point rounding is not modelled.
  - The numerals read by `int()`, `float()` and `Number()` are an optional sign and decimal digits, with an optional fraction. Surrounding blanks, digit separators, exponents, hexadecimal, `inf` and `nan` are not modelled.
  - A JSON value that is an array or an object is not modelled.
- Password hashing and tokens.
  - The password library's salted hash is a tagged value that matches exactly its own password.
  - The JWT access token is a value naming the user it was issued for.
  - Token expiry and signing are not modelled.
- Database details.
  - Autoincrement ids are counters that only grow.
  - Commit and rollback are one step: a refused commit leaves every table as it was.
  - The database's foreign-key checks on insert and update are not modelled. The schema does not make SQLite enforce them, and no route checks them.
- User deletion. No route deletes users. `Store.Database.DeleteUser` models the cascade the schema declares.
- The pages Home, Register and MyProfile, all JSX markup and CSS, the Jobs filter bar (it has no handlers), HTML `required` attributes, and the page reload (modelled as a `redirected` flag).
- The update forms' `id` input is held as `updateId` and returned by `HandleUpdate`. The URL it builds is not modelled.
- Numerals.JsNumber: the browser's sanitising of `type="number"` inputs is not modelled. Every number input the pages render hands `Number()` either "" or a valid floating-point string, so from the pages a non-numeral never reaches `Number()`. The lemmas `ClientServer.NumberInputVerdict`, `ClientServer.JobSalaryFirstRefused`, `ClientServer.JobEmployerIdFirstRefused`, `ClientServer.JobSalaryRefused`, `ClientServer.JobEmployerIdRefused`, `ClientServer.ApplicationUpdateRefusal`, the refusal half of `ClientServer.ProfileUpdateAccepted` and the 500 of `ClientServer.EmployerUpdateAccepted` therefore describe strings the pages do not produce (another client, or a value set outside the inputs). An exponent numeral such as "1e3" is accepted by the program (`Number()` gives 1000 and the routes take it), but the model's numeral grammar has no exponents, so the model refuses it.
- SQLite's TEXT affinity. The text columns are held as the JSON value the request carried, so a JSON number or boolean sent for a text column is not turned into text. The program stores `5` as "5" and serves it back as a string, and its UNIQUE constraints compare the stored text, so an employer named `5` clashes with one named "5" (and likewise for usernames). The affected members are `JobRoutes.NewJob`, `JobRoutes.Assign`, `JobRoutes.JobToDict`, `EmployerRoutes.NewEmployer`, `EmployerRoutes.Assign`, `EmployerRoutes.EmployerToDict`, `ProfileRoutes.NewProfile`, `ProfileRoutes.Assign`, `ProfileRoutes.ProfileToDict`, `ApplicationRoutes.NewApplication`, `ApplicationRoutes.Assign` and `ApplicationRoutes.ApplicationToDict` (status), `AuthRoutes.NewUser` (username), and the UNIQUE checks `Models.UserClashes` and `Models.EmployerClashes` with the store methods that use them. A faithful coercion needs the number's original spelling, which the model's exact numbers do not keep. The pages themselves send only strings for these columns.
