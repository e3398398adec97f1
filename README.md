# EduGuate, the client-side logic

EduGuate is a tutoring platform for Guatemalan students and tutors: a Next.js
application over a hosted Supabase backend, plus a few static HTML pages
driven by `js/auth.js`. Almost everything it does is rendering.

This Dafny project models the logic that belongs to the code itself:
- the record and enumeration types of `lib/types.ts`;
- the editable question list of the tutor's "new evaluation" page;
- the ordered check chains and inserted rows of the four client forms: new content, new tutoring request, registration, profile completion;
- the access guards: the dashboard guard, `protectPage` of `js/auth.js`, and the forwarding of the profile-completion page;
- what the five dashboard views select from the tables they read: filters, orders, limits, counts, "completed" marks and the rounded average score.

Backend calls are inputs. The authenticated user, the profiles table and the other tables arrive as values. An insert's failure is an `Option<Thrown>`, and the sign-up answer is a `SignUpOutcome`.

Query results are modelled in the `Query` module: `.eq`/`.in` become `Where`, `.order` becomes `OrderBy`, `.limit` becomes `Limit`, and a count query becomes `CountWhere`. NULL sorts as PostgreSQL sorts it: last when ascending, first when descending. The backend leaves the order of equal keys unspecified. The model sorts stably, which is one of the orders the backend may return for any one query. Statements that relate two different queries compare their rows, not their order.

Client pages that keep state (`useState`) are classes:
- their fields are the state variables;
- their methods are the handlers, each proved against a pure function of the inputs and the old state;
- navigation is returned as an `Option<Route>`.

Server pages are pure functions returning `Served<V>`: either a view or a redirect. `js/auth.js` navigates by assigning `window.location.href`, which is the `href` field of a `Browser` object.

Two things the code does that a reader might not expect:
- The student dashboard's "Evaluaciones Completadas" card and its "Promedio general" average use only the three latest results, because the query is limited to 3 (`StudentDashboard.StatsCapped`).
- A tutor's profile row can carry an education level chosen while "student" was selected (`CompleteProfile.TutorRowMayCarryLevel`).

## Model

| member | source | states |
|---|---|---|
| Types.EnumerationsAreExact | lib/types.ts:1-4 | the enumerations have exactly 2 roles, 3 levels, 5 subjects and 4 statuses, all distinct |
| Types.ParsedNamesRoundTrip | lib/types.ts:1-4 | a stored string is accepted as a role or status exactly when it is one of the literals, and it is then that value's name |
| Types.RoleName | lib/types.ts:1 | the string a role is stored as reads back as that role |
| Types.StatusName | lib/types.ts:4 | the string a status is stored as reads back as that status |
| Backend.CaughtMessage | app/dashboard/tutor/content/new/page.tsx:91 | a caught `Error` shows its own message; any other thrown value shows the handler's fallback text |
| Backend.LookupProfile | app/dashboard/tutor/page.tsx:20 | `.eq("id", id).single()` yields the row stored under that id if and only if there is one; in a table keyed by id, that row's id is `id` |
| Guards.RoleHome | app/auth/complete-profile/page.tsx:49-53 | the student dashboard is chosen exactly for a student, the tutor dashboard exactly for a tutor |
| Guards.PageGuard | app/dashboard/tutor/page.tsx:16-24 | no user goes to the login page; with a user the page renders exactly when the user's row exists with the required role, and renders with that row; otherwise it goes to the profile-completion page |
| Guards.GuardReadsOnlyOwnRow | app/dashboard/student/page.tsx:16-24 | the guard's decision depends only on the caller's own profile row |
| Guards.GuardsExclusive | app/dashboard/student/page.tsx:22 | no profile passes both the student and the tutor guard; every profile passes the guard of its own role |
| LegacyAuth.DashboardPage | js/auth.js:42 | the student dashboard page exactly for a student, the tutor dashboard page exactly for a tutor, decided by comparing the stored role with "student" |
| LegacyAuth.CheckAuth | js/auth.js:2-8 | a session is reported exactly when there is one |
| LegacyAuth.GetCurrentUserProfile | js/auth.js:11-21 | no user gives no profile; otherwise the profile is the user's row when it exists |
| LegacyAuth.PageProtection | js/auth.js:31-47 | no session goes to `login.html` with no profile; no required role returns the profile unchecked; a matching role returns the profile without navigating; a mismatch returns nothing and goes to the dashboard of the profile's own role |
| LegacyAuth.NoSessionNoLookup | js/auth.js:32-37 | without a session the outcome does not depend on the user or the profiles |
| LegacyAuth.MismatchGoesToOwnDashboard | js/auth.js:41-44 | a role mismatch navigates to the profile's own dashboard, never to the required one, and that page admits the profile |
| LegacyAuth.Browser.ProtectPage | js/auth.js:31-47 | returns the decided profile; the location changes to the decided page, or stays when none is decided |
| LegacyAuth.Browser.Logout | js/auth.js:24-28 | the browser ends on `index.html` |
| Numbers.LeadingDigits | app/auth/complete-profile/page.tsx:84 | the digit run that starts the text is maximal: all digits, followed by a non-digit or the end |
| Numbers.Digits | app/auth/complete-profile/page.tsx:84 | the decimal digits of a natural number, whose value is that number |
| Numbers.ParseDigits | app/auth/complete-profile/page.tsx:84 | a run of digits is read exactly when the text starts with a digit |
| Numbers.ParseInt | app/auth/complete-profile/page.tsx:84 | `Number.parseInt` gives a number exactly when a digit follows the optional sign, and the number is negative only after a minus sign |
| Numbers.ParseIntReadsWrittenInteger | app/auth/complete-profile/page.tsx:84 | `parseInt` of an integer's decimal text, followed by nothing or a non-digit, is that integer, for every integer of magnitude at most `Number.MAX_SAFE_INTEGER` |
| EvaluationEditor.DefaultQuestion | app/dashboard/tutor/evaluations/new/page.tsx:26 | the starting and appended question has no text, four empty options and the first option marked correct |
| EvaluationEditor.WithQuestionAdded | app/dashboard/tutor/evaluations/new/page.tsx:59-61 | `addQuestion` appends exactly one default question and keeps every earlier question |
| EvaluationEditor.DropPosition | app/dashboard/tutor/evaluations/new/page.tsx:65 | the filter on positions drops exactly position `index` and keeps the rest in order; an out-of-range index changes nothing |
| EvaluationEditor.WithoutQuestion | app/dashboard/tutor/evaluations/new/page.tsx:63-67 | `removeQuestion` leaves a list of one question unchanged, otherwise drops exactly the given position, so a non-empty list stays non-empty |
| EvaluationEditor.WithQuestionEdited | app/dashboard/tutor/evaluations/new/page.tsx:69-73 | `updateQuestion` changes only the named field of the named question; the length and every other question are unchanged |
| EvaluationEditor.WithOptionEdited | app/dashboard/tutor/evaluations/new/page.tsx:75-81 | `updateOption` changes only the named option; the option count, the text, the correct index and every other question are unchanged |
| EvaluationEditor.RemoveUndoesAdd | app/dashboard/tutor/evaluations/new/page.tsx:59-67 | removing the question just added gives back the list before the addition |
| EvaluationEditor.EditsKeepShape | app/dashboard/tutor/evaluations/new/page.tsx:26 | the starting list has four options per question and a correct index naming one of them; adding, removing, editing text, choosing a radio button and editing an option all keep that shape |
| EvaluationEditor.ValidateEvaluation | app/dashboard/tutor/evaluations/new/page.tsx:88-117 | a missing subject or level is reported first, an unfilled question second, a missing user last; the submit passes exactly when all three hold, and the row then carries the edited list unchanged and `created_by` set to the user |
| EvaluationEditor.QuestionFilled | app/dashboard/tutor/evaluations/new/page.tsx:96 | a question passes exactly when its text is non-empty and no option is the empty string |
| EvaluationEditor.AllFilled | app/dashboard/tutor/evaluations/new/page.tsx:95-101 | a list of questions passes exactly when every question in it passes |
| EvaluationEditor.CheckQuestions | app/dashboard/tutor/evaluations/new/page.tsx:95-101 | the question loop lets the submit through exactly when every question has a text and no empty option |
| EvaluationEditor.TitleNotRequired | app/dashboard/tutor/evaluations/new/page.tsx:88-107 | whether the submit passes does not depend on the title or the description |
| EvaluationEditor.AddedQuestionMustBeFilled | app/dashboard/tutor/evaluations/new/page.tsx:60 | a submit right after `addQuestion` always stops at the question check |
| EvaluationEditor.NewEvaluationPage.constructor | app/dashboard/tutor/evaluations/new/page.tsx:20-30 | the page starts with the empty form and a single default question |
| EvaluationEditor.NewEvaluationPage.CheckUser | app/dashboard/tutor/evaluations/new/page.tsx:35-54 | the user and name are set exactly when the tutor guard passes; otherwise the page navigates where the guard says and keeps its state |
| EvaluationEditor.NewEvaluationPage.AddQuestion | app/dashboard/tutor/evaluations/new/page.tsx:59-61 | the list becomes the list with a default question appended, and it stays non-empty |
| EvaluationEditor.NewEvaluationPage.RemoveQuestion | app/dashboard/tutor/evaluations/new/page.tsx:63-67 | the list becomes the list without the question, and it stays non-empty |
| EvaluationEditor.NewEvaluationPage.UpdateQuestion | app/dashboard/tutor/evaluations/new/page.tsx:69-73 | the list becomes the list with the one field edited |
| EvaluationEditor.NewEvaluationPage.UpdateOption | app/dashboard/tutor/evaluations/new/page.tsx:75-81 | the list becomes the list with the one option edited |
| EvaluationEditor.NewEvaluationPage.HandleSubmit | app/dashboard/tutor/evaluations/new/page.tsx:83-127 | a failed check shows its message and inserts nothing; otherwise the validated row is inserted, and the page goes to the evaluations list or shows the caught message |
| ContentForm.ValidateContent | app/dashboard/tutor/content/new/page.tsx:65-85 | a missing subject or level is reported before a missing user; the row copies title, description, content, subject and level and sets `created_by` to the user |
| ContentForm.TextFieldsNotChecked | app/dashboard/tutor/content/new/page.tsx:65-76 | an empty title, description or body is never rejected |
| ContentForm.StoredContent | app/dashboard/tutor/content/new/page.tsx:78-85 | the stored content carries the inserted title, description, body, subject, level and author, with the given id and both timestamps at the insert time |
| ContentForm.NewContentPage.constructor | app/dashboard/tutor/content/new/page.tsx:21-31 | the page starts with the empty form, no error, not loading, no user and an empty name |
| ContentForm.NewContentPage.CheckUser | app/dashboard/tutor/content/new/page.tsx:36-55 | the user and name are set exactly when the tutor guard passes |
| ContentForm.NewContentPage.HandleSubmit | app/dashboard/tutor/content/new/page.tsx:60-95 | a failed check shows its message and inserts nothing; otherwise the row is inserted, then the page goes to the content list or shows the caught message |
| TutoringForm.ValidateTutoringRequest | app/dashboard/student/tutoring/new/page.tsx:60-78 | a missing subject is reported before a missing user; the row is pending, belongs to the user and copies subject and description |
| TutoringForm.DescriptionNotChecked | app/dashboard/student/tutoring/new/page.tsx:60-70 | an empty description is never rejected |
| TutoringForm.StoredRequest | app/dashboard/student/tutoring/new/page.tsx:73-78 | the stored request has no tutor and no scheduled date |
| TutoringForm.NewTutoringRequestPage.constructor | app/dashboard/student/tutoring/new/page.tsx:19-26 | the page starts with the empty form, no error, not loading, no user and an empty name |
| TutoringForm.NewTutoringRequestPage.CheckUser | app/dashboard/student/tutoring/new/page.tsx:31-50 | the user and name are set exactly when the student guard passes |
| TutoringForm.NewTutoringRequestPage.HandleSubmit | app/dashboard/student/tutoring/new/page.tsx:55-88 | a failed check shows its message and inserts nothing; otherwise the pending row is inserted, then the page goes to the tutoring list or shows the caught message |
| RegisterForm.RedirectUrl | app/auth/register/page.tsx:57-58 | the confirmation link is the configured development URL when it is non-empty, otherwise the verification page on the current origin |
| RegisterForm.ValidateRegistration | app/auth/register/page.tsx:37-60 | different passwords are reported before a missing role; the sign-up call passes exactly when both hold, and carries the e-mail, the password and the redirect URL |
| RegisterForm.ProfileFieldsNotSent | app/auth/register/page.tsx:43-60 | the name, age, level and the particular role chosen do not change the sign-up call, so the level is never required |
| RegisterForm.RegisterPage.constructor | app/auth/register/page.tsx:18-28 | the page starts with the empty form, no error and not loading |
| RegisterForm.RegisterPage.HandleRegister | app/auth/register/page.tsx:31-74 | a failed check shows its message and calls nothing; a thrown sign-up error shows the caught message; the page goes to the verification page only when a user is returned |
| CompleteProfile.CompleteProfileEntry | app/auth/complete-profile/page.tsx:36-54 | no user goes to the login page; a user whose profile exists goes to that role's dashboard; a user without one stays |
| CompleteProfile.AgeField | app/auth/complete-profile/page.tsx:84 | an empty age is null, and any other text is what `parseInt` reads from it, so the emptiness test changes nothing |
| CompleteProfile.ValidateProfile | app/auth/complete-profile/page.tsx:65-87 | a missing role is reported before a missing user; the row has the user's id and e-mail, the form's name, the parsed age, the role and the level or null |
| CompleteProfile.TypedAgeIsStored | app/auth/complete-profile/page.tsx:84 | an age typed as an integer of magnitude at most `Number.MAX_SAFE_INTEGER` is stored as that integer |
| CompleteProfile.TutorRowMayCarryLevel | app/auth/complete-profile/page.tsx:86 | a level chosen while "student" was selected survives a switch to "tutor" and is stored with the tutor's row |
| CompleteProfile.UserEmail | app/auth/complete-profile/page.tsx:42 | the e-mail is the user's, or "" when the user has none |
| CompleteProfile.StoredProfile | app/auth/complete-profile/page.tsx:80-87 | the stored profile carries the inserted id, e-mail, name, age, role and level, with both timestamps at the insert time |
| CompleteProfile.InsertProfile | app/auth/complete-profile/page.tsx:80-87 | a successful insert adds exactly the new row under its id, changes no other row and keeps the table keyed by id |
| CompleteProfile.CompletedProfileOpensDashboard | app/auth/complete-profile/page.tsx:80-96 | once the row is stored, the guard of the chosen role passes with it, and revisiting the page forwards to that role's dashboard |
| CompleteProfile.CompleteProfilePage.constructor | app/auth/complete-profile/page.tsx:17-26 | the page starts with the empty form, no error, not loading, no user id and an empty e-mail |
| CompleteProfile.CompleteProfilePage.CheckUser | app/auth/complete-profile/page.tsx:30-55 | navigates as the entry decision says; records the user id and e-mail whenever there is a user, before the profile lookup |
| CompleteProfile.CompleteProfilePage.SelectRole | app/auth/complete-profile/page.tsx:152 | choosing a role keeps every other field, the level included |
| CompleteProfile.CompleteProfilePage.HandleSubmit | app/auth/complete-profile/page.tsx:60-102 | a failed check shows its message and inserts nothing; otherwise the row is inserted, then the page goes to the chosen role's dashboard or shows the caught message |
| Query.Where | app/dashboard/student/tutoring/page.tsx:32-33 | a row is kept exactly when it is in the table and matches |
| Query.WhereCounts | app/dashboard/student/tutoring/page.tsx:32-33 | a filter keeps each matching row as often as it occurs and no other row |
| Query.OrderBy | app/dashboard/student/tutoring/page.tsx:34 | the result is a permutation of the rows, sorted by the key in the requested direction, NULL being the largest key |
| Query.Limit | app/dashboard/student/page.tsx:32 | `.limit(n)` keeps a prefix of the result, of length `n` or the whole result when it is shorter |
| Query.LimitWithinRows | app/dashboard/student/page.tsx:32 | a limited result holds no row more often than the full result |
| Query.LimitKeepsTop | app/dashboard/student/page.tsx:32 | a limited sorted result stays sorted and holds only rows of it, and no row that was cut off may come before a row that was kept |
| Query.WhereAppend | app/dashboard/tutor/page.tsx:43-46 | a row added to a table is matched exactly when it satisfies the filter, and earlier matches are unchanged |
| Query.Select | app/dashboard/tutor/requests/page.tsx:28-46 | a filtered, ordered query holds each matching row as often as the table does, no other row, in the requested order, one row per matching position |
| Query.SelectTop | app/dashboard/student/page.tsx:27-32 | a filtered, ordered, limited query holds `min(n, number of matching rows)` rows in order, each matching and appearing no more often than in the table, and no matching row left out comes before one shown |
| Query.WhereLength | app/dashboard/tutor/page.tsx:49-53 | a filter keeps one row per matching position |
| Query.CountWhere | app/dashboard/tutor/page.tsx:43-53 | an exact count query gives the number of matching positions |
| Query.ShownLength | app/dashboard/student/tutoring/page.tsx:75-77 | `list?.length \|\| 0` is the list's length, or 0 without data |
| StudentDashboard.LevelOrDefault | app/dashboard/student/page.tsx:30 | the profile's level, or `primaria` when it is unset |
| StudentDashboard.RecentContent | app/dashboard/student/page.tsx:27-32 | at most 3 contents, all of the level, newest first, each no more often than in the table; fewer than 3 only when that is all there is, and none left out is newer than one shown |
| StudentDashboard.RecentContentLength | app/dashboard/student/page.tsx:27-32 | the card holds exactly 3 contents, or as many as the level has when that is fewer |
| StudentDashboard.RecentResults | app/dashboard/student/page.tsx:35-40 | at most 3 results, all the student's own, latest first, each no more often than in the table; fewer than 3 only when that is all there is, and none left out is later than one shown |
| StudentDashboard.RecentResultsLength | app/dashboard/student/page.tsx:35-40 | the card holds exactly 3 results, or as many as the student has when that is fewer |
| StudentDashboard.IsActive | app/dashboard/student/page.tsx:47 | a status is pending or accepted exactly when it is neither completed nor cancelled |
| StudentDashboard.ActiveRequests | app/dashboard/student/page.tsx:43-49 | at most 3 requests, all the student's own and pending or accepted, newest first, each no more often than in the table; fewer than 3 only when that is all there is, and none left out is newer than one shown |
| StudentDashboard.ActiveRequestsLength | app/dashboard/student/page.tsx:43-49 | the card holds exactly 3 requests, or as many active ones as the student has when that is fewer |
| StudentDashboard.ScoreOrZero | app/dashboard/student/page.tsx:103 | `result.score \|\| 0` is the score, or 0 when it is null |
| StudentDashboard.ReduceScores | app/dashboard/student/page.tsx:103 | the left fold of the `reduce` is its start value plus the sum of the scores, a null score adding nothing |
| StudentDashboard.RoundHalfUp | app/dashboard/student/page.tsx:102-105 | the result is within one half of the quotient, a quotient exactly halfway going to the larger integer |
| StudentDashboard.RoundHalfUpUnique | app/dashboard/student/page.tsx:102 | the rounded value is the only integer that close to the quotient |
| StudentDashboard.AverageScore | app/dashboard/student/page.tsx:101-106 | the average is 0 without results; otherwise it is the sum of the scores divided by their number, rounded to the nearest integer with halves rounded up |
| StudentDashboard.SumWithin | app/dashboard/student/page.tsx:103 | the sum of n scores within `[lo, hi]`, missing ones counting as 0, lies within `[n*lo, n*hi]` |
| StudentDashboard.AverageWithin | app/dashboard/student/page.tsx:102-105 | the average of scores within `[lo, hi]` lies within `[lo, hi]` |
| StudentDashboard.BestScore | app/dashboard/student/page.tsx:103 | the largest score among the results, missing ones counting as 0 |
| StudentDashboard.AverageBetweenZeroAndBest | app/dashboard/student/page.tsx:101-106 | with non-negative scores the average lies between 0 and the best listed score, and is 0 without results |
| StudentDashboard.StudentHomePage | app/dashboard/student/page.tsx:9-51 | the page redirects exactly as the student guard says; otherwise it shows the three lists and the average of the listed results |
| StudentDashboard.StatsCapped | app/dashboard/student/page.tsx:67-89 | the content, completed and active cards never show more than 3 |
| StudentEvaluations.CompletedIds | app/dashboard/student/evaluations/page.tsx:33-39 | an id is marked completed exactly when the student has a result for it |
| StudentEvaluations.DuplicateResultChangesNothing | app/dashboard/student/evaluations/page.tsx:39 | a second result for a completed evaluation changes no mark |
| StudentEvaluations.NoResultsNothingCompleted | app/dashboard/student/evaluations/page.tsx:39 | without results of the student nothing is marked completed |
| StudentEvaluations.OthersResultsIgnored | app/dashboard/student/evaluations/page.tsx:36-38 | other students' results mark nothing |
| StudentEvaluations.ButtonLabel | app/dashboard/student/evaluations/page.tsx:79 | "Ver Resultados" exactly for a completed evaluation, "Comenzar" exactly for the others |
| StudentEvaluations.LevelEvaluations | app/dashboard/student/evaluations/page.tsx:27-31 | each evaluation of the level, as often as stored, no other, newest first |
| StudentEvaluations.Cards | app/dashboard/student/evaluations/page.tsx:51-79 | one card per listed evaluation, in order, marked exactly when its id is completed and labelled accordingly |
| StudentEvaluations.StudentEvaluationsPage | app/dashboard/student/evaluations/page.tsx:16-52 | the page redirects as the student guard says; otherwise it shows the level's evaluation cards with the student's completion marks |
| StudentEvaluations.CardMarksOwnResults | app/dashboard/student/evaluations/page.tsx:52-79 | a card says "Ver Resultados" exactly when the student has a result for its evaluation, and shows a stored evaluation |
| RequestTabs.StatusTabsDisjoint | app/dashboard/student/tutoring/page.tsx:29-48 | tabs split by status share no request and show no cancelled request |
| RequestTabs.CountTabs | app/dashboard/tutor/requests/page.tsx:65-67 | each tab count is the length of its list, 0 without data |
| StudentTutoring.OwnRequests | app/dashboard/student/tutoring/page.tsx:29-48 | a tab holds each of the student's requests of its status as often as stored, no other, in its order |
| StudentTutoring.StudentTabs | app/dashboard/student/tutoring/page.tsx:29-48 | pending, accepted and completed tabs of the student's own requests: pending newest created first, accepted earliest scheduled first, completed latest updated first |
| StudentTutoring.StudentTabsOwnAndByStatus | app/dashboard/student/tutoring/page.tsx:29-48 | every request shown is the student's own and in the tab of its status |
| StudentTutoring.StudentTabsPartition | app/dashboard/student/tutoring/page.tsx:29-48 | together the tabs hold each of the student's non-cancelled requests exactly as often as the table does |
| StudentTutoring.StudentTutoringPage | app/dashboard/student/tutoring/page.tsx:18-77 | the page redirects as the student guard says; otherwise it shows the tabs with their lengths as counts |
| TutorRequests.AllPending | app/dashboard/tutor/requests/page.tsx:28-32 | every pending request, whoever it is assigned to, newest first |
| TutorRequests.AssignedRequests | app/dashboard/tutor/requests/page.tsx:35-46 | each of the tutor's own requests of the status, as often as stored, in the tab's order |
| TutorRequests.TutorTabs | app/dashboard/tutor/requests/page.tsx:28-46 | the three tabs: all pending newest first, own accepted earliest scheduled first, own completed latest updated first |
| TutorRequests.TutorTabsShowWhat | app/dashboard/tutor/requests/page.tsx:28-46 | the pending tab shows exactly the pending requests; the others show only the tutor's own; each tab holds only its status |
| TutorRequests.PendingSameForAllTutors | app/dashboard/tutor/requests/page.tsx:28-32 | the pending query has no parameter that depends on the tutor, so every tutor's page issues the same query and gets the same tab |
| TutorRequests.TutorRequestsPage | app/dashboard/tutor/requests/page.tsx:17-67 | the page redirects as the tutor guard says; otherwise it shows the tabs with their lengths as counts |
| TutorDashboard.NewestPending | app/dashboard/tutor/page.tsx:27-32 | at most 5 pending requests, newest first; fewer only when that is all, and none left out is newer than one shown |
| TutorDashboard.Upcoming | app/dashboard/tutor/page.tsx:156 | the first 3 accepted requests, or all when fewer; none left out is scheduled earlier than one shown |
| TutorDashboard.ContentCount | app/dashboard/tutor/page.tsx:43-46 | the number of content rows created by the tutor |
| TutorDashboard.CompletedCount | app/dashboard/tutor/page.tsx:49-53 | the number of the tutor's completed requests |
| TutorDashboard.TutorHome | app/dashboard/tutor/page.tsx:27-53 | the view: newest pending, the tutor's accepted requests earliest first, the upcoming three, and both counts |
| TutorDashboard.DashboardAgreesWithRequestsPage | app/dashboard/tutor/page.tsx:27-53 | the completed count equals the length of the request page's completed tab; both pages list the same accepted requests as often as stored; the pending card holds rows of the pending tab, five of them or all when fewer, and no pending row left out is newer than one shown |
| TutorDashboard.PendingCardHeadsTab | app/dashboard/tutor/page.tsx:27-32 | the pending card holds rows of the full pending query, five or all when fewer |
| TutorDashboard.CompletedCardCountsTab | app/dashboard/tutor/page.tsx:49-53 | the completed count is the number of rows of the completed query |
| TutorDashboard.TutorHomePage | app/dashboard/tutor/page.tsx:9-53 | the page redirects as the tutor guard says; otherwise it shows the tutor's view |
| TutorDashboard.PendingCardCapped | app/dashboard/tutor/page.tsx:27-32 | the pending card shows at most 5 and the upcoming list at most 3 |
| Journeys.RoleMismatchEndsOnOwnDashboard | app/dashboard/tutor/page.tsx:22-24 | a role mismatch leads to the profile-completion page, which forwards to the user's own dashboard, whose guard lets them in |
| Journeys.NoProfileStaysOnForm | app/auth/complete-profile/page.tsx:45-54 | a user without a profile is sent to the completion page and stays there |
| Journeys.NewRequestIsPendingEverywhere | app/dashboard/student/tutoring/new/page.tsx:73-78 | a stored new request is pending on the student's page and on every tutor's request page, and accepted on neither the student's page nor any tutor's |
| Journeys.NewContentIsCounted | app/dashboard/tutor/content/new/page.tsx:78-85 | stored new content raises its tutor's content count by one |

## Left out

- Backend calls: the user, the sessions, the tables and the outcomes of inserts and of sign-up are inputs. The network, the database and the auth service are not modelled.
- Query failures: a failed query's `data` is null. The model always gives a page its rows. `ShownLength` still captures the `|| 0` of the counts.
- Joined columns: the joined rows that some queries select (`evaluations(*)`, the requester's or tutor's profile) are not part of the model. They are only rendered.
- Generated columns: ids and timestamps come from the database. `StoredProfile`, `StoredRequest` and `StoredContent` take them as parameters. They assume the omitted columns get empty defaults and both timestamps are the insert time; the table schema is not part of this model.
- Async and concurrency: `isLoading`, the ordering of awaited calls and races between submissions are not modelled. Every handler is one atomic step that ends with `isLoading` false.
- EvaluationEditor.NewEvaluationPage.UpdateOption: writes the new option list into a fresh copy of the question. The source writes it into the question object shared with the previous state (line 79). That aliasing has no effect the page can observe and is not modelled.
- EvaluationEditor.NewEvaluationPage.UpdateOption: requires an index of an existing option. An index past the end would make the source's array assignment extend the option list. The page only edits the option inputs it renders.
- EvaluationEditor.NewEvaluationPage.UpdateQuestion: requires an index of an existing question. An index past the end would extend the array and crash the render. The page only edits questions it shows.
- EvaluationEditor.NewEvaluationPage.UpdateQuestion: requires one of the edits the page issues, the question text (line 241) or the radio button of an existing option (lines 256-260). A write of the `options` field, which the page never issues, is covered by `WithQuestionEdited` but not by the method.
- LegacyAuth.PageProtection: requires a profile when a role is required and there is a session, as `Browser.ProtectPage` does. Without one, `profile.role` throws at js/auth.js:41.
- LegacyAuth.Browser.ProtectPage: requires a profile when a role is required and there is a session. Without one, `profile.role` throws at js/auth.js:41.
- Numbers.ParseInt: leading whitespace and `0x` prefixes are not modelled. A number field never holds them.
- Numbers.ParseInt: returns the exact integer. JavaScript rounds it to a double, which differs from it for magnitudes above `Number.MAX_SAFE_INTEGER`; ParseIntReadsWrittenInteger and TypedAgeIsStored are stated only up to that bound.
- Browser-enforced constraints: the HTML `required`, `min`/`max` and `minLength` attributes are not part of the handlers and are not modelled.
- Form field edits: the `onChange` updates of plain text fields are direct assignments. Only the role choice of the profile form is modelled (`SelectRole`), because it is the one whose effect matters.
- Query.OrderBy: rows with equal keys keep table order in every query. The backend may break ties differently in each query. Each modelled order is one the backend may return. Members relating two different queries (TutorDashboard.DashboardAgreesWithRequestsPage) state agreement on rows, not order.
- Dates: `Date` and `toLocaleString` formatting are not modelled. Timestamps are integers that only order rows.
- Floating point: `Math.round` of a float quotient is modelled exactly as an integer rounding of `sum / n`. That agrees with the source for integer scores.
- Lifecycle transitions and quiz scoring: accepting, completing or cancelling a request, and scoring a submitted quiz, happen in routes outside this model. The pages only link to them.
- Presentation only: the landing page, the e-mail verification page, the layout and navigation components, and the JSX of every page.
- Pages that add only the shared guard and one query: the tutor's content and evaluation lists, the forum, the profile pages, and the subjects page's per-subject count queries.
- `js/config.js` only constructs the global client.
