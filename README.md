# Samyoga studio portal — a verified Dafny model

Samyoga is a portal for a yoga studio. Students register and fill in a questionnaire. An admin approves or rejects them. Approved students book classes and see their classes, payments and progress. Admins schedule classes, search students, chat with an assistant that knows the studio's figures, and generate posters.

This project models the checkable core of the portal:

- the API route handlers that guard, validate and write the studio's tables (booking, registration, approval, questionnaire, scheduling);
- the read routes (a student's classes, progress);
- the AI chat route and the two poster-generation routes;
- credential sign-in and its token and session callbacks;
- the public-route classifier;
- the blog loader and the video embed component;
- the list logic and click handlers of the admin AI and creative pages, the student classes and payments pages, and the admin students page.

The database is the class `Store.Studio`, one `seq` per table plus the `AIMemory` map and an id counter. Its invariant `Valid()` holds the schema's unique constraints, the booking foreign key and the rule that no class holds more bookings than `maxStudents`. Every route that writes is a method with `modifies db`. It states its status code and body and the whole new state of every table. Read routes are functions over the tables. The stateful page pieces (`AiPanel.ChatPanel`, `CreativePanel.CreativePage`, `Video.VideoPlayer`) are classes whose fields are their state, with the click handlers as methods. The pure page logic (`ClassesPage`, `PaymentsPage`, `StudentsPage`, `PageGuards`) is modules of functions and lemmas.

Several things become parameters, so that contracts can say what was sent and what came back:

- the clock;
- the calendar-day function;
- the bcrypt hash and comparison;
- the Gemini calls;
- `fetch` from the pages;
- the blog directory listing and parsed files.

Other models used here:

- Ids are natural numbers issued by the counter.
- Timestamps are integers.
- Payment amounts are integers.
- Strings are `seq<char>`, and white space and case folding are ASCII only.

Modules, one per source file:

- `BookRoute`, `RegisterRoute`, `ApproveRoute`, `QuestionnaireRoute`, `ScheduleRoute`, `ClassesRoute`, `ProgressRoute` model the API routes.
- `ChatRoute`, `GenerateRoute`, `GenerateRestRoute` model the AI routes.
- `Auth`, `Middleware`, `Blog`, `Video` model auth.ts, middleware.ts, lib/blog.ts and VideoSection.tsx.
- `AiPanel`, `CreativePanel`, `ClassesPage`, `PaymentsPage`, `StudentsPage` and `PageGuards` model the pages.
- Supporting modules:
  - `Schema` holds the table rows and the enums of types/database.ts.
  - `Store` holds the tables.
  - `Sessions` holds the session value the routes check.
  - `Http` holds the responses.
  - `RegisterSignIn` relates the register route to sign-in.
  - `Wrappers`, `Text`, `Seqs` and `Sorting` are helpers.

## Model

| member | source | states |
|---|---|---|
| Store.Studio.AddUser | samyoga/app/api/auth/register/route.ts:40-48 | a user row with the next id is appended; the tables stay valid, email uniqueness included, and no other table changes |
| Store.Studio.SetUserStatus | samyoga/app/api/admin/approve/route.ts:28-33 | the users table becomes `WithStatus` of the old one; every other table and the counter are unchanged |
| Store.Studio.StampReviews | samyoga/app/api/admin/approve/route.ts:36-42 | the registrations become `WithReview` of the old ones; nothing else changes |
| Store.Studio.UpsertRegistration | samyoga/app/api/register/questionnaire/route.ts:21-41 | the registrations become `Upsert` of the old ones with the next id; at most one registration per user is kept |
| Store.Studio.AddClass | samyoga/app/api/admin/schedule/route.ts:63-75 | the class built from the arguments with the next id is appended; the capacity rule still holds |
| Store.Studio.PutMemory | samyoga/app/api/admin/ai/chat/route.ts:30-41 | the memory map gets the key set to the entry, as an upsert; the tables are unchanged |
| Store.Studio.AddBooking | samyoga/app/api/dashboard/classes/book/route.ts:48-54 | a booking with the next id is appended when the class has room; the tables, capacity rule included, stay valid |
| Store.FindById | samyoga/app/api/dashboard/classes/book/route.ts:28-38 | `findUnique` by id, used on the Class table (book route) and the User table (samyoga/app/api/admin/approve/route.ts:28-33): the result is a row with that id, and it is absent exactly when no row has that id |
| Store.Upsert | samyoga/app/api/register/questionnaire/route.ts:21-41 | the upsert keyed on userId; `UpsertValid` shows it keeps one registration per user, and `UpsertLeavesOneRow`, `UpsertKeepsOthers` and `UpsertRowIdentity` fix its update and create branches |
| Store.BookingsOfClass | samyoga/app/api/dashboard/classes/book/route.ts:28-31 | the bookings a class `include`s, whatever their status; `BookingsOfClassSnoc` shows an appended booking counts only for its own class, and `Valid()` bounds their number by `Capacity` |
| Store.Capacity | samyoga/app/api/dashboard/classes/book/route.ts:40-45 | the number of bookings `bookings.length >= maxStudents` admits (none for a negative maximum); `BookingKeepsTablesValid` shows a booking made below it keeps the capacity rule |
| Store.WithStatus | samyoga/app/api/admin/approve/route.ts:28-33 | same length; rows with the id take the new status and all other rows are unchanged |
| Store.WithReview | samyoga/app/api/admin/approve/route.ts:36-42 | same length; the user's rows get `reviewedAt` and `reviewedBy` and all other rows are unchanged |
| Store.BookingsOfClassSnoc | samyoga/app/api/dashboard/classes/book/route.ts:28-31 | an appended booking counts only for its own class |
| Store.BookingKeepsTablesValid | samyoga/app/api/dashboard/classes/book/route.ts:40-54 | appending a booking to a class that is not full keeps every table invariant, capacity included |
| Store.ClassAddedWithinCapacity | samyoga/app/api/admin/schedule/route.ts:63-75 | a new class with a fresh id has no bookings, so the capacity rule survives its insertion |
| Store.UserAddedValid | samyoga/app/api/auth/register/route.ts:28-48 | a user whose email is not taken can be appended without breaking email or id uniqueness |
| Store.UpsertValid | samyoga/app/api/register/questionnaire/route.ts:21-41 | the upsert keeps registration ids unique and one registration per user |
| Schema.OrNull | samyoga/app/api/register/questionnaire/route.ts:24-29 | `value \|\| null`: null exactly for the empty string, otherwise the string itself |
| BookRoute.Post | samyoga/app/api/dashboard/classes/book/route.ts:11-63 | 401, then 400 for a missing class id, then 404, then 400 "Class is full", in that order, each leaving the store unchanged; success happens exactly when every guard passes, appends one CONFIRMED booking for the session user and that class, leaves the other tables alone and keeps the class within capacity |
| BookRoute.RepeatBookingAccepted | samyoga/app/api/dashboard/classes/book/route.ts:40-54 | while a place is left after it, a user's own new booking does not stop the same user booking the same class again |
| RegisterRoute.PlainPieces | samyoga/app/api/auth/register/route.ts:17-20 | splitting an address with no blanks and one '@' at the '@' and at a later '.' gives three pieces with neither |
| RegisterRoute.EmailPatternShape | samyoga/app/api/auth/register/route.ts:17-20 | the address pattern holds iff the string has no white space, exactly one '@' with something before it, and a '.' after the '@' with a character on each side |
| RegisterRoute.Validate | samyoga/app/api/auth/register/route.ts:12-34 | presence, format, length and duplicate checks, in that order, the first failure deciding the message; with no failure the body is acceptable, and vice versa |
| RegisterRoute.RegisteredRow | samyoga/app/api/auth/register/route.ts:40-48 | a PENDING STUDENT row with the given id and hash, the email as sent, no image, and the name or null |
| RegisterRoute.Post | samyoga/app/api/auth/register/route.ts:10-63 | a validation failure answers 400 with its message; a failed hash answers 500; otherwise the registered row is appended and 201 carries its id; failures leave the store unchanged |
| RegisterRoute.SecondRegistrationRefused | samyoga/app/api/auth/register/route.ts:28-34 | once a body's email is stored, the same body is refused as a duplicate |
| RegisterRoute.DuplicateIsCaseSensitive | samyoga/app/api/auth/register/route.ts:28-43 | a stored email that differs from the sent one, for instance only in case, does not make it a duplicate |
| ApproveRoute.Decision | samyoga/app/api/admin/approve/route.ts:28-33 | APPROVED exactly for true and REJECTED exactly for false |
| ApproveRoute.Post | samyoga/app/api/admin/approve/route.ts:10-54 | 401 for a non-admin, 400 for a missing id or decision, 500 when no user has that id, each leaving the store unchanged; otherwise the user's status is replaced, every registration of that user is stamped with the instant and the admin's id, other tables are unchanged and the response holds the updated user |
| ApproveRoute.DecisionIgnoresPriorStatus | samyoga/app/api/admin/approve/route.ts:28-33 | the transition ignores the current status: deciding after any earlier status change leaves the users as deciding on the original table |
| ApproveRoute.StatusIdempotent | samyoga/app/api/admin/approve/route.ts:28-33 | repeating the same decision leaves the users as the first call left them |
| ApproveRoute.ReviewIdempotent | samyoga/app/api/admin/approve/route.ts:36-42 | repeating the same stamp leaves the registrations as the first call left them |
| ApproveRoute.LastReviewWins | samyoga/app/api/admin/approve/route.ts:36-42 | a second review of the same user overrides the first: only the last instant and admin remain |
| QuestionnaireRoute.AnswersOf | samyoga/app/api/register/questionnaire/route.ts:24-29 | each of the six answers is null when empty and the sent text otherwise; nothing else of the body is read |
| QuestionnaireRoute.Post | samyoga/app/api/register/questionnaire/route.ts:10-46 | 401 and no change without a session user id; otherwise the session user's registration is upserted with the normalised answers and the instant, other tables are unchanged and the answer is 200 |
| QuestionnaireRoute.UpsertLeavesOneRow | samyoga/app/api/register/questionnaire/route.ts:21-23 | after the upsert exactly one registration belongs to the user, and it holds the submitted answers and instant |
| QuestionnaireRoute.UpsertKeepsOthers | samyoga/app/api/register/questionnaire/route.ts:21-41 | other users' rows keep their place and contents, and at most one row is added |
| QuestionnaireRoute.UpsertRowIdentity | samyoga/app/api/register/questionnaire/route.ts:30-40 | an existing row keeps its id and review fields and gets the new answers and instant; otherwise a fresh unreviewed row is appended |
| ScheduleRoute.Summary | samyoga/app/api/admin/schedule/route.ts:27-38 | every listed field of the class (id, title, description, type, start, duration, capacity, meet link), with `bookingsCount` the number of its bookings of any status |
| ScheduleRoute.SummaryOf | samyoga/app/api/admin/schedule/route.ts:27-38 | the `map` callback over the classes; `Listing` proves the listing is exactly these summaries, permuted |
| ScheduleRoute.LaterFirst | samyoga/app/api/admin/schedule/route.ts:19 | `orderBy: { date: 'desc' }`; `LaterFirstTotal` proves it a total preorder, and `Listing` that the listing is sorted by it |
| ScheduleRoute.LaterFirstTotal | samyoga/app/api/admin/schedule/route.ts:18-25 | "later date first" is a total preorder, so sorting by it is well defined |
| ScheduleRoute.Listing | samyoga/app/api/admin/schedule/route.ts:18-38 | one summary per class, a permutation of the classes' summaries, latest date first, each count being the class's bookings |
| ScheduleRoute.ListingHasEveryClass | samyoga/app/api/admin/schedule/route.ts:18-38 | every class appears in the listing |
| ScheduleRoute.Get | samyoga/app/api/admin/schedule/route.ts:9-49 | 401 for a non-admin; otherwise 200 with the listing of the current tables |
| ScheduleRoute.Post | samyoga/app/api/admin/schedule/route.ts:52-84 | 401 and no change for a non-admin; otherwise one SCHEDULED class with the fixed instructor, description and link null when empty and the next id is appended, other tables unchanged, answered 201 with the class |
| ScheduleRoute.NewClassHasNoBookings | samyoga/app/api/admin/schedule/route.ts:63-77 | a freshly created class is listed with zero bookings |
| ClassesRoute.BookingStatusFor | samyoga/app/api/dashboard/classes/route.ts:22-39 | none exactly when the user has no booking of the class; otherwise the status of the user's first booking of it in table order |
| ClassesRoute.UniformStatusShown | samyoga/app/api/dashboard/classes/route.ts:22-38 | when every booking of the user for the class has one status, that status is shown, whatever order the rows come in |
| ClassesRoute.OtherUsersIrrelevant | samyoga/app/api/dashboard/classes/route.ts:24 | the status is the same when computed from the user's bookings only |
| ClassesRoute.Entry | samyoga/app/api/dashboard/classes/route.ts:30-40 | every listed field of the class (id, title, description, type, start, duration, capacity, meet link) with the user's booking status |
| ClassesRoute.EntryOf | samyoga/app/api/dashboard/classes/route.ts:30-40 | the `map` callback over the classes; `ClassList` proves the list is exactly these entries, one per class |
| ClassesRoute.EarlierFirst | samyoga/app/api/dashboard/classes/route.ts:21 | `orderBy: { date: 'asc' }`; `EarlierFirstTotal` proves it a total preorder, and `ClassList` that the list is sorted by it |
| ClassesRoute.EarlierFirstTotal | samyoga/app/api/dashboard/classes/route.ts:20-21 | "earlier date first" is a total preorder |
| ClassesRoute.ClassList | samyoga/app/api/dashboard/classes/route.ts:20-40 | exactly one entry per class, of any status, a permutation of the entries, earliest date first, each with the user's booking status |
| ClassesRoute.Get | samyoga/app/api/dashboard/classes/route.ts:10-49 | 401 unless the session has a user id and is APPROVED; otherwise 200 with the class list for that user |
| ProgressRoute.Days | samyoga/app/api/dashboard/progress/route.ts:28-39 | the set of calendar days of the bookings' class dates: a day is in it iff some booking's class falls on it |
| ProgressRoute.DaysAtMostBookings | samyoga/app/api/dashboard/progress/route.ts:37-39 | there are no more practice days than bookings |
| ProgressRoute.Latest | samyoga/app/api/dashboard/progress/route.ts:42-49 | absent exactly for no bookings; otherwise a booking created no earlier than any other |
| ProgressRoute.RecordedLaterFirstTotal | samyoga/app/api/dashboard/progress/route.ts:52-56 | "recorded later first" is a total preorder |
| ProgressRoute.RecordsLatestFirst | samyoga/app/api/dashboard/progress/route.ts:52-56 | the user's progress records, permuted into most-recent-first order |
| ProgressRoute.TopRecords | samyoga/app/api/dashboard/progress/route.ts:52-56 | at most ten of the user's records, ten when there are that many, sorted most recent first, drawn from the user's records |
| ProgressRoute.TopRecordsAreTheUsers | samyoga/app/api/dashboard/progress/route.ts:52-56 | every kept record belongs to the user |
| ProgressRoute.TopRecordsAreLatest | samyoga/app/api/dashboard/progress/route.ts:52-56 | a record of the user that was not kept was recorded no later than any kept one |
| ProgressRoute.Summary | samyoga/app/api/dashboard/progress/route.ts:20-66 | attended count is the user's ATTENDED bookings; practice days count distinct days over all the user's bookings; the last practice date is absent iff nothing was attended and is otherwise the class date of the latest attended booking; at most ten goals, from the top records |
| ProgressRoute.Get | samyoga/app/api/dashboard/progress/route.ts:10-74 | 401 unless an APPROVED session user; otherwise exactly 200 with the summary of that user's bookings and progress rows |
| ChatRoute.CountsOf | samyoga/app/api/admin/ai/chat/route.ts:44-49 | the four counts, with approved students no more than students no more than users |
| ChatRoute.SystemContext | samyoga/app/api/admin/ai/chat/route.ts:51-65 | the status text with the four counts filled in; `ModelContentsShape` proves it is the first turn sent to the model |
| ChatRoute.ApprovedAreStudents | samyoga/app/api/admin/ai/chat/route.ts:44-49 | there are no more approved students than students |
| ChatRoute.Conversation | samyoga/app/api/admin/ai/chat/route.ts:120-125 | the system context, the fixed acknowledgement, the client history in order, then the new message |
| ChatRoute.LongerKeyword | samyoga/app/api/admin/ai/chat/route.ts:72-84 | a text containing a keyword's longer form contains the keyword, so the plural test adds nothing |
| ChatRoute.KeywordTests | samyoga/app/api/admin/ai/chat/route.ts:72-84 | each singular-or-plural keyword test is the same as the singular test |
| ChatRoute.OpeningHasNoMarker | samyoga/app/api/admin/ai/chat/route.ts:70 | the opening sentence contains neither "found" nor "There are" |
| ChatRoute.StudentSentenceMarked | samyoga/app/api/admin/ai/chat/route.ts:74-76 | the student sentence contains "found" |
| ChatRoute.ThereAreMarked | samyoga/app/api/admin/ai/chat/route.ts:77-83 | the class and payment sentences, which start with "There are", contain it |
| ChatRoute.MarkerIffTopic | samyoga/app/api/admin/ai/chat/route.ts:72-88 | the built sentences contain a marker iff at least one topic matched |
| ChatRoute.Fallback | samyoga/app/api/admin/ai/chat/route.ts:67-88 | the closed form of the fallback reply: the opening, one sentence per mentioned topic in the source's order, the help note iff none; `FallbackReply` proves the `+=` method with the marker test equals it |
| ChatRoute.SentencesBuilt | samyoga/app/api/admin/ai/chat/route.ts:72-84 | the successive appends give the sentences of the matched topics in the order students, classes, payments |
| ChatRoute.FallbackByTopics | samyoga/app/api/admin/ai/chat/route.ts:70-88 | the fallback is the opening, the matched sentences in order and the help note exactly when none matched |
| ChatRoute.FallbackReply | samyoga/app/api/admin/ai/chat/route.ts:70-88 | the `+=` loop of appends produces exactly the fallback reply |
| ChatRoute.FallbackStartsWithOpening | samyoga/app/api/admin/ai/chat/route.ts:67-70 | the fallback always starts with the opening sentence |
| ChatRoute.HelpNoteIffNoTopic | samyoga/app/api/admin/ai/chat/route.ts:86-88 | the fallback ends with the help note iff the lower-cased message names no topic |
| ChatRoute.ErrorResult | samyoga/app/api/admin/ai/chat/route.ts:155-171 | a message containing "API key" answers 401 and any other 500, each with an error and an apology |
| ChatRoute.ModelContentsShape | samyoga/app/api/admin/ai/chat/route.ts:120-132 | what is sent to the model is the system context built from the counts, the acknowledgement, the history, then the message |
| ChatRoute.ReplyOf | samyoga/app/api/admin/ai/chat/route.ts:67-132 | the fallback with no key; with a key a reply exists iff the model generated text, and then it is that text |
| ChatRoute.AnswerOf | samyoga/app/api/admin/ai/chat/route.ts:91-171 | 200 with the reply when there is one; otherwise the error mapping of the model's error message |
| ChatRoute.Stored | samyoga/app/api/admin/ai/chat/route.ts:30-41 | the latest-message key of the user holds the message; the response key holds a reply when there is one; no other key is added or changed |
| ChatRoute.Respond | samyoga/app/api/admin/ai/chat/route.ts:30-154 | the tables are unchanged; the answer and the new memory are `AnswerOf` and `Stored` with counts taken before the write |
| ChatRoute.Post | samyoga/app/api/admin/ai/chat/route.ts:11-171 | 401 for a non-admin and 400 for an empty message, both before any write; otherwise the tables are unchanged and the answer and memory are those of `AnswerOf` and `Stored` over the current counts |
| GenerateRoute.InheritedText | samyoga/app/api/admin/creative/generate/route.ts:39-47 | what the template renders for an inherited key: the `Object` constructor's source text, "[object Object]", or a built-in method's source text |
| GenerateRoute.StylePrompt | samyoga/app/api/admin/creative/generate/route.ts:39-47 | a truthy lookup exactly for the three known style names and the keys inherited from `Object.prototype`, the latter giving their rendered text |
| GenerateRoute.TypeSentence | samyoga/app/api/admin/creative/generate/route.ts:50-56 | empty exactly for a poster type that is not one of the three known ones |
| GenerateRoute.Prompt | samyoga/app/api/admin/creative/generate/route.ts:32-58 | the prompt as title, description, style, type and closing; `BuildPrompt` proves the `+=` appends equal it, and `PromptFrame`, `DescriptionInserted` and `Spliced` place its parts |
| GenerateRoute.BuildPrompt | samyoga/app/api/admin/creative/generate/route.ts:32-58 | the successive `+=` appends give the prompt: title part, description, style, type, closing |
| GenerateRoute.EmptyTitleIsYogaClass | samyoga/app/api/admin/creative/generate/route.ts:32 | an empty title gives the same prompt as "Yoga Class" |
| GenerateRoute.UnknownStyleIgnored | samyoga/app/api/admin/creative/generate/route.ts:39-47 | a style that is neither known nor an inherited key adds nothing to the prompt |
| GenerateRoute.ConstructorStyleAdded | samyoga/app/api/admin/creative/generate/route.ts:39-47 | the style "constructor" puts ". function Object() { [native code] }" into the prompt |
| GenerateRoute.UnknownTypeIgnored | samyoga/app/api/admin/creative/generate/route.ts:50-56 | an unknown poster type adds nothing to the prompt |
| GenerateRoute.PromptFrame | samyoga/app/api/admin/creative/generate/route.ts:32-58 | the prompt starts with the quoted title sentence and ends with the closing sentence |
| GenerateRoute.KnownStyleAdded | samyoga/app/api/admin/creative/generate/route.ts:39-47 | a known style's sentence occurs in the prompt |
| GenerateRoute.DescriptionInserted | samyoga/app/api/admin/creative/generate/route.ts:34-36 | a non-empty description is inserted as ". Description: …" after the title part; an empty one adds nothing |
| GenerateRoute.Spliced | samyoga/app/api/admin/creative/generate/route.ts:32-58 | the five parts of the prompt are found at their places in it |
| GenerateRoute.FirstInline | samyoga/app/api/admin/creative/generate/route.ts:97-99 | none exactly when no part has inline data; otherwise the data of the first part that has it |
| GenerateRoute.Reply | samyoga/app/api/admin/creative/generate/route.ts:83-113 | a non-OK answer is its status with "Failed to generate image" and the upstream error message, or the status text, as details; an OK readable answer is a poster iff some part has inline data, and then the first such part's data, MIME type and the prompt, otherwise a 500 "No image data in response"; no result only for a thrown call or unparsable JSON |
| GenerateRoute.CaughtError | samyoga/app/api/admin/creative/generate/route.ts:114-129 | a failure, with status 401 iff the message contains "API key" |
| GenerateRoute.Answer | samyoga/app/api/admin/creative/generate/route.ts:8-130 | the whole answer of the route; `GuardsBeforeRequest`, `FirstImageAnswered` and `PosterCarriesPrompt` state its guards and image result, and `Post` is proved equal to it |
| GenerateRoute.Post | samyoga/app/api/admin/creative/generate/route.ts:10-130 | 401 for a non-admin and 500 without an API key, both before any request; for an OK readable upstream answer, a poster iff some part has inline data, carrying the first such part's data, MIME type and the composed prompt, otherwise the 500 "No image data in response"; every other case as `Answer`, whose error mapping `CaughtError` states |
| GenerateRoute.GuardsBeforeRequest | samyoga/app/api/admin/creative/generate/route.ts:12-27 | for a non-admin (401) or a missing key (500) the answer does not depend on the upstream |
| GenerateRoute.FirstImageAnswered | samyoga/app/api/admin/creative/generate/route.ts:60-113 | for an admin with a key and an OK readable upstream answer: a poster iff some part has inline data, carrying the first such part's data and the prompt; otherwise the 500 without image |
| GenerateRoute.PosterCarriesPrompt | samyoga/app/api/admin/creative/generate/route.ts:62-113 | a poster answer means the composed prompt was sent and the upstream answered OK; it carries that prompt |
| GenerateRestRoute.CaughtAny | samyoga/app/api/admin/creative/generate-rest/route.ts:113-119 | every thrown error answers 500 with its message as details |
| GenerateRestRoute.RestAnswer | samyoga/app/api/admin/creative/generate-rest/route.ts:11-119 | the whole answer of the second route; `RoutesAgreeButForKeyErrors` relates it to `Answer`, and `RestFirstImageAnswered` and `No401FromThrownErrors` state its results |
| GenerateRestRoute.Post | samyoga/app/api/admin/creative/generate-rest/route.ts:13-120 | the same guards and the same first-inline-image result as the other route; thrown errors go through `CaughtAny` (always 500) |
| GenerateRestRoute.RoutesAgreeButForKeyErrors | samyoga/app/api/admin/creative/generate-rest/route.ts:22-119 | both routes give the same answer except where the other one maps a thrown "API key" error to 401 |
| GenerateRestRoute.RestFirstImageAnswered | samyoga/app/api/admin/creative/generate-rest/route.ts:59-112 | for an admin with a key and an OK readable upstream answer: a poster iff some part has inline data, carrying the first such part's data and the prompt; otherwise the 500 without image |
| GenerateRestRoute.No401FromThrownErrors | samyoga/app/api/admin/creative/generate-rest/route.ts:113-119 | a 401 from this route comes only from the guard or from an upstream 401 |
| Auth.LookupKeyChar | samyoga/auth.ts:21 | every character of the lookup key is a lower-cased character of the email |
| Auth.LookupKey | samyoga/auth.ts:21 | `email.toLowerCase().trim()`; `LookupKeyChar` and `LookupKeyIsLower` prove its characters are lower-cased email characters, and `CaseAndBlanksIgnored` that it ignores case and surrounding blanks |
| Auth.LookupKeyIsLower | samyoga/auth.ts:21 | the lookup key holds no upper-case letter |
| Auth.Single | samyoga/auth.ts:24-33 | a row exactly when one row has the key, and then that row |
| Auth.Authorized | samyoga/auth.ts:51-58 | exactly the row's id, email, name, image, role and status |
| Auth.Authorize | samyoga/auth.ts:13-63 | null for an empty email or password; otherwise a user iff exactly one row has the lowered, trimmed email, it has a password hash and the comparison succeeds, and then that row's six fields |
| Auth.SignedInEmailIsLookupKey | samyoga/auth.ts:21-58 | the signed-in email is the normalised one |
| Auth.UpperCaseRowNeverSignsIn | samyoga/auth.ts:21-33 | a stored email with an upper-case letter can never be the one signed in |
| RegisterSignIn.RegisteredMixedCaseLockedOut | samyoga/app/api/auth/register/route.ts:40-48 | a registered email with an upper-case letter is never the signed-in row, whatever the credentials |
| RegisterSignIn.AliceLockedOut | samyoga/app/api/auth/register/route.ts:40-48 | no credentials whatever sign in to an account registered as "Alice@example.com" |
| RegisterSignIn.NormalisedRow | samyoga/auth.ts:20-27 | the registered row with the email stored under its lookup key |
| RegisterSignIn.NormalisedRowSignsIn | samyoga/auth.ts:20-58 | with the email normalised at registration and no other row under that key, the new account signs in with the email as typed and its password |
| Auth.CaseAndBlanksIgnored | samyoga/auth.ts:21-27 | emails that differ only in case or surrounding blanks sign in alike |
| Auth.Token.constructor | samyoga/auth.ts:75-82 | a token with the given fields |
| Auth.AuthSession.constructor | samyoga/auth.ts:67-74 | a session with the given user fields |
| Auth.Jwt | samyoga/auth.ts:75-82 | with a user, the token gets its id, role and status; otherwise the token is unchanged |
| Auth.SessionCallback | samyoga/auth.ts:67-74 | with a session user and a token, the user gets the token's subject, role and status; otherwise the session is unchanged |
| Auth.SignIn | samyoga/auth.ts:67-82 | after both callbacks the session holds the row's id, role and status, so the route guards see the stored role and status |
| Middleware.SomePrefix | samyoga/middleware.ts:18 | true iff some listed prefix starts the path |
| Middleware.IsPublicRoute | samyoga/middleware.ts:8-18 | the `some(startsWith)` test over the seven prefixes; `PublicIffLeadingSlash` proves a path public iff it starts with "/" |
| Middleware.PublicIffLeadingSlash | samyoga/middleware.ts:8-18 | because "/" is listed, a path is classified public iff it starts with "/" |
| Middleware.PrefixesAreNotSegments | samyoga/middleware.ts:18 | "/aboutus" and "/authority" are classified public |
| Middleware.Handle | samyoga/middleware.ts:21-27 | the request always goes through, whatever the classification |
| Blog.StripSuffix | samyoga/lib/blog.ts:21-23 | the slug with ".md" appended is the file name |
| Blog.PostSlugs | samyoga/lib/blog.ts:16-24 | no slugs without a directory; otherwise one slug per markdown entry, in listing order, each the entry without its suffix |
| Blog.SlugsAreTheMarkdownEntries | samyoga/lib/blog.ts:21-23 | every slug names a listed markdown file, and every listed markdown file gives a slug |
| Blog.PostBySlug | samyoga/lib/blog.ts:26-47 | null iff the file is absent or unreadable; otherwise the requested slug, the body and each field or its default |
| Blog.LessIrreflexive | samyoga/lib/blog.ts:54-60 | no date string is before itself |
| Blog.LessTrichotomous | samyoga/lib/blog.ts:54-60 | two date strings are equal or one is before the other |
| Blog.LessTransitive | samyoga/lib/blog.ts:54-60 | the string order is transitive |
| Blog.NewerFirstTotal | samyoga/lib/blog.ts:54-60 | the comparator defines a total preorder |
| Blog.Less | samyoga/lib/blog.ts:54-60 | JavaScript's `<` on the date strings, lexicographic by character; `LessIrreflexive`, `LessTrichotomous` and `LessTransitive` make it a strict total order |
| Blog.Present | samyoga/lib/blog.ts:51-53 | exactly the readable posts of the listed slugs: each kept post is what its listed slug's file gives, and every readable slug's post is kept |
| Blog.PresentSingle | samyoga/lib/blog.ts:51-53 | one slug gives its post when its file is readable and nothing otherwise |
| Blog.PresentAppend | samyoga/lib/blog.ts:51-53 | the kept posts of two slug lists are those of the first followed by those of the second |
| Blog.AllPosts | samyoga/lib/blog.ts:49-63 | a permutation of the readable posts, sorted greatest date first |
| Blog.NoDirectoryNoPosts | samyoga/lib/blog.ts:17-19 | a missing directory gives no posts |
| Video.MarkerAt | samyoga/components/VideoSection.tsx:16 | a length exactly where one of the two markers starts, fitting in the string |
| Video.RunLength | samyoga/components/VideoSection.tsx:16 | the maximal run of id characters from a position |
| Video.FirstMatch | samyoga/components/VideoSection.tsx:15-17 | the leftmost position where a marker is followed by at least one id character, or none if there is no such position |
| Video.VideoId | samyoga/components/VideoSection.tsx:15-18 | the input when nothing matches; otherwise the maximal id run after the leftmost match |
| Video.RunIsClean | samyoga/components/VideoSection.tsx:16 | the run holds no '&', '?', '#' or newline |
| Video.MatchedIdIsClean | samyoga/components/VideoSection.tsx:15-17 | an id from a match is non-empty and clean |
| Video.BareIdKept | samyoga/components/VideoSection.tsx:17 | a string with no marker is its own id |
| Video.OnlyTheFlagDiffers | samyoga/components/VideoSection.tsx:23-25 | the muted and unmuted embed URLs of one id have the same length and differ only in the mute digit, '1' exactly when muted |
| Video.EmbedUrl | samyoga/components/VideoSection.tsx:23-25 | the fixed prefix, the id, `mute=1` iff muted, and the id again as the playlist; `OnlyTheFlagDiffers` proves the two mute states differ only in that digit |
| Video.VideoPlayer.constructor | samyoga/components/VideoSection.tsx:11-25 | the player starts muted, showing the muted embed URL of the extracted id |
| Video.VideoPlayer.ToggleMute | samyoga/components/VideoSection.tsx:27-35 | the mute flag flips and a mounted iframe shows the embed URL of the new state |
| AiPanel.RoleName | samyoga/app/admin/ai/page.tsx:61-64 | "user" exactly for the user and "model" for the assistant |
| AiPanel.History | samyoga/app/admin/ai/page.tsx:58-64 | at most ten entries |
| AiPanel.KeptMessages | samyoga/app/admin/ai/page.tsx:58-59 | a message survives iff it is a user message or an assistant message without "error" |
| AiPanel.HistoryLength | samyoga/app/admin/ai/page.tsx:60 | the history has ten entries, or fewer when fewer messages survive |
| AiPanel.HistoryIsTheLatestKept | samyoga/app/admin/ai/page.tsx:58-64 | entry i is the single text part, with the mapped role, of the i-th of the last surviving messages, in order |
| AiPanel.AssistantContent | samyoga/app/admin/ai/page.tsx:77-93 | the response, else the error, else the apology; the network apology when the request threw |
| AiPanel.ChatPanel.constructor | samyoga/app/admin/ai/page.tsx:23-25 | no messages, empty input, not loading |
| AiPanel.ChatPanel.Type | samyoga/app/admin/ai/page.tsx:192 | the input becomes the typed text and nothing else changes |
| Text.TrimEmptyIffBlank | samyoga/app/admin/ai/page.tsx:42 | `s.trim()` is empty, so falsy, exactly when every character of `s` is white space; the page handlers test blankness this way |
| AiPanel.ChatPanel.BeginSend | samyoga/app/admin/ai/page.tsx:40-73 | nothing happens for blank input or while loading; otherwise the request holds the text and the history of the earlier messages, the user message is appended, the input is cleared and loading starts |
| AiPanel.ChatPanel.FinishSend | samyoga/app/admin/ai/page.tsx:74-96 | exactly one assistant message with the derived content is appended and loading ends |
| AiPanel.ChatPanel.HandleSend | samyoga/app/admin/ai/page.tsx:40-97 | no request and no change iff the input is blank or a request is in flight; otherwise the messages grow by the user message and one assistant message, the input is empty and loading is over |
| CreativePanel.ImageUrl | samyoga/app/admin/creative/page.tsx:55 | a "data:" URL ending in the image data; `ImageUrlPieces` places the MIME type and ";base64," between them |
| CreativePanel.ImageUrlPieces | samyoga/app/admin/creative/page.tsx:55 | the URL splits into "data:", the MIME type, ";base64," and the image data, in that order |
| CreativePanel.PosterTitle | samyoga/app/admin/creative/page.tsx:56-60 | the title when given, otherwise "Poster n" with n one more than the poster count |
| CreativePanel.NewPoster | samyoga/app/admin/creative/page.tsx:53-67 | the form's fields, the data URL, the "generated" status and the instant |
| CreativePanel.FailureAlert | samyoga/app/admin/creative/page.tsx:49-82 | the route's error or a default for a failure answer, "no image" for an answer without image data, the thrown message or an apology otherwise; never empty |
| CreativePanel.Dashed | samyoga/app/admin/creative/page.tsx:93 | no longer than the title and free of white space |
| CreativePanel.DashedKeepsPlainTitles | samyoga/app/admin/creative/page.tsx:93 | a title without white space is kept as it is |
| CreativePanel.DashedRun | samyoga/app/admin/creative/page.tsx:93 | a word, then a run of white space, then the rest: the word is kept, the run becomes one "-" and the rest is dashed in turn |
| CreativePanel.DashedJoinsWords | samyoga/app/admin/creative/page.tsx:93 | a run of white space between two words becomes a single "-" |
| CreativePanel.SkipsBlanks | samyoga/app/admin/creative/page.tsx:93 | dropping leading white space removes exactly the blank run |
| CreativePanel.DownloadName | samyoga/app/admin/creative/page.tsx:88-97 | no download iff the poster has no image URL; otherwise the dashed title followed by "-poster.png", with no white space before the suffix |
| CreativePanel.CreativePage.constructor | samyoga/app/admin/creative/page.tsx:16-23 | no posters, not generating, the initial form |
| CreativePanel.CreativePage.HandleGeneratePoster | samyoga/app/admin/creative/page.tsx:33-86 | a blank title alerts and changes nothing; otherwise generating ends false; a success prepends the new poster and resets the form; any failure alerts and leaves the posters and form alone |
| CreativePanel.CreativePage.GenerateFromUntouchedForm | samyoga/app/admin/creative/page.tsx:18-37 | with the form as initialised, which no control changes, every click is refused with the title alert |
| CreativePanel.CreativePage.EditForm | samyoga/app/admin/creative/page.tsx:133-145 | the form becomes the edited one; posters and the flag are unchanged |
| CreativePanel.CreativePage.GenerateAfterEditing | samyoga/app/admin/creative/page.tsx:33-76 | with a titled form and a successful generator, one poster with that title is added at the front and the form is reset |
| ClassesPage.Upcoming | samyoga/app/dashboard/classes/page.tsx:89-91 | a class is upcoming iff it is dated no earlier than now and SCHEDULED |
| ClassesPage.Past | samyoga/app/dashboard/classes/page.tsx:92-94 | a class is past iff it is dated before now or COMPLETED |
| ClassesPage.UpcomingAndPastDisjoint | samyoga/app/dashboard/classes/page.tsx:89-94 | no class is in both lists |
| ClassesPage.NeitherList | samyoga/app/dashboard/classes/page.tsx:89-94 | a future class that is neither SCHEDULED nor COMPLETED is in neither list |
| ClassesPage.ListsKeepOrder | samyoga/app/dashboard/classes/page.tsx:89-94 | both lists keep input order: they distribute over concatenation |
| ClassesPage.Card | samyoga/app/dashboard/classes/page.tsx:157-178 | "Booked" iff the booking status is CONFIRMED, with the join link when there is one |
| ClassesPage.BookingFollowUp | samyoga/app/dashboard/classes/page.tsx:58-75 | the class list is fetched again iff the booking answered OK; otherwise the failure alert |
| PageGuards.StudentPageAction | samyoga/app/dashboard/classes/page.tsx:32-42 | wait while loading, sign-in when unauthenticated, pending when not APPROVED (admins included), admin page for an approved admin, load otherwise; the payments page uses the same chain (payments/page.tsx:30-40) |
| PageGuards.AdminPageAction | samyoga/app/admin/students/page.tsx:30-38 | sign-in when unauthenticated, dashboard for a non-admin, load for an admin |
| PageGuards.PendingAdminIsPending | samyoga/app/dashboard/classes/page.tsx:35-38 | a pending admin is sent to the pending page |
| PageGuards.LoadOnlyForApprovedStudents | samyoga/app/dashboard/classes/page.tsx:32-42 | the page loads only for an APPROVED non-admin session |
| PaymentsPage.SumOfFiltered | samyoga/app/dashboard/payments/page.tsx:71-72 | the sum over the filtered list is the sum of the status-masked amounts |
| PaymentsPage.SumByAppend | samyoga/app/dashboard/payments/page.tsx:71-72 | sums distribute over concatenation |
| PaymentsPage.Figures | samyoga/app/dashboard/payments/page.tsx:71-118 | the totals are the sums of the two lists, the total is their sum and the counts are their lengths |
| PaymentsPage.Summary | samyoga/app/dashboard/payments/page.tsx:68-205 | the PENDING and PAID payments in input order, their totals, the overall total, the counts, and "no payments" iff the list is empty |
| PaymentsPage.TotalsAreSums | samyoga/app/dashboard/payments/page.tsx:71-72 | each total is the sum over all payments of the amounts with that status |
| PaymentsPage.OtherStatusKeepsList | samyoga/app/dashboard/payments/page.tsx:68-69 | a payment of another status does not change a status list |
| PaymentsPage.OtherStatusesNeverCount | samyoga/app/dashboard/payments/page.tsx:117-119 | adding a FAILED or REFUNDED payment changes nothing but the empty-list notice |
| StudentsPage.Shown | samyoga/app/admin/students/page.tsx:66-70 | a student is shown iff the lowered term occurs in the lowered name, when there is one, or in the lowered email |
| StudentsPage.ShowsNoStudents | samyoga/app/admin/students/page.tsx:151-155 | "No students found" iff no student matches |
| StudentsPage.EmptyTermShowsAll | samyoga/app/admin/students/page.tsx:66-70 | the empty term shows every student |
| StudentsPage.LowerIdempotent | samyoga/app/admin/students/page.tsx:66-70 | lower-casing twice is lower-casing once |
| StudentsPage.TermCaseIgnored | samyoga/app/admin/students/page.tsx:66-70 | the term's letter case does not matter |
| StudentsPage.ShownKeepsOrder | samyoga/app/admin/students/page.tsx:66-70 | the result is an order-preserving sub-sequence: it distributes over concatenation |

## Left out

- Persistence and foreign calls: the Prisma and Supabase clients, bcrypt, the Gemini SDK and REST calls, `fetch` from the pages and the blog's file reads become parameters or inputs.
- Concurrency: each handler call is one atomic step, so the race between the booking count and the insert is not modelled.
- Clocks and locale: instants are integers given by the caller; `toDateString` is the parameter `dayOf`; `toISOString` and `toLocaleString` are not modelled.
- The classes page calls `new Date()` twice; the model uses one `now` for both lists.
- The chat route calls `Date.now()` separately for the upsert's `where` key and its `create` key; the model uses one `stamp` for both. Its `new Date().toISOString()` context timestamps are the one instant `now`.
- Floating point: amounts are integers and the `toFixed(2)` rendering is not modelled.
- Unicode: white space, `toLowerCase` and `trim` are ASCII-only.
- RegisterRoute.Validate: `|password|` counts characters, not JavaScript's UTF-16 code units, so a password of characters outside the Basic Multilingual Plane can pass or fail the six-character check differently.
- Blog.PostBySlug / Blog.AllPosts: front-matter values are taken to be strings (a quoted `date`, `tags` as a list). gray-matter parses the front matter as YAML, so an unquoted date arrives as a JavaScript `Date` and the source's `<` then compares instants, and a scalar `tags: yoga` arrives as a string; neither is modelled. Dates with different UTC offsets can order differently by instant than as strings, and mixing quoted and unquoted dates makes the source's comparator inconsistent.
- ClassesRoute.BookingStatusFor: takes the user's first booking of the class in table order. The source's `include` of the bookings has no `orderBy`, so when a user holds several bookings of one class with different statuses, the database may return any of them first; the model fixes one such order.
- Blog.Less: compares characters, not UTF-16 code units, so dates holding characters outside the Basic Multilingual Plane can order differently.
- GenerateRoute.InheritedText: the rendered source text of the built-ins follows the V8 engine; other engines may print it differently. A style that is not a string is not modelled.
- Ids are natural numbers from the store's counter instead of generated strings, and page message ids are integers.
- The register route's error classes are abstracted to messages: lib/errors.ts is not part of this model.
- Malformed request JSON and database errors thrown by the ORM (the routes' 500 catch paths) are not modelled. The exceptions are the approval of an unknown user and a failed password hash.
- The middleware `matcher` configuration is not modelled.
- The "No image data" response of the poster routes also echoes the upstream data; the model keeps only the status and message.
- An undefined `mimeType` in the creative page's data URL is not modelled.
- Ties in the sorts: records with equal keys may come in any order, so the contracts state sortedness and permutation, not one fixed order.
- React state batching, closures over stale state, scrolling, animation and the decorative components are left out.
- The thin select-and-format routes, the form and redirect pages, and the scripts are outside the modelled core.
- Schema.OrNull: describes `value || null` for a string; other falsy values are not typed here.

## Findings

| source | as written | input that shows it | evidently intended | confidence | as-written member | corrected member |
|---|---|---|---|---|---|---|
| samyoga/app/admin/creative/page.tsx:18-23, 33-37, 133-145 | no control writes `formData`: there is no title input and the selects have no value or change handler, so the title stays "" | click "Generate Poster" on a fresh page: the alert "Please enter a title for the poster" always appears and no request is sent | the form controls update `formData`, so a titled form is sent and its poster is added | high, not executed | CreativePanel.CreativePage.GenerateFromUntouchedForm | CreativePanel.CreativePage.GenerateAfterEditing |
| samyoga/app/api/auth/register/route.ts:40-48 | registration stores the email exactly as sent, while sign-in looks the row up by the lower-cased, trimmed email (samyoga/auth.ts:20-27, "case-insensitive lookup") | register as "Alice@example.com": no credentials ever sign in to that account | the email is stored under its lookup key, so the account signs in whatever case is typed | high, not executed | RegisterSignIn.AliceLockedOut | RegisterSignIn.NormalisedRowSignsIn |
