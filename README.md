# LUCT reporting server, modelled in Dafny

This project models the record-keeping core of the LUCT lecture-reporting server. Lecturers file
weekly lecture reports. Principal lecturers and programme leaders review them and add feedback.
Users rate lecturers, courses, classes and reports. Programme leaders manage the course and class
catalogue. The model covers the five keyed collections and the request handlers over them:

- **Reports** (`report_model.dfy`, `reports.dfy`) — the schema's setters, validators and defaults;
  the pre-save hook that derives `attendanceRate` and stamps `updatedAt`; and the report routes:
  list, get, create, update, delete, search and the spreadsheet export.
- **Ratings** (`rating_model.dfy`, `ratings.dfy`) — the rating schema, its composite unique
  index, and the rating routes: list, get, create with its duplicate check, the owner's update,
  delete by the owner or a programme leader, and the per-entity average.
- **Users** (`auth.dfy`) — registration with its email/username uniqueness check, login with its
  single "Invalid credentials" answer, and the current-user view.
- **Courses** (`course_model.dfy`, `courses.dfy`) — the course schema (a unique code stored
  trimmed and upper-cased, required fields, defaults) and the programme-leader-only catalogue
  routes.
- **Classes** (`classes.dfy`) — the programme-leader-only class routes.

Shared pieces live in three more files:

- `common.dfy` holds ids, roles, the requester and the `Result` of a request.
  The errors are `NotFound` (404), `Forbidden` (403), `BadRequest(message)` (400) and
  `ServerError` (500).
- `text.dfy` holds JavaScript `trim`, upper/lower-casing, case-insensitive substring search, and
  the "; " join with its inverse.
- `collections.dfy` holds `find(query).sort(key)` over a keyed collection.

Each collection is a class holding a `map<Id, Record>` and the counter that hands out new ids.
Its handlers are methods that `modify` it. Each class keeps an invariant (`Valid`):

- every stored report passed validation, is normalised and carries the rate derived from its
  counts;
- no two ratings share (rater, rated entity, entity type);
- no two accounts share an email or a username;
- no two courses share a code.

Every method preserves its class's invariant. Every refusal leaves the collection unchanged.
Each method's `ensures` gives the new collection exactly in terms of the old one.
The clock (`Date.now()`) is a parameter `now`, in milliseconds.
The authenticated requester (`req.user`) is a `Principal` parameter.
`authorize(roles)` is the role test that yields `Forbidden`.
Ratings and the attendance rate are `real`; no floating point is modelled.

## Model

| member | source | states |
|---|---|---|
| Common.FullName | server/routes/reports.js:51 | the owner name is the first name, one space, and the last name, in that order |
| Text.Trim | server/models/Report.js:4-8 | the result of `trim` is trimmed, is no longer than the input, and is empty exactly when the input is all white space |
| Text.TrimDropsOnlySpace | server/models/Report.js:4-8 | `trim` keeps the slice of the input between its leading and its trailing white space, and everything it drops is white space |
| Text.TrimIdempotent | server/models/Report.js:4-8 | trimming a stored (trimmed) value again changes nothing |
| Text.UpperIsFixed | server/models/Course.js:4-10 | a code that is already upper case passes through the `uppercase` setter unchanged |
| Text.ToUpper | server/models/Report.js:29-34 | the `uppercase` setter keeps the length and upper-cases each letter in place |
| Text.TextMatchesItself | server/routes/reports.js:217-223 | the case-insensitive match finds a text in itself and in its upper-cased form |
| Text.EmptyPatternMatches | server/routes/reports.js:217-223 | an empty pattern matches every field, which is why the handler refuses a blank query |
| Text.SplitJoin | server/routes/reports.js:179 | the outcomes joined with "; " split back into the same list, when none holds the separator |
| Text.JoinExample | server/routes/reports.js:179 | the outcomes ["A", "B"] become the single cell "A; B" and split back |
| Collections.Query | server/routes/reports.js:19-21 | a sorted find returns exactly the matching records, each once, ordered by the sort key, as many as match |
| Collections.QueryInOrder | server/routes/courses.js:15-18 | an unsorted find returns exactly the matching records, each once, in insertion order |
| Text.TrimUpper | server/models/Report.js:29-34 | the `trim` and `uppercase` setters of a course code give, character by character, the trimmed value upper-cased; the result is trimmed and upper case, and empty iff the value sent is blank |
| ReportModel.TrimAll | server/models/Report.js:74-78 | every learning outcome is trimmed, and the list keeps its length and order |
| ReportModel.Normalize | server/models/Report.js:3-95 | after the setters each of the ten `trim` paths holds the `trim` of the value sent (each learning outcome trimmed), the code holds its trimmed, upper-cased value, every other path (`dateOfLecture`, the counts, `lecturer`, `status`, `createdAt`, ...) is as sent; required paths stay given |
| ReportModel.Setter | server/models/Report.js:4-90 | the setter each path declares: `trim` on the ten string paths marked `trim: true`, `trim` and `uppercase` on `courseCode`, none on the others |
| ReportModel.NormalizeField | server/models/Report.js:3-95 | field by field, a path the body sends holds its declared setter applied to the value sent, and a path it does not send stays absent |
| ReportModel.ValidReport | server/models/Report.js:3-95 | the schema's validators: the required strings non-empty, `weekOfReporting` in 1..52, both counts at least 0, every learning outcome non-empty, `status` one of the four enum values |
| ReportModel.Complete | server/models/Report.js:3-73 | a body gives every path marked `required` that has no default |
| ReportModel.Rate | server/models/Report.js:107 | the rate times the registered count is 100 times the present count; there is no finite rate iff nobody is registered |
| ReportModel.PreSave | server/models/Report.js:106-110 | every save re-derives `attendanceRate` from the counts and sets `updatedAt` to now |
| ReportModel.PreSaveKeepsFields | server/models/Report.js:106-110 | the hook changes no field but the rate and `updatedAt` |
| ReportModel.Build | server/models/Report.js:91-103 | a new report takes the defaults for what the body omits: status "draft", no outcomes, created now, no feedback |
| ReportModel.BuildTakesBody | server/routes/reports.js:48-52 | every field the body gives has the body's value in the new report |
| ReportModel.Merge | server/routes/reports.js:87 | `Object.assign`: each field the body gives takes the body's value, every other field keeps its value |
| ReportModel.FeedbackOr | server/routes/reports.js:81 | a non-empty body feedback replaces the stored one (trimmed); an absent or empty one keeps it |
| ReportModel.RateWithinBounds | server/models/Report.js:55-59 | with 0 <= present <= total and total > 0 the derived rate lies in [0, 100] |
| ReportModel.RateExample | server/models/Report.js:107 | 20 present of 40 registered gives a rate of 50 |
| ReportModel.MergeKeepsNormalized | server/routes/reports.js:87 | merging a normalised body over a normalised report keeps it normalised |
| ReportModel.BuildIsNormalized | server/routes/reports.js:48-52 | a report built from a normalised body is normalised |
| ReportModel.PreSaveIsStored | server/models/Report.js:106-110 | a validated, normalised report that went through the hook satisfies the store invariant |
| ReportModel.FeedbackLinesSubsumed | server/routes/reports.js:80-87 | whatever the role-specific feedback lines (lines 81 and 83) wrote into the feedback fields, the following merge gives the same report |
| Reports.OwnedBody | server/routes/reports.js:48-52 | the owner fields are the requester's id and full name whatever the body gave; every other field is the body's |
| Reports.MatchesFilter | server/routes/reports.js:11-17 | each query parameter that is given (non-empty) must equal the report's lecturer, week or status, and the course must equal the report's code once cast through that path's `trim` and `uppercase` setters (server/models/Report.js:29-34), so `cs101` finds `CS101`; absent ones do not constrain |
| Reports.CourseQueryIsNormalized | server/routes/reports.js:15 | a `course` query of ` cs101` matches a report stored under `CS101`, because the cast filter is trimmed and upper-cased like the stored code |
| Reports.MatchesSearch | server/routes/reports.js:215-225 | the search's `$or`: `q` occurs, ignoring case, in one of the seven searched fields |
| Reports.MayModify | server/routes/reports.js:75-77 | the ownership check of update and delete (also lines 111-113): only a lecturer is checked, and passes iff they are the report's `lecturer` |
| Reports.MayCreate | server/routes/reports.js:46 | `authorize('lecturer', 'principal_lecturer')` admits exactly those two roles |
| Reports.ExportRowShape | server/routes/reports.js:142-184 | every row has the header's 18 columns; each cell but the outcomes is the report's own field in the header's order, including the rate and the status |
| Reports.ExportedOutcomes | server/routes/reports.js:179 | the outcomes cell is the outcomes joined by "; " and splits back into them |
| Reports.RowsOf | server/routes/reports.js:164-185 | one row per selected report, row i the row of report i |
| Reports.ExportRows | server/routes/reports.js:164-185 | the `forEach` loop adds exactly one row per report, in the selection's order |
| Reports.Revise | server/routes/reports.js:79-87 | the update's edits (role line, then `Object.assign`) equal the plain merge of the normalised body over the report |
| Reports.RevisedIsStored | server/routes/reports.js:87-90 | an updated report that passes validation is, after the save, one the store may hold |
| Reports.CreatedIsStored | server/routes/reports.js:48-54 | a created report that passes validation is, after the save, one the store may hold |
| Reports.ReportStore.Get | server/routes/reports.js:30-43 | found iff the id is stored, with that report; otherwise NotFound |
| Reports.ReportStore.List | server/routes/reports.js:9-27 | exactly the reports matching every supplied filter (lecturer, course code, week, status), each once, newest first |
| Reports.ReportStore.ExportSelection | server/routes/reports.js:125-135 | the same filters, each matching report once, ordered by lecture date ascending |
| Reports.ReportStore.Search | server/routes/reports.js:207-235 | BadRequest "Search query is required" iff `q` is absent or blank; otherwise exactly the reports in which `q` occurs, ignoring case, in one of the seven fields, each once, newest first |
| Reports.ReportStore.Export | server/routes/reports.js:123-204 | the sheet is the header row followed by one row per selected report, in order |
| Reports.ReportStore.Create | server/routes/reports.js:46-63 | Forbidden unless lecturer or principal lecturer; ServerError when the owned, normalised body is incomplete or invalid; both leave the store unchanged; otherwise the saved report is added under a fresh id and nothing else changes |
| Reports.ReportStore.Update | server/routes/reports.js:66-99 | NotFound for an unknown id; Forbidden for a lecturer who is not the owner; ServerError when the merged report is invalid; all three change nothing; otherwise only that report changes, to the merge after the save hook |
| Reports.ReportStore.Delete | server/routes/reports.js:102-120 | NotFound and Forbidden as for update, changing nothing; succeeds iff the id is stored and the ownership check passes, removing exactly that report |
| Reports.CreateForcesOwner | server/routes/reports.js:46-52 | a created report's `lecturer` is the requester and `lecturerName` the requester's full name; status defaults to draft; `updatedAt` is now |
| Reports.OnlyLecturersAreChecked | server/routes/reports.js:75-77 | every role but lecturer passes the ownership check, students included; a lecturer passes iff they own the report |
| Reports.StatusIsFreelyOverwritten | server/models/Report.js:91-95 | an update may set `status` to any of the four values from any stored report; no order is enforced |
| Reports.FeedbackOnlyUpdate | server/routes/reports.js:80-87 | a body with only principal-lecturer feedback changes that field alone |
| Text.Utf16Length | server/models/Rating.js:28 | the JavaScript `length` of a string, which `maxlength` compares: between its character count and twice that |
| Text.Utf16LengthAppend | server/models/Rating.js:28 | the JavaScript length of a concatenation is the sum of the lengths |
| Text.Utf16LengthIsLength | server/models/Rating.js:28 | the JavaScript length equals the character count exactly when no character lies above U+FFFF |
| Text.Utf16LengthOfAstral | server/models/Rating.js:28 | a string made only of characters above U+FFFF has twice its character count as JavaScript length |
| Text.TrimOpt | server/models/Rating.js:25-29 | an optional value through its `trim` setter: present iff sent, and then the `trim` of the value sent |
| RatingModel.NewRating | server/routes/ratings.js:60-66 | a new rating exists iff the entity, the type and the score are given; its rater is the requester, whatever the body says, and it is created now |
| RatingModel.ValidRating | server/models/Rating.js:3-34 | the schema's constraints: score in 1..5, entity type one of the four enum values, comment trimmed and at most 500 UTF-16 code units long (the JavaScript length `maxlength` measures) |
| RatingModel.EmojiCommentTooLong | server/models/Rating.js:28 | a comment of 251 characters above U+FFFF is within 500 characters yet fails `maxlength: 500`, being 502 code units |
| RatingModel.DuplicateOf | server/routes/ratings.js:50-54 | the duplicate query: the requester's rating, with the entity and the type compared only when the body gives them (an undefined key is dropped from the filter) |
| RatingModel.PatchValid | server/routes/ratings.js:94-98 | `runValidators` on an update: each path the body sets passes its validator, the comment after its setter and measured in UTF-16 code units |
| RatingModel.Patch | server/routes/ratings.js:94-98 | the update overwrites exactly the paths the body sets, the comment through its setter |
| RatingModel.PatchKeepsValid | server/models/Rating.js:14-29 | a patch passing the update validators keeps a valid rating valid |
| RatingModel.EmptyPatch | server/routes/ratings.js:94-98 | an empty update changes nothing |
| RatingModel.AverageOf | server/routes/ratings.js:141-152 | no ratings give {0, 0}; otherwise the count and a mean whose product with the count is the sum |
| RatingModel.SumBounds | server/models/Rating.js:19-24 | scores on the 1..5 scale sum to between one and five times their count |
| RatingModel.AverageWithinScale | server/models/Rating.js:19-24 | the mean of valid ratings lies on the 1..5 scale |
| RatingModel.SameScoreAverage | server/routes/ratings.js:144 | ratings that all give the same score average to that score |
| RatingModel.NothingMatchesAsWritten | server/routes/ratings.js:134-140 | the uncast string id never equals a stored ObjectId, so no rating matches |
| Ratings.AddKeepsLedger | server/models/Rating.js:36 | adding a valid rating whose key is free keeps the keys unique |
| Ratings.PutKeepsLedger | server/models/Rating.js:36 | replacing a rating by a valid one whose key no other rating has keeps the keys unique |
| Ratings.RemoveKeepsLedger | server/models/Rating.js:36 | removing a rating keeps the ledger invariant |
| Ratings.DuplicateQueryIsKeyLookup | server/routes/ratings.js:49-58 | when the body names entity and type, the duplicate query finds a rating iff the new rating's key is taken |
| Ratings.MatchesFilter | server/routes/ratings.js:10-14 | each given query parameter must equal the rating's entity or entity type; absent ones do not constrain |
| Ratings.MayDelete | server/routes/ratings.js:117-120 | the requester is the rater, or a programme leader |
| Ratings.AverageIn | server/routes/ratings.js:130-154 | the count is the number of ratings of that type and entity; {0, 0} when there are none; otherwise the mean is the sum of those ratings' scores divided by their count, and over valid ratings it lies within 1..5 |
| Ratings.EntityEntries | server/routes/ratings.js:134-140 | the (cast) `$match`: exactly the stored ratings of that type and entity, each id once, in id order, as many as match |
| Ratings.RatingsOf | server/routes/ratings.js:134-140 | the rating of each entry `EntityEntries` selects, position by position, so each matching id contributes exactly once; each is a stored rating of that type and entity |
| Ratings.AverageAsWritten | server/routes/ratings.js:134-152 | the handler as written answers {0, 0} for every ledger and entity |
| Ratings.AverageDiscrepancy | server/routes/ratings.js:134-152 | on a ledger with one rating of 4 for course 7 the intended answer is {4, 1}, while the handler as written answers {0, 0} |
| Ratings.RatingLedger.Get | server/routes/ratings.js:28-42 | found iff the id is stored; otherwise NotFound |
| Ratings.RatingLedger.List | server/routes/ratings.js:8-25 | exactly the ratings matching both supplied filters, each once, newest first |
| Ratings.RatingLedger.EntityAverage | server/routes/ratings.js:130-154 | the count of that entity's ratings, {0, 0} when none, otherwise the sum of their scores divided by the count, a mean on the 1..5 scale |
| Ratings.RatingLedger.Create | server/routes/ratings.js:45-78 | BadRequest "You have already rated this item" when the duplicate query finds a rating; ServerError when the rating is incomplete or invalid; both change nothing; otherwise exactly one rating, whose rater is the requester, is added |
| Ratings.RatingLedger.Update | server/routes/ratings.js:81-106 | NotFound for an unknown id; Forbidden for anyone but the rater; ServerError for a patch failing a validator or taking another rating's key; all change nothing; otherwise only that rating changes, to the patch applied |
| Ratings.RatingLedger.Delete | server/routes/ratings.js:109-127 | succeeds iff the id is stored and the requester is its rater or a programme leader, removing exactly that rating; NotFound and Forbidden otherwise, changing nothing |
| Ratings.SecondRatingRefused | server/routes/ratings.js:49-58 | after a successful create the same request is refused as a duplicate |
| Ratings.OwnerMayTransfer | server/routes/ratings.js:94-98 | the rater may give a rating another `rater` through an update, which keeps it valid and gives it a new key |
| Auth.ViewOf | server/routes/auth.js:45-58 | the user object in a response carries the id, names, email, role, faculty and programme of the account |
| Auth.Sign | server/routes/auth.js:39-43 | the token claims are the account's id and role, issued now (in seconds) and expiring seven days (604800 s) later |
| Auth.NewUser | server/routes/auth.js:25-34 | a registered account takes the request's fields; `program` is kept only for a student; no login yet |
| Auth.Clashes | server/routes/auth.js:14-16 | the `$or` query: some account has the email or the username |
| Auth.AddKeepsAccounts | server/routes/auth.js:14-22 | adding an account whose email and username are both free keeps them unique |
| Auth.LoginKeepsAccounts | server/routes/auth.js:85-86 | stamping `lastLogin` keeps emails and usernames unique |
| Auth.EmailNamesOne | server/routes/auth.js:71 | with unique emails, the email lookup can find at most one account |
| Auth.UserStore.Register | server/routes/auth.js:9-62 | BadRequest "User with this email or username already exists" iff some account has the email or the username, changing nothing; otherwise exactly one account is added and the response carries its claims and view |
| Auth.UserStore.Login | server/routes/auth.js:66-113 | the same BadRequest "Invalid credentials" for an unknown email and a wrong password, changing nothing; otherwise only that account's `lastLogin` changes, to now, and the response carries its claims and view |
| Auth.UserStore.Me | server/routes/auth.js:116-129 | the view of the requester's own account: its id, username, email, first and last name, role, faculty and programme |
| Auth.ViewHidesPassword | server/routes/auth.js:95-108 | the response never depends on the password or the last login |
| Auth.ProgramOnlyForStudents | server/routes/auth.js:33 | only a student's account keeps a programme, the one the request gave |
| CourseModel.Normalize | server/models/Course.js:4-25 | the setters trim the string paths and upper-case the code, leaving every other path as sent |
| CourseModel.ValidCourse | server/models/Course.js:3-56 | what the schema admits: the required strings non-empty, trimmed, the code upper case, `totalStudents` at least 0 |
| CourseModel.BodyValid | server/routes/courses.js:65-69 | `runValidators` on an update: each string path the body sets is non-empty after its setter, and `totalStudents`, if set, is at least 0 |
| CourseModel.Complete | server/models/Course.js:3-56 | a body gives every path marked `required` |
| CourseModel.Build | server/models/Course.js:26-55 | a new course takes the body's values; `isActive` defaults to true, `assignedLecturers` to none, both timestamps to now |
| CourseModel.Merge | server/routes/courses.js:65-69 | the update sets each path the body gives and keeps every other, `updatedAt` included |
| CourseModel.MergeKeepsValid | server/routes/courses.js:65-69 | a body that passed the setters and update validators keeps a valid course valid |
| CourseModel.BuildValid | server/models/Course.js:3-56 | a course built from a complete body is valid iff the body's values pass the validators |
| CourseModel.CodeOfIdempotent | server/models/Course.js:4-10 | a stored code passes through the setters unchanged |
| Courses.AddKeepsCatalog | server/models/Course.js:4-10 | adding a valid course whose code is free keeps the codes unique |
| Courses.PutKeepsCatalog | server/models/Course.js:4-10 | replacing a course by a valid one whose code no other course has keeps the codes unique |
| Courses.RemoveKeepsCatalog | server/models/Course.js:4-10 | removing a course keeps the catalogue invariant |
| Courses.MatchesFilter | server/routes/courses.js:10-14 | each given query parameter, cast through the path's `trim` setter (server/models/Course.js:16-25), must equal the course's faculty or programme; absent ones do not constrain |
| Courses.MayManage | server/routes/courses.js:46 | `authorize('program_leader')` admits only a programme leader |
| Courses.CourseStore.List | server/routes/courses.js:8-25 | exactly the courses matching both supplied filters (faculty, program), each once, in insertion order |
| Courses.CourseStore.Get | server/routes/courses.js:28-43 | found iff the id is stored; otherwise NotFound |
| Courses.CourseStore.Create | server/routes/courses.js:46-60 | Forbidden unless programme leader; ServerError when the body is incomplete, invalid, or its code is taken; both change nothing; otherwise exactly the new course is added |
| Courses.CourseStore.Update | server/routes/courses.js:63-82 | Forbidden unless programme leader; ServerError for a body failing a validator, even for an unknown id; then NotFound for an unknown id; ServerError when the merged code is another course's; all change nothing; otherwise only that course changes, to the merge |
| Courses.CourseStore.Delete | server/routes/courses.js:85-95 | Forbidden unless programme leader; NotFound for an unknown id; both change nothing; otherwise exactly that course is removed |
| Courses.CreateDefaults | server/models/Course.js:44-47 | a body giving every required path creates a course; that course is active and has no assigned lecturers unless the body says otherwise; its code is the code sent, trimmed and upper-cased |
| Courses.UpdateKeepsTimestamp | server/routes/courses.js:65-69 | an update leaves `updatedAt` unchanged unless the body sets it |
| Classes.Merge | server/routes/classes.js:62-66 | the update sets each path the body gives and keeps every other |
| Classes.MergeIdempotent | server/routes/classes.js:62-66 | applying the same update twice is applying it once, and an empty update changes nothing |
| Classes.MatchesFilter | server/routes/classes.js:10-14 | each given query parameter must equal the class's course or lecturer; absent ones do not constrain |
| Classes.ClassStore.List | server/routes/classes.js:8-24 | exactly the classes matching both supplied filters (course, lecturer), each once, in insertion order |
| Classes.ClassStore.Get | server/routes/classes.js:27-41 | found iff the id is stored; otherwise NotFound |
| Classes.ClassStore.Create | server/routes/classes.js:44-57 | Forbidden unless programme leader; ServerError when the schema rejects the document; both change nothing; otherwise the body as given is added under a fresh id (the Class schema's defaults and setters are not modelled) |
| Classes.ClassStore.Update | server/routes/classes.js:60-78 | Forbidden unless programme leader; ServerError for a body the validators reject, even for an unknown id; then NotFound; all change nothing; otherwise only that class changes, to the merge |
| Classes.ClassStore.Delete | server/routes/classes.js:81-91 | Forbidden unless programme leader; NotFound for an unknown id; both change nothing; otherwise exactly that class is removed |

## Left out

- `server/models/User.js`, `server/models/Class.js` and `server/middleware/auth.js` are not part of this model.
  - The authenticated requester is a parameter.
  - An unauthenticated request (401) is not modelled.
- Auth.UserStore.Register: the User schema's validators are not modelled. The model never answers 500 for a registration that passes the uniqueness check. Every field of a `Registration` is taken to be present.
- Auth.UserStore.Login: `comparePassword` (bcrypt) is a parameter of the method, not a hash check.
- Auth.Sign: models a token by the claims it carries. The JWT encoding, the secret and the signature are not modelled.
- Classes.ClassStore.Create: which class documents the Class schema admits is a parameter. So is which update bodies its validators admit (Classes.ClassStore.Update).
- `.populate` reference expansion is left out. Responses carry the stored references.
- Express routing is left out: `GET /reports/search` comes after `GET /reports/:id` in registration order and is therefore unreachable in the running server. The model states what the search handler does, not whether a request reaches it.
- Reports.MatchesSearch: treats `q` as a literal, case-insensitive substring. `q` is really an unescaped regular expression, so regular-expression metacharacters are not modelled.
- Text.ToUpper: upper-cases ASCII letters only. JavaScript's `toUpperCase` also maps non-ASCII letters. Text.ToLower is limited the same way.
- Text.Trim: strips ASCII white space, the no-break space and the byte-order mark. JavaScript's `trim` also strips the other Unicode space separators and the line and paragraph separators.
- Reports.ReportStore.Export: the cells carry the date and the rate as values, not as the text of `toLocaleDateString` and `toFixed(1)` plus "%". The ExcelJS workbook, the header styling and the streamed response are left out.
- ReportModel.ValidReport: leaves out the schema's 0..100 bound on `attendanceRate`. Whether the validator sees the rate before or after the hook re-derives it depends on hook ordering. The model does not claim that more students present than registered is refused.
- ReportModel.Rate: a rate with nobody registered is `None`. JavaScript would give `NaN` or `Infinity`; floating-point rounding is not modelled.
- ReportModel.Merge: a path sent as JSON `null` is treated as absent and keeps its stored value. `Object.assign` would set it to null, which for example clears `principalLecturerFeedback`; a required path set to null then fails validation.
- CourseModel.Merge: the same for the update's `$set`: a path sent as `null` (such as `principalLecturer`) would be cleared, and the model keeps it.
- Classes.Merge: the same; a path sent as `null` would be cleared by the `$set`, and the model keeps it.
- RatingModel.Patch: the same; a `comment` sent as `null` would be cleared, and the model keeps it.
- ReportModel.ValidReport: `weekOfReporting`, `actualStudentsPresent` and `totalRegisteredStudents` are JavaScript numbers, so the schema admits fractions such as week 2.5. The model takes them as unbounded integers and does not model fractional or out-of-range numbers.
- CourseModel.ValidCourse: the same for `totalStudents`, taken as an integer.
- Auth.UserStore.Login: `email` is always present. A body without `email` turns the lookup into `findOne({})`, which returns some account, and the password is then checked against that account; this is not modelled.
- Query casting is modelled only through the string setters it runs on the filtered paths (trim, uppercase). Filters otherwise compare typed values. The report `week` filter is given already parsed, so a non-numeric `week` or a malformed id, which would fail the cast and give a 500, is not modelled.
- Store failures other than validation and unique-index errors (connection loss, timeouts) are not modelled. Neither are concurrent requests: each handler runs atomically on its collection.
- Ids are natural numbers handed out in increasing order, standing in for ObjectIds. An unsorted `find` returns records in id order.

## Findings

The rating average compares the route's `entityId`, a string, with `ratedEntity`, which is stored
as an ObjectId. Aggregation pipelines are not cast by the document mapper, so the `$match` never
matches. `Ratings.AverageAsWritten` models the handler as written. `Ratings.AverageDiscrepancy`
exhibits the difference on a one-rating ledger. The rest of the model (`Ratings.RatingLedger.EntityAverage`)
uses the corrected `Ratings.AverageIn`, which casts the id before comparing.

| source | as written | input that shows it | evidently intended | confidence | as-written member | corrected member |
|---|---|---|---|---|---|---|
| server/routes/ratings.js:134-140 | `$match` compares the string route parameter `entityId` with the ObjectId in `ratedEntity`, so nothing matches and the answer is always `{averageRating: 0, totalRatings: 0}` | a ledger holding one rating of 4 for course 7, and `GET /ratings/average/Course/7` | `{averageRating: 4, totalRatings: 1}`: the count and mean of that entity's ratings | not executed | Ratings.AverageAsWritten | Ratings.AverageIn |
