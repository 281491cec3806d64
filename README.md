# ORS front end: client-side rules, in Dafny

This project models the client-side logic of the ORS (Operational Roadworthiness Score) administration dashboard. The dashboard is a React front end. Admins, inspectors and viewers use it to list, create and edit ORS plans for vehicles, and admins also manage user accounts. The model covers:

- **Plan list** (`OrsPlans`): how a plan reference is normalised from either of its two shapes, and the rule that an inspector sees only the plans assigned to or created by them. It also covers the three ANDed list filters (vehicle search, grade, and a score band read with JavaScript's `parseInt`) and which roles get the create, edit and delete buttons.
- **Plan form** (`OrsForm`): the form both modals edit, the `'%'` normalisation applied on submit, and the "Calculated Total ORS" display rule.
- **Update modal** (`OrsUpdateModal`): how a form is filled from a plan with defaults, and the six note and attachment handlers. Every handler works on a fresh deep copy, so the form is a value and the plan it came from never changes.
- **Create modal** (`OrsPlanModal`): the same six handlers. Here they work in place on `documents[0]`, which is an object shared with the previous form state and with the module-level `initialState`. The model therefore has a `SharedDocument` class and handlers with `modifies` clauses.
- **User management** (`UserManage`): the search and role filter, the edit form filled from a row, and the rule that an update sends only the user's id and the new role.
- **Form slices** (`RegisterSlice`, `LoginSlice`): the Redux reducers of the registration and login forms, as classes whose methods assign single fields.
- **Validation** (`AuthValidation`): the login and registration schemas, as lists of issues. Each failed check adds one issue.
- **Route guard** (`ProtectedRoute`): the three-way decision between the login redirect, the unauthorized redirect and rendering.

The supporting modules model the JavaScript built-ins the rules use:

- `JsText`: `String(undefined)`, ASCII `toLowerCase`, `includes`, `replace` of the first occurrence, and `parseInt` with its white-space, sign, `0x` and NaN rules.
- `Sequences`: `filter`, sub-list order and `splice(start, 1)`.

Two facts about the code shape the model:

- A score with no leading digits parses to NaN, so it fails every band. It is never read as 0.
- Roles are compared as plain strings, so any other string is simply not "admin" or "inspector".

## Model

| member | source | states |
|---|---|---|
| `OrsPlans.ExtractUserId` | src/pages/ors/OrsPlans.tsx:37-42 | a bare id is returned as is; an object reference yields its `_id` (possibly absent); nothing yields nothing; any id returned comes from one of the two shapes |
| `OrsPlans.ExtractUserIdShapeAgnostic` | src/pages/ors/OrsPlans.tsx:37-42 | the bare and the `{_id}` form of the same id give the same identifier |
| `OrsPlans.OwnedBy` | src/pages/ors/OrsPlans.tsx:47-52 | for an id other than the text "undefined", a plan is owned iff its assigned or creator reference yields exactly that id; an absent assignee matches the id "undefined" |
| `OrsPlans.VisiblePlans` | src/pages/ors/OrsPlans.tsx:44-54 | the result is an order-preserving sub-list of all plans; a non-inspector (or no user) gets the list unchanged; for an inspector a plan is in it iff it is in the list and its assigned or creator id, as `String(...)`, equals the user's id |
| `OrsPlans.VisibilityIgnoresRefShape` | src/pages/ors/OrsPlans.tsx:46-53 | replacing a bare reference by its `{_id}` form never changes whether the inspector sees the plan |
| `OrsPlans.UnreferencedPlanHidden` | src/pages/ors/OrsPlans.tsx:47-52 | a plan with neither reference is visible to an inspector only if the inspector's id is the text "undefined" |
| `OrsPlans.InspectorVisibilityExample` | src/pages/ors/OrsPlans.tsx:44-54 | of three plans (assigned to U1, created by U1, both refs U2), inspector U1 sees exactly the first two, for bare and populated references alike |
| `OrsPlans.MatchesSearch` | src/pages/ors/OrsPlans.tsx:57-59 | the lower-cased term occurs at some position of the lower-cased vehicle; the empty term matches every vehicle |
| `OrsPlans.MatchesBand` | src/pages/ors/OrsPlans.tsx:63-71 | a band value other than "high", "medium" and "low" passes every plan; a score that parses to NaN passes exactly those other band values |
| `OrsPlans.BandsPartitionScores` | src/pages/ors/OrsPlans.tsx:63-71 | "high" is >= 80, "medium" 60..79, "low" < 60 of `parseInt(score)`; a parsable score is in exactly one band, a NaN score in none |
| `OrsPlans.OtherBandPassesAll` | src/pages/ors/OrsPlans.tsx:63-71 | a band value other than the three passes every plan |
| `OrsPlans.FilteredPlans` | src/pages/ors/OrsPlans.tsx:56-74 | the rows are an order-preserving sub-list of the visible plans and of all plans; a plan is a row iff it is visible and passes search, grade and band |
| `OrsPlans.DefaultFiltersShowAllVisible` | src/pages/ors/OrsPlans.tsx:56-74 | the empty search with grade "all" and band "all" shows exactly the visible plans, so the empty term matches every vehicle |
| `OrsPlans.FiltersCompose` | src/pages/ors/OrsPlans.tsx:56-74 | filtering by search, then grade, then band gives the same rows as the one ANDed filter |
| `OrsPlans.HighExampleScoreParses` | src/pages/ors/OrsPlans.tsx:65 | `parseInt` reads "92%" as 92, ignoring the '%' |
| `OrsPlans.MediumExampleScoreParses` | src/pages/ors/OrsPlans.tsx:65 | `parseInt` reads "65%" as 65 |
| `OrsPlans.LowExampleScoreParses` | src/pages/ors/OrsPlans.tsx:65 | `parseInt` reads "40%" as 40 |
| `OrsPlans.LowBandExample` | src/pages/ors/OrsPlans.tsx:70-71 | of plans scored 92, 65, 40, band "low" keeps only the 40 plan |
| `OrsPlans.GradeExample` | src/pages/ors/OrsPlans.tsx:60-61 | of plans graded A, C, Failed, grade "C" keeps only the C plan |
| `OrsPlans.ImpossibleFilterExample` | src/pages/ors/OrsPlans.tsx:56-74 | grade "A" with band "low" keeps no plan of the three |
| `OrsPlans.CanModify` | src/pages/ors/OrsPlans.tsx:76 | only a signed-in user can modify; every inspector and every admin can; a user who can and is not an inspector is an admin |
| `OrsPlans.ShowsDelete` | src/pages/ors/OrsPlans.tsx:286-303 | the delete button appears exactly for role "admin", and only where the edit button (`canModify`) appears too |
| `OrsPlans.CapabilitiesByRole` | src/pages/ors/OrsPlans.tsx:76 | admin may modify and delete, inspector may modify but not delete, viewer and a missing user may do neither |
| `JsText.IncludesIffOccurs` | src/pages/ors/OrsPlans.tsx:57-59 | `includes` holds iff the needle occurs at some position of the text |
| `JsText.ParseInt` | src/pages/ors/OrsPlans.tsx:65 | text that is empty after the leading white space is NaN |
| `JsText.ParseIntNeedsDigit` | src/pages/ors/OrsPlans.tsx:65 | a number is read only from text containing a decimal digit |
| `JsText.ParseIntOfDecimal` | src/pages/ors/OrsPlans.tsx:65 | a plain run of decimal digits is read as the number it spells |
| `JsText.ParseIntIgnoresPercentSuffix` | src/pages/ors/OrsPlans.tsx:63-71 | `parseInt(s + "%")` equals `parseInt(s)` for every string, so the '%' suffix never moves a plan between bands |
| `Sequences.Filter` | src/pages/ors/OrsPlans.tsx:56 | every kept element satisfies the test, and each element of the input occurs in the result exactly as often as in the input when it satisfies the test, and not at all otherwise |
| `Sequences.FilterIsSubsequence` | src/pages/ors/OrsPlans.tsx:56 | `filter` returns an order-preserving sub-list of its input |
| `Sequences.SubsequenceTransitive` | src/pages/ors/OrsPlans.tsx:44-56 | a sub-list of a sub-list is a sub-list, which makes the rows a sub-list of all plans |
| `Sequences.SpliceOne` | src/components/ORSPlanModal.tsx:47-51 | `splice(i, 1)` removes exactly the element at the clamped index (negative counts from the end), keeps the rest in order, and leaves the list unchanged when the index is past the end |
| `OrsForm.SetNoteField` | src/components/ORSUpdateModal.tsx:78-89 | editing `label` or `description` of a note changes that field only |
| `OrsForm.NormalizeScore` | src/components/ORSUpdateModal.tsx:120-125 | the submitted score always contains '%'; it is the typed score unchanged when that has one, otherwise the typed score with one character appended |
| `OrsForm.NormalizeScoreIdempotent` | src/components/ORSPlanModal.tsx:85-90 | normalising twice is normalising once |
| `OrsForm.NormalizeScoreKeepsValue` | src/components/ORSPlanModal.tsx:85-90 | normalising never changes the number `parseInt` reads from the score |
| `JsText.IndexOf` | src/components/ORSPlanModal.tsx:204 | the position `replace` acts on: an occurrence of the character with none before it |
| `JsText.RemoveFirst` | src/components/ORSPlanModal.tsx:204 | `replace(c, '')` leaves a text without `c` unchanged; otherwise it drops exactly one `c`, the first, and keeps the characters before and after it in order |
| `OrsForm.DisplayTotal` | src/components/ORSPlanModal.tsx:204-205 | the total shown ends in '%'; without a '%' in the score it is the score, or "0" when empty, then '%'; otherwise the score with its first '%' removed, or "0" when nothing is left, then '%' |
| `OrsForm.DisplayTotalOfEmpty` | src/components/ORSPlanModal.tsx:204-205 | "" shows as "0%" |
| `OrsForm.DisplayTotalOfPlainScore` | src/components/ORSPlanModal.tsx:204-205 | "78" shows as "78%" |
| `OrsForm.DisplayTotalOfPercentScore` | src/components/ORSPlanModal.tsx:204-205 | "78%" shows as "78%" |
| `OrsForm.DisplayTotalUnchangedByNormalize` | src/components/ORSPlanModal.tsx:204-205 | the shown total of the normalised score equals that of the typed score |
| `OrsForm.OfferedNoteRemovalKeepsANote` | src/components/ORSPlanModal.tsx:260-268 | removal is offered only with more than one note, and then leaves at least one |
| `OrsUpdateModal.CopyDocument` | src/components/ORSUpdateModal.tsx:36-40 | a document's notes and attachments are copied; missing notes become one empty note, missing attachments none |
| `OrsUpdateModal.GetInitialData` | src/components/ORSUpdateModal.tsx:30-47 | no plan gives the blank form; a plan gives its own vehicle, score and action, and its grade or "B" when that is empty; missing documents give one blank document; present documents are copied one for one; the grade is never empty |
| `OrsUpdateModal.GetInitialDataKeepsCompletePlan` | src/components/ORSUpdateModal.tsx:30-47 | a plan with all fields present opens with exactly its own vehicle, score, grade, action, notes and attachments |
| `OrsUpdateModal.EmptyGradeOpensAsB` | src/components/ORSUpdateModal.tsx:33 | an empty or missing grade opens as "B" |
| `OrsUpdateModal.UpdateRequestFor` | src/components/ORSUpdateModal.tsx:118-130 | the request carries the plan's id and the form with only its score changed, to the normalised score, which contains '%' and parses to the same number |
| `OrsUpdateModal.UpdateModal.constructor` | src/components/ORSUpdateModal.tsx:49 | the form starts as the initial data of the plan |
| `OrsUpdateModal.UpdateModal.SyncWithPlan` | src/components/ORSUpdateModal.tsx:52-56 | a given plan refills the form; no plan leaves it as it was |
| `OrsUpdateModal.UpdateModal.AddNote` | src/components/ORSUpdateModal.tsx:60-67 | one empty note is appended to the first document; nothing else changes |
| `OrsUpdateModal.UpdateModal.RemoveNote` | src/components/ORSUpdateModal.tsx:69-76 | the first document's notes are spliced at the index; nothing else changes |
| `OrsUpdateModal.UpdateModal.NoteChange` | src/components/ORSUpdateModal.tsx:78-89 | only the chosen field of the chosen note of the first document changes |
| `OrsUpdateModal.UpdateModal.AddAttachment` | src/components/ORSUpdateModal.tsx:91-98 | one empty link is appended to the first document; notes and the rest stay |
| `OrsUpdateModal.UpdateModal.RemoveAttachment` | src/components/ORSUpdateModal.tsx:100-107 | the first document's links are spliced at the index; notes and the rest stay |
| `OrsUpdateModal.UpdateModal.AttachmentChange` | src/components/ORSUpdateModal.tsx:109-116 | only the chosen link of the first document is overwritten |
| `OrsUpdateModal.AddThenRemoveNoteRestores` | src/components/ORSUpdateModal.tsx:60-76 | adding a note and removing the last one gives back the previous form |
| `OrsUpdateModal.AddThenRemoveAttachmentRestores` | src/components/ORSUpdateModal.tsx:91-107 | adding a link and removing the last one gives back the previous form |
| `Sequences.SpliceOneUndoesPush` | src/components/ORSUpdateModal.tsx:60-76 | splicing out the element just pushed restores the list |
| `OrsPlanModal.NewInitialState` | src/components/ORSPlanModal.tsx:20-31 | the initial state shows empty vehicle, score and action, grade "B", and one document with one empty note and no links |
| `OrsPlanModal.PlanModal.constructor` | src/components/ORSPlanModal.tsx:37 | the first form state is the shared initial state itself |
| `OrsPlanModal.PlanModal.SetVehicle` | src/components/ORSPlanModal.tsx:142-147 | only the vehicle changes |
| `OrsPlanModal.PlanModal.SetGrade` | src/components/ORSPlanModal.tsx:156-162 | only the grade changes |
| `OrsPlanModal.PlanModal.SetScore` | src/components/ORSPlanModal.tsx:185-194 | only the score changes |
| `OrsPlanModal.PlanModal.SetActionRequired` | src/components/ORSPlanModal.tsx:216-220 | only the action text changes |
| `OrsPlanModal.PlanModal.AddNote` | src/components/ORSPlanModal.tsx:41-45 | one empty note is pushed onto the shared first document in place; its links and the form's fields stay |
| `OrsPlanModal.PlanModal.RemoveNote` | src/components/ORSPlanModal.tsx:47-51 | the shared notes are spliced at the index in place; with removal offered, at least one note remains |
| `OrsPlanModal.PlanModal.NoteChange` | src/components/ORSPlanModal.tsx:53-61 | only the chosen field of the chosen shared note changes |
| `OrsPlanModal.PlanModal.AddAttachment` | src/components/ORSPlanModal.tsx:63-67 | one empty link is pushed onto the shared first document; notes stay |
| `OrsPlanModal.PlanModal.RemoveAttachment` | src/components/ORSPlanModal.tsx:69-73 | the shared links are spliced at the index; notes stay |
| `OrsPlanModal.PlanModal.AttachmentChange` | src/components/ORSPlanModal.tsx:75-79 | only the chosen shared link is overwritten |
| `OrsPlanModal.PlanModal.SubmitPayload` | src/components/ORSPlanModal.tsx:85-91 | the created plan is what the form shows with only its score changed, to the normalised score, which contains '%' and parses to the same number |
| `OrsPlanModal.PlanModal.ShownTotal` | src/components/ORSPlanModal.tsx:204-205 | the shown total ends in '%' and is the form's score with its first '%' removed, or "0" when nothing is left, then '%' |
| `OrsPlanModal.PlanModal.ClearAfterSubmit` | src/components/ORSPlanModal.tsx:93 | as written, the form goes back to the shared initial state object |
| `OrsPlanModal.ClearedFormKeepsAddedNote` | src/components/ORSPlanModal.tsx:41-45 | as written, a note added before submitting is still in the cleared form (two notes) |
| `OrsPlanModal.ClearedFormKeepsAttachment` | src/components/ORSPlanModal.tsx:63-79 | as written, a link typed before submitting is still in the cleared form |
| `OrsPlanModal.PlanModal.ResetAfterSubmit` | src/components/ORSPlanModal.tsx:93 | corrected: the form is blank, with a document of its own |
| `OrsPlanModal.ResetFormIsBlank` | src/components/ORSPlanModal.tsx:93 | corrected: after adding a note and a link, the reset form has one empty note and no links |
| `UserManage.UsersOf` | src/pages/user/UserManage.tsx:36 | absent data or an absent `users` field means the empty list |
| `UserManage.MatchesSearch` | src/pages/user/UserManage.tsx:39-41 | the lower-cased term occurs at some position of the lower-cased username or of the lower-cased email; the empty term matches every user |
| `UserManage.FilteredUsers` | src/pages/user/UserManage.tsx:38-45 | the rows are an order-preserving sub-list of the users; a user is a row iff the lower-cased term is in the lower-cased username or email, and the role filter is "all" or equals the role |
| `UserManage.DefaultFiltersListAll` | src/pages/user/UserManage.tsx:38-45 | the empty search with role "all" lists every user |
| `UserManage.EditClick` | src/pages/user/UserManage.tsx:72-79 | the form holds exactly the user's username, email and role, and that user is the one being edited |
| `UserManage.UpdatePayload` | src/pages/user/UserManage.tsx:82-90 | nothing is sent iff no user is being edited; otherwise the request holds the edited user's id and the form's role |
| `UserManage.UpdateIgnoresUsernameAndEmail` | src/pages/user/UserManage.tsx:87-90 | two forms with the same role send the same request, whatever their username and email |
| `UserManage.UnchangedEditResendsRole` | src/pages/user/UserManage.tsx:72-90 | submitting an edit form unchanged sends the user's current role |
| `RegisterSlice.RegisterState.constructor` | src/redux/features/authentication/registerSlice.ts:10-15 | all four fields start empty |
| `RegisterSlice.RegisterState.SetUsername` | src/redux/features/authentication/registerSlice.ts:21-23 | username becomes the payload; the other three stay |
| `RegisterSlice.RegisterState.SetEmail` | src/redux/features/authentication/registerSlice.ts:25-27 | email becomes the payload; the other three stay |
| `RegisterSlice.RegisterState.SetPassword` | src/redux/features/authentication/registerSlice.ts:29-31 | password becomes the payload; the other three stay |
| `RegisterSlice.RegisterState.SetRole` | src/redux/features/authentication/registerSlice.ts:33-35 | role becomes the payload; the other three stay |
| `RegisterSlice.RegisterState.ClearRegister` | src/redux/features/authentication/registerSlice.ts:37-42 | from any state, all four fields are empty again |
| `RegisterSlice.SecondSetWins` | src/redux/features/authentication/registerSlice.ts:21-23 | of two successive sets of a field only the last payload remains |
| `RegisterSlice.ClearTwiceIsInitial` | src/redux/features/authentication/registerSlice.ts:37-42 | clearing twice gives the initial state, as clearing once does |
| `RegisterSlice.ClearedEqualsFresh` | src/redux/features/authentication/registerSlice.ts:10-42 | a cleared slice equals a fresh one, whatever was typed before |
| `LoginSlice.LoginState.constructor` | src/redux/features/authentication/loginSlice.ts:8-11 | both fields start empty |
| `LoginSlice.LoginState.SetEmail` | src/redux/features/authentication/loginSlice.ts:17-19 | email becomes the payload; password stays |
| `LoginSlice.LoginState.SetPassword` | src/redux/features/authentication/loginSlice.ts:21-23 | password becomes the payload; email stays |
| `LoginSlice.LoginState.ClearLogin` | src/redux/features/authentication/loginSlice.ts:25-28 | from any state, both fields are empty again |
| `LoginSlice.ClearTwiceIsInitial` | src/redux/features/authentication/loginSlice.ts:25-28 | clearing twice gives the initial state |
| `AuthValidation.MinLength` | src/validation/authValidation.ts:5 | a `min(n)` check reports its one message iff the value is shorter than n |
| `AuthValidation.EmailIssues` | src/validation/authValidation.ts:4 | an email passes iff it is non-empty and of email format; the empty email's first issue is "Email is required" |
| `AuthValidation.PasswordIssues` | src/validation/authValidation.ts:5 | a password passes iff it has at least 6 characters |
| `AuthValidation.LoginIssues` | src/validation/authValidation.ts:3-6 | the login form passes iff the email is non-empty and of email format and the password has at least 6 characters |
| `AuthValidation.RegisterIssues` | src/validation/authValidation.ts:8-13 | the registration form passes iff the username has at least 5 characters, the email is non-empty and of email format, the password has at least 6 characters and the role is non-empty |
| `AuthValidation.EmptyEmailIsRequired` | src/validation/authValidation.ts:4-10 | an empty email is reported as "Email is required" by both schemas |
| `AuthValidation.SchemasAgreeOnCredentials` | src/validation/authValidation.ts:3-13 | with a valid username and role, both schemas accept exactly the same email and password |
| `AuthValidation.AnyNonEmptyRolePasses` | src/validation/authValidation.ts:12 | a role other than admin, inspector and viewer passes, as long as it is non-empty |
| `ProtectedRoute.Guard` | src/routes/ProtectedRoute.tsx:13-21 | login redirect iff there is no token; unauthorized iff a token, a role list, and the user's role (or "") not in it; render iff a token and either no list or the role in it |
| `ProtectedRoute.TokenCheckedFirst` | src/routes/ProtectedRoute.tsx:13-15 | without a token the decision is the login redirect whatever the user and the role list |
| `ProtectedRoute.EmptyAllowListRefusesAll` | src/routes/ProtectedRoute.tsx:17-19 | an empty role list sends every signed-in user to `/unauthorized` |
| `ProtectedRoute.MissingUserNeedsEmptyRole` | src/routes/ProtectedRoute.tsx:17-19 | with a token but no user, the page renders iff the role list contains "" |

## Left out

- `src/redux/api/endApi.ts` defines only `register` and `login`, so there are no ORS or user cache endpoints and no optimistic update to model.
- The HTTP client setup (`src/redux/api/baseApi.ts`), the async submit and delete flows, toasts and confirm dialogs: these are I/O. Only the payloads those flows build are modelled (`UpdateRequestFor`, `SubmitPayload`, `UpdatePayload`).
- The login and register pages, the main layout, the user create and edit modals, the skeletons, the dashboard and the router table: these are presentation and navigation.
- zod's `.email()` format check is the parameter `isEmail`, so the model states nothing about which strings it accepts.
- `toLowerCase` is modelled on the ASCII letters only. Unicode case mapping is not modelled.
- String lengths are counted in Dafny characters (Unicode scalar values). JavaScript and zod count UTF-16 code units, so the two differ for characters outside the Basic Multilingual Plane.
- `parseInt` returns an exact integer here. JavaScript returns a double, which loses precision above 2^53 and has a `-0`. Neither changes a comparison with 60 or 80.
- A plan field that the backend leaves out is modelled as "". `getInitialData` treats undefined and "" alike. The list page would throw on a missing `vehicle`, which the model does not represent.
- The `documents` list of a form is non-empty in the model's handlers. The source throws a `TypeError` on `newDocs[0]` when a plan arrives with an empty `documents` list.
- OrsUpdateModal.UpdateModal.NoteChange: requires the index to be within the note list. The source throws there anyway, because `textDoc[index]` is undefined.
- OrsUpdateModal.UpdateModal.AttachmentChange: requires the index to be within the link list. The source would write past the end and leave holes, which the UI never asks for.
- OrsPlanModal.PlanModal.NoteChange: same in-range requirement as the update modal, for the same reason.
- OrsPlanModal.PlanModal.AttachmentChange: same in-range requirement as the update modal, for the same reason.
- In the create modal, notes are values inside the shared document object. No holder other than the document's own list refers to a note object, so changing a note in place and replacing it in the list cannot be told apart.
- In the update modal, the form is a value. The deep copies in `getInitialData` and in every handler are implicit, and "the plan it came from is never changed" holds by construction rather than by a frame proof.

## Findings

| source | as written | input that shows it | evidently intended | confidence | as-written member | corrected member |
|---|---|---|---|---|---|---|
| src/components/ORSPlanModal.tsx:93 | The handlers copy only the outer `documents` list (lines 42-78), so they push, splice and assign into `initialState.documents[0]`. `setFormData(initialState)` after a successful create then restores a form that still holds every note and link entered before. | Open the create modal, press "Add Entry" once, submit successfully: the cleared form shows two notes. A link added before submitting is likewise still listed. | The cleared form shows one empty note and no links. | not executed | `OrsPlanModal.ClearedFormKeepsAddedNote` | `OrsPlanModal.PlanModal.ResetAfterSubmit` |
