# Student portal: verified model of its state and page logic

This project models the logic of a React student-management portal. It covers the
two shared stores and the pages that read and change them:

- **Course store** (`CourseProvider`). It holds the tentative course selection and the confirmed enrollment as ordered lists.
- **Session store** (`AuthProvider`). It holds the signed-in user, the loading flag, the last error and the browser storage slot `user` that caches the user.
- **Registration page.** A table of courses with checkboxes, the selected list, its credit total, the printed bill, and "Done", which enrols the selection.
- **Courses page.** It picks the catalog entries for the enrolled ids through a map from registration codes to catalog codes.
- **Enrolled section of the dashboard.** One card per enrolled course.
- **Finance page.** The transaction history, the payment form, the submit that settles a transaction, the status filter and the badges.
- **Applications page.** Submitted applications, the pending and processed views, and the badges.
- **Sign-up/login screen.** Form state, the password checks, the payload sent to `register`, and the messages shown for the store's answers.
- **Results page and dashboard greeting.** The tab choice, grade and status colours, the gender icon and the welcome name.

How the modules are built:

- Stores and pages whose handlers change state are classes. Each handler is a method whose `ensures` gives the whole new state.
- Where a state change is a pure function of the old state, the method is tied to that function. Examples are `Toggled`, `AfterLogin` and `AfterSubmit`. Those functions are then related to each other by lemmas: toggling twice, a login then a session check, a submit repeated, the lookup as written against the lookup the map describes.
- Pure render logic is written as functions. Their lemmas state what a page shows.

The backend client (`authAPI`) is an oracle. Each call's answer is a `Reply` parameter of the operation that makes the call. The lemma `DisabledBackendNeverSignsIn` covers this repository's client, which rejects every call. `JSON.stringify`/`JSON.parse` form a `Codec` handed to the session store. That they round-trip is a hypothesis of the lemmas that need it. Clocks (`Date.now()`, today's ISO date) are parameters.

## Model

| member | source | states |
|---|---|---|
| CourseStore.WithoutId | src/context/CourseContext.jsx:20 | the filter keeps exactly the entries with another id and never grows the list |
| CourseStore.WithoutIdAppend | src/context/CourseContext.jsx:20 | filtering works entry by entry, so the kept entries stay in their order |
| CourseStore.WithoutAbsentId | src/context/CourseContext.jsx:19-20 | removing an id that is not selected changes nothing |
| CourseStore.WithoutIdUnique | src/context/CourseContext.jsx:20 | removing keeps the ids unique |
| CourseStore.WithoutIdIds | src/context/CourseContext.jsx:20 | the ids left are the old ids minus the removed one |
| CourseStore.IdsAppend | src/context/CourseContext.jsx:21 | appending a course adds exactly its id |
| CourseStore.ToggleAbsent | src/context/CourseContext.jsx:18-22 | `Toggled` is the new selection of the toggle; toggling a course whose id is absent appends it at the end and selects its id |
| CourseStore.TogglePresent | src/context/CourseContext.jsx:19-20 | toggling a present id removes every entry with it and the id set loses exactly that id |
| CourseStore.ToggleKeepsUnique | src/context/CourseContext.jsx:17-23 | the selection never holds two entries with one id |
| CourseStore.ToggleTwiceFromAbsent | src/context/CourseContext.jsx:17-23 | toggling an unselected course twice restores the selection exactly |
| CourseStore.ToggleTwiceFromPresent | src/context/CourseContext.jsx:17-23 | toggling a selected course twice restores the id set but moves the course to the end |
| CourseStore.CourseProvider.constructor | src/context/CourseContext.jsx:14-15 | both lists start empty |
| CourseStore.CourseProvider.ToggleCourseSelection | src/context/CourseContext.jsx:17-23 | the selection becomes the toggled list, the enrollment is untouched, ids stay unique |
| CourseStore.CourseProvider.EnrollInCourses | src/context/CourseContext.jsx:25-28 | the enrollment becomes the old selection and the selection is emptied |
| CourseStore.CourseProvider.ClearEnrolledCourses | src/context/CourseContext.jsx:30-32 | the enrollment is emptied and the selection kept |
| AuthStore.Initial | src/context/AuthContext.jsx:16-18 | a fresh store is signed out, loading, without error, over the browser's storage |
| AuthStore.ErrorMessage | src/context/AuthContext.jsx:79 | a truthy response message wins, then a non-empty error message, then the fallback; with a non-empty fallback the result is truthy |
| AuthStore.AfterCheckAuth | src/context/AuthContext.jsx:26-71 | loading ends. A resolved profile signs in (`IsAuthenticated`, line 122) and is cached unless `JSON.parse` throws on the cached value; a cached `null` still reaches the profile call. A throwing parse or a rejected profile signs out and drops the cache |
| AuthStore.AfterRegister | src/context/AuthContext.jsx:73-83 | only the error changes: cleared exactly when the backend accepts, otherwise its message |
| AuthStore.AfterLogin | src/context/AuthContext.jsx:85-97 | success signs in the response's user and caches it; failure changes only the error |
| AuthStore.AfterLogout | src/context/AuthContext.jsx:99-112 | whatever the backend answers, signed out and the cache slot removed |
| AuthStore.LoginCachesUser | src/context/AuthContext.jsx:89-90 | after a successful login the cached value parses back to the signed-in user |
| AuthStore.LoginThenCheckAuth | src/context/AuthContext.jsx:29-38 | a login followed by a session check with a resolved profile signs in that profile |
| AuthStore.DisabledBackendNeverSignsIn | src/utils/api.js:45-63 | with the client that always rejects, the session check ends signed out and uncached, and login and register report the client's message |
| AuthStore.AuthProvider.constructor | src/context/AuthContext.jsx:16-18 | the store starts in the initial session |
| AuthStore.AuthProvider.CheckAuth | src/context/AuthContext.jsx:26-71 | the new session is the session check's result |
| AuthStore.AuthProvider.Register | src/context/AuthContext.jsx:73-83 | the new session is the register result and the backend's answer is passed on |
| AuthStore.AuthProvider.Login | src/context/AuthContext.jsx:85-97 | the new session is the login result and the backend's answer is passed on |
| AuthStore.AuthProvider.Logout | src/context/AuthContext.jsx:99-112 | the new session is the logout result |
| Registration.TotalCreditsAppend | src/Registration/Components/HeroDash.jsx:55-58 | `TotalCredits` is the `reduce` sum; the total of a concatenation is the sum of the totals |
| Registration.AvailableCoursesShape | src/Registration/Components/HeroDash.jsx:41-49 | the offered courses have unique ids and 3 credits each |
| Registration.TotalCreditsFromTable | src/Registration/Components/HeroDash.jsx:41-58 | a selection taken from the table is worth 3 credits per course |
| Registration.ToggleFlipsCheckbox | src/Registration/Components/HeroDash.jsx:146 | `IsChecked` is a row's `checked` test; a click flips its own row's checkbox and no row with another id |
| Registration.BillLines | src/Registration/Components/HeroDash.jsx:63 | one `id - name` line per selected course, in order |
| Registration.ListingLineCount | src/Registration/Components/HeroDash.jsx:62-64 | a non-empty selection is listed with one line break fewer than there are courses |
| Registration.ListingAppend | src/Registration/Components/HeroDash.jsx:62-64 | a course selected last is listed last |
| Registration.BillTextLayout | src/Registration/Components/HeroDash.jsx:60-66 | `BillText` is the alerted text; it starts with its header followed by the listing |
| Registration.BillTextEndsWithTotal | src/Registration/Components/HeroDash.jsx:64 | the bill ends with the credit total, which reads back as that number |
| Registration.ToggleCourse | src/Registration/Components/HeroDash.jsx:51-53 | the checkbox and the Remove button toggle the course in the store and nothing else |
| Registration.HandleDone | src/Registration/Components/HeroDash.jsx:68-71 | Done moves the selection into the enrollment and empties the selection |
| Catalog.FilterCatalog | src/Courses/components/Courses.jsx:122-131 | exactly the catalog entries some enrolled id selects are kept |
| Catalog.EnrolledIds | src/Courses/components/Courses.jsx:121 | one id per enrolled course, in order |
| Catalog.FirstKeyForIsFirst | src/Courses/components/Courses.jsx:129 | `FirstKeyFor` is `Object.keys(...).find`; it finds a key exactly when the code is a value, and the key is that of the first such entry |
| Catalog.CoursesData | src/Courses/components/Courses.jsx:116-132 | nothing when nothing is enrolled; otherwise exactly the catalog entries that an enrolled id `Matches` (the test at lines 124-130, with the lookup as a parameter) |
| Catalog.FilterCatalogOrdered | src/Courses/components/Courses.jsx:122-131 | the filter keeps catalog order and adds no duplicates |
| Catalog.AllCoursesDataDistinct | src/Courses/components/Courses.jsx:26-99 | the catalog lists no entry twice |
| Catalog.CoursesDataOrdered | src/Courses/components/Courses.jsx:116-132 | the page lists catalog entries in catalog order, each once |
| Catalog.CSE303ResolvesToCSE204 | src/Courses/components/Courses.jsx:106-107 | two keys map to CSE303 and the lookup settles on CSE204 |
| Catalog.CSE205SelectsNothing | src/Courses/components/Courses.jsx:124-130 | as written, the id CSE205 selects no catalog entry |
| Catalog.EnrollingCSE205ShowsNothing | src/Courses/components/Courses.jsx:116-132 | as written, enrolling only CSE205 shows an empty course list |
| Catalog.FilterNothing | src/Courses/components/Courses.jsx:122-131 | a filter that selects no entry yields nothing |
| Catalog.CSE203SelectsOnlyCSE301 | src/Courses/components/Courses.jsx:105 | CSE203 selects the CSE301 entry and no other |
| Catalog.ShowsOnly | src/Courses/components/Courses.jsx:116-132 | when every enrolled id selects one entry only, the page shows exactly that entry |
| Catalog.EnrollingCSE203ShowsCSE301 | src/Courses/components/Courses.jsx:105 | enrolling only CSE203 shows exactly the Database entry CSE301 |
| Catalog.CSE205SelectsCSE303Forward | src/Courses/components/Courses.jsx:107 | with the forward lookup, CSE205 selects the CSE303 entry and no other |
| Catalog.EnrollingCSE205ShowsCSE303Forward | src/Courses/components/Courses.jsx:102-110 | with the forward lookup, enrolling only CSE205 shows the Computer Networks entry CSE303 |
| Catalog.SharedValues | src/Courses/components/Courses.jsx:102-110 | only the CSE204 and CSE205 keys share a mapped code |
| Catalog.LookupsAgreeExceptCSE205 | src/Courses/components/Courses.jsx:126-129 | for every id other than CSE205 the lookup as written and the forward lookup select the same entries |
| Catalog.FilterAgree | src/Courses/components/Courses.jsx:122-131 | filters that agree on every entry give the same list |
| Catalog.CoursesDataAgreeWithoutCSE205 | src/Courses/components/Courses.jsx:116-132 | unless CSE205 is enrolled, the page shows what the forward lookup shows |
| EnrolledView.IconFor | src/componnts/SubComponent/Enrolled.jsx:46 | every card gets one of the four icon files, never an empty path |
| EnrolledView.IconForKnownAndUnknown | src/componnts/SubComponent/Enrolled.jsx:28-36 | each mapped id gets its own icon; every other id gets the default |
| EnrolledView.DescriptionReadsBack | src/componnts/SubComponent/Enrolled.jsx:45 | the description holds the course id after its prefix, and its credit field reads back as the course's credits |
| EnrolledView.Cards | src/componnts/SubComponent/Enrolled.jsx:42-48 | one card per enrolled course, in order, with its name, description and icon |
| EnrolledView.CardsAppend | src/componnts/SubComponent/Enrolled.jsx:43 | the cards of a concatenation are the concatenated cards |
| EnrolledView.EmptyStateIffNoEnrollment | src/componnts/SubComponent/Enrolled.jsx:73 | the empty state shows exactly when nothing is enrolled |
| Finance.InitialTransactionsUniqueIds | src/finance/component/Finance.jsx:41-92 | the starting history numbers its transactions 1 to 5 |
| Finance.FormFor | src/finance/component/Finance.jsx:102-111 | the form holds the transaction's id and student, an amount text that reads back as the amount (empty for 0), and its method unless that is a placeholder |
| Finance.WithField | src/finance/component/Finance.jsx:125-130 | an input changes its own field only, never the id |
| Finance.NewAmount | src/finance/component/Finance.jsx:144 | a non-zero number typed replaces the amount (`ParseNumber` reads `Number()`); a zero or unreadable one keeps the previous amount |
| Finance.AfterSubmit | src/finance/component/Finance.jsx:136-150 | `SubmitOne` and `Settled` are the `map` callback; only the chosen transaction changes: completed, a payment, dated today, with the form's method, student and amount |
| Finance.SubmitWithoutTarget | src/finance/component/Finance.jsx:134 | without a chosen id (or id 0) a submit changes nothing |
| Finance.SubmitKeepsUniqueIds | src/finance/component/Finance.jsx:136-150 | a submit keeps transaction ids unique |
| Finance.SubmitIdempotent | src/finance/component/Finance.jsx:136-150 | submitting the same form twice gives the result of once |
| Finance.OpenThenSubmit | src/finance/component/Finance.jsx:102-150 | opening a transaction and submitting the form unchanged completes it with its own amount, student and method |
| Finance.Visible | src/finance/component/Finance.jsx:358-359 | the history shows exactly the transactions of the chosen status, or all |
| Finance.VisibleAppend | src/finance/component/Finance.jsx:359 | the filter keeps the history's order |
| Finance.VisibleAll | src/finance/component/Finance.jsx:341-359 | the `all` period shows the whole history |
| Finance.StatusBadge | src/finance/component/Finance.jsx:198-205 | one of the three badges, the pending one for an unknown status |
| Finance.StatusBadgeKnown | src/finance/component/Finance.jsx:199-202 | the known statuses get badges labelled after them |
| Finance.FinancePage.constructor | src/finance/component/Finance.jsx:26-100 | the page starts with the history, an empty form, the modal closed and period `all` |
| Finance.FinancePage.OpenPaymentModal | src/finance/component/Finance.jsx:102-113 | the form is filled from the transaction and the modal opens |
| Finance.FinancePage.ClosePaymentModal | src/finance/component/Finance.jsx:115-123 | the modal closes and the form is reset |
| Finance.FinancePage.HandlePaymentInputChange | src/finance/component/Finance.jsx:125-130 | one form field changes |
| Finance.FinancePage.SelectPeriod | src/finance/component/Finance.jsx:344 | the period changes and nothing else |
| Finance.FinancePage.HandlePaymentSubmit | src/finance/component/Finance.jsx:132-152 | without a target nothing changes; otherwise the history becomes the submit result, ids stay unique, and the modal closes with a reset form |
| Applications.OrNotApplicable | src/application/component/Application.jsx:56-57 | an empty value becomes `N/A`, any other is kept |
| Applications.NewApplication | src/application/component/Application.jsx:53-61 | a new application is pending, carries the form's type and priority, `N/A` for blank course fields, the given id and date |
| Applications.Pending | src/application/component/Application.jsx:73 | exactly the pending applications |
| Applications.Processed | src/application/component/Application.jsx:74 | exactly the applications that are not pending |
| Applications.PendingProcessedPartition | src/application/component/Application.jsx:73-74 | the two views together count every application once |
| Applications.PendingOfAllPending | src/application/component/Application.jsx:73-74 | when all are pending, the pending view is the whole list and the processed view empty |
| Applications.SubmitKeepsAllPending | src/application/component/Application.jsx:53-63 | a submit keeps every application pending |
| Applications.DisplayedOfAllPending | src/application/component/Application.jsx:76-80 | `Displayed` is the tab's list; while all are pending, the `all` and `pending` tabs show the whole list, any other tab nothing |
| Applications.StatusColor | src/application/component/Application.jsx:16-27 | yellow exactly for pending, green exactly for approved, red exactly for rejected, grey exactly for every other status |
| Applications.PendingCardsAreYellow | src/application/component/Application.jsx:16-27 | while every application is pending, every card has the pending style and none the approved one |
| Applications.PriorityBadge | src/application/component/Application.jsx:42-49 | the fixed badge classes followed by the priority's colours |
| Applications.PriorityBadgeOfUnknown | src/application/component/Application.jsx:48 | an unlisted priority ends the class list with `undefined` |
| Applications.CourseLabel | src/application/component/Application.jsx:205 | `code: course` unless the code is `N/A`, then just the course |
| Applications.CourseLabelWithoutCode | src/application/component/Application.jsx:57 | a form without a course code shows just the course name, or `N/A` |
| Applications.WithField | src/application/component/Application.jsx:295-336 | an input changes its own field only |
| Applications.ApplicationPage.constructor | src/application/component/Application.jsx:6-14 | no applications, the empty form, modal closed, pending tab |
| Applications.ApplicationPage.HandleSubmit | src/application/component/Application.jsx:51-71 | the new application is appended, the form reset, the modal closed, all stay pending |
| Applications.ApplicationPage.ChangeField | src/application/component/Application.jsx:295-336 | one form field changes |
| Applications.ApplicationPage.SetModalOpen | src/application/component/Application.jsx:111 | the modal flag changes and the form is kept |
| Applications.ApplicationPage.SetActiveTab | src/application/component/Application.jsx:120-140 | the tab changes and nothing else |
| AuthPage.Validate | src/components/AuthPage.jsx:59-67 | no problem exactly when the passwords match and have at least 8 characters; a mismatch is reported first |
| AuthPage.PayloadFields | src/components/AuthPage.jsx:72-80 | `PayloadOf` builds `cleanedData`; name, e-mail and password are always sent; each optional field is sent exactly when it is not blank, the mobile number trimmed |
| AuthPage.PayloadOptionalFields | src/components/AuthPage.jsx:77-78 | the mobile number sent is trimmed and not blank; the gender sent is not blank but untrimmed |
| AuthPage.PayloadOfRequiredOnly | src/components/AuthPage.jsx:72-80 | a form blank apart from the required fields sends only those |
| AuthPage.RegisterErrorMessage | src/components/AuthPage.jsx:89-97 | a list message is joined with `, `; a non-empty text message is shown as it is; no body, no message or an empty text gives the default |
| AuthPage.RegisterErrorMessageEmpty | src/components/AuthPage.jsx:89-97 | the shown message is empty exactly for an empty list or a list holding one empty string |
| AuthPage.ScreenMatchesStore | src/components/AuthPage.jsx:49 | when the backend sends a message, the screen shows what the session store records: the same message after a login, the same text after a registration, a list joined on screen and kept whole in the store |
| AuthPage.RegisterErrorMessageCases | src/components/AuthPage.jsx:89-97 | a one-item list shows its item, an empty list nothing, a text itself, the disabled client the default |
| AuthPage.LoginErrorMessage | src/components/AuthPage.jsx:49 | a truthy response message is the one shown, otherwise the default; the result is always truthy |
| AuthPage.DisabledLoginMessages | src/components/AuthPage.jsx:49 | with the disabled client the screen shows its default while the store records the client's message |
| AuthPage.WithRegisterField | src/components/AuthPage.jsx:35-38 | a sign-up input changes its own field only |
| AuthPage.WithLoginField | src/components/AuthPage.jsx:30-33 | a login input changes its own field only |
| AuthPage.AuthPageState.constructor | src/components/AuthPage.jsx:7-25 | the given tab, empty forms, no messages, not loading |
| AuthPage.AuthPageState.HandleRegisterChange | src/components/AuthPage.jsx:35-38 | one sign-up field changes and the error is cleared |
| AuthPage.AuthPageState.HandleLoginChange | src/components/AuthPage.jsx:30-33 | one login field changes and the error is cleared |
| AuthPage.AuthPageState.SyncInitialTab | src/components/AuthPage.jsx:10-12 | a new `initialTab` becomes the active tab and nothing else changes |
| AuthPage.AuthPageState.SelectTab | src/components/AuthPage.jsx:151-170 | the tab changes and both messages are cleared |
| AuthPage.AuthPageState.HandleRegister | src/components/AuthPage.jsx:55-102 | a failed check shows its message and the store is not called; otherwise the payload goes to the store, whose answer gives the success or the error message, and loading ends |
| AuthPage.AuthPageState.FinishRegistration | src/components/AuthPage.jsx:84-87 | the delayed step switches to the login tab and clears the success message |
| AuthPage.AuthPageState.HandleLogin | src/components/AuthPage.jsx:40-53 | the store logs in with the answer; a failure shows the response message or the default; loading ends |
| Results.AllResultsShape | src/result/component/Result.jsx:42-64 | the full list is the recent results then two more, numbered 1 to 5 |
| Results.Shown | src/result/component/Result.jsx:139 | the recent tab shows the recent results, every other tab the full list |
| Results.ShownIsPrefixOfAll | src/result/component/Result.jsx:139 | whatever the tab, the list shown is a prefix of the full list with unique ids |
| Results.GradeColor | src/result/component/Result.jsx:77-82 | each colour stands for exactly its pair of grades, red for all others |
| Results.StatusColor | src/result/component/Result.jsx:66-75 | green exactly for passed, red exactly for failed, grey otherwise |
| Results.NoListedResultIsRed | src/result/component/Result.jsx:9-64 | no listed result is shown in red |
| Dashboard.IconPath | src/componnts/SubComponent/Dashboard.jsx:15-24 | one of the two icons, female exactly for a gender that lower-cases to `female` |
| Dashboard.IconPathIgnoresCase | src/componnts/SubComponent/Dashboard.jsx:16 | genders that agree up to case get the same icon |
| Dashboard.IconPathCases | src/componnts/SubComponent/Dashboard.jsx:15-24 | `female` gets the female icon; `male`, no gender and no user get the male one |
| Dashboard.WelcomeName | src/componnts/SubComponent/Dashboard.jsx:36 | never empty; the user's full name when it is non-empty, otherwise `Student` |
| Text.IntToString | src/componnts/SubComponent/Enrolled.jsx:45 | an integer renders with a minus sign exactly when negative, followed by digits |
| Text.ParseNumberOfIntToString | src/finance/component/Finance.jsx:106 | `ParseNumber` (`Number()`) reads a rendered integer back as itself |
| Text.TrimFacts | src/components/AuthPage.jsx:77-78 | `Trim` is `trim()`; its result is empty exactly for blank input and never starts or ends with white space |
| Text.TrimIdempotent | src/components/AuthPage.jsx:77 | trimming twice is trimming once |
| Text.JoinLineCount | src/Registration/Components/HeroDash.jsx:64 | joining break-free lines with line breaks uses one break fewer than lines |
| Text.ToLower | src/componnts/SubComponent/Dashboard.jsx:16 | lower-casing keeps the length and leaves no capital letter |
| Text.ToLowerIdempotent | src/componnts/SubComponent/Dashboard.jsx:16 | lower-casing twice is lower-casing once |

## Findings

| source | as written | input that shows it | evidently intended | confidence | as-written member | corrected member |
|---|---|---|---|---|---|---|
| src/Courses/components/Courses.jsx:128-129 | an enrolled id selects a catalog entry only when it is the FIRST key of `courseCodeMap` whose value is that entry's code | enroll only CSE205 (Computer Networks on the registration page): CSE205 and CSE204 both map to CSE303, the lookup settles on CSE204, and the page shows no course | the map's own comment lists CSE205 as an alternate code for Computer Networks, so enrolling it should show the CSE303 entry (the forward lookup `courseCodeMap[enrolledId] === course.courseCode`) | medium; not executed | Catalog.EnrollingCSE205ShowsNothing | Catalog.EnrollingCSE205ShowsCSE303Forward |

`Catalog.CoursesData` takes the lookup as a parameter. `FirstKey` is the code as written and `Forward` is the corrected lookup. `Catalog.CoursesDataAgreeWithoutCSE205` proves the two give the same page for every enrollment without CSE205, so CSE205 is the only id affected.

## Left out

- The backend client. `authAPI` is an oracle whose answer is a parameter. The HTTP client set-up and its interceptors in `src/utils/api.js` are not part of this model.
- Navigation (`navigate`), `alert`, `console` output and the "see all" buttons. They have no effect on modelled state.
- Asynchrony and React's batching of state updates. Every handler runs to completion as one step. The 2-second `setTimeout` after a successful sign-up is the separate step `FinishRegistration`.
- `checkAuth` briefly sets the user to the parsed cached value before the profile answer arrives. The model records only the final state.
- Rendering: JSX layout, icons (`getStatusIcon`, the finance summary cards), animation and the date shown on the dashboard.
- The browser's own form checks (`required`, `type="email"`, `minLength`). They are browser behaviour that the handlers do not repeat.
- Finance.NewAmount: amounts are integers. `Number()` on a decimal, exponent, `0x`/`0b`/`0o` or `Infinity` text reads as unreadable here (`None`), where JavaScript would give a number. Floating-point arithmetic is not modelled.
- Text.ParseNumber: models `Number()` only on optionally signed decimal integers surrounded by white space; decimals, exponents, `0x`/`0b`/`0o` literals and `Infinity` give `None`.
- Text.Trim: the white space set is the ASCII one plus no-break space, the line and paragraph separators and the byte-order mark. The other Unicode space separators are not included.
- Text.ToLower: lower-cases ASCII letters only.
- AuthPage.Validate: counts characters, while JavaScript's `length` counts UTF-16 units. Passwords outside the Basic Multilingual Plane can therefore differ.
- AuthStore.Codec: `parse` tells a throwing `JSON.parse` (`None`) from `null` (`Some(None)`) and a user (`Some(Some(u))`). Other JSON values (a number, a string) are not told apart from these. `checkAuth` sets them only briefly, and the profile answer overwrites them.
- Lookups in JavaScript objects by inherited keys (`courseIconMap["constructor"]`, `statusConfig["toString"]`) are not modelled. Only the listed keys are found.
- The id and date a submit creates (`Date.now()`, today's ISO date) are parameters.
- The other context files (Navbar, Sidebar, StatusCard, Login, Layout, App and the dashboard's finance card) are not part of this model.
