# EasyEMS in Dafny

EasyEMS is an employee management system. A React front end talks to a
Spring Boot REST back end backed by MongoDB. This project models its
business logic:

- **Dashboard** (`dashboard.dfy`): the department histogram, the five
  most recent hires and the monthly new-hire count.
- **Sign-in and registration screen** (`auth_page.dfy`).
- **Employee roster** (`employee_list.dfy`): the next `EMP` code, the
  salary sanitiser, the add and edit requests, the search filter, the
  CSV export and the view's handlers.
- **Payroll tab** (`payroll_tab.dfy`): the live gross/deductions/net
  form, the next `PR` code, the submit request, the filter, the export
  and the view's handlers.
- **Attendance tab** (`attendance.dfy`): the generated month of records,
  the attendance rate, editing one record, and the month statistics.
- **Back end**:
  - the payroll controller's CRUD with server-side recalculation
    (`backend_payroll.dfy`);
  - the employee service (`backend_employees.dfy`);
  - the authentication service (`backend_auth.dfy`).
- **Agreement** (`agreement.dfy`): lemmas relating what the front end
  sends to what the back end stores or answers.

Support modules:

- `text.dfy`: JavaScript string operations — `||` on texts, `parseInt`,
  `padStart`, `toLowerCase`, `includes`, `localeCompare`.
- `seqs.dfy`: `map`, `filter` and counting.
- `sorting.dfy`: a stable sort standing in for `Array.prototype.sort`.
- `csv.dfy`: join and split.
- `money.dfy`: amounts.
- `codes.dfy`: the "prefix + zero-padded number" code generator shared by
  employees and payroll records.
- `stores.dfy`: listing a store's values.

Modelling conventions:

- A React component's state is a `class` whose methods are its handlers.
  Each handler's `ensures` gives the whole new state.
- What a `fetch` returns is an input of the handler that awaits it.
- The server's collections are `map`s from document id to document.
- Amounts are integer cents.

## Model

| member | source | states |
|---|---|---|
| Dashboard.DepartmentDistribution | ems-frontend/src/components/EMSDashboard.js:43-59 | the counting loop (a map of counts plus the order keys first appear in) yields exactly the histogram `Distribution(data)` |
| Dashboard.TallyMapHoldsTallies | ems-frontend/src/components/EMSDashboard.js:47-50 | the dictionary the pass builds has exactly the departments seen as keys, each mapped to its number of employees |
| Dashboard.BucketsFromTallies | ems-frontend/src/components/EMSDashboard.js:52-56 | listing a dictionary of tallies in key order gives the histogram built from those tallies |
| Dashboard.Tally | ems-frontend/src/components/EMSDashboard.js:47-50 | a department's count is at most the number of employees and is positive exactly when some employee is in it |
| Dashboard.FirstSeen | ems-frontend/src/components/EMSDashboard.js:47-52 | the bucket names are exactly the departments that occur, each once |
| Dashboard.BucketsOf | ems-frontend/src/components/EMSDashboard.js:52-56 | bucket k carries the k-th name, its count, and colour k of the eight-colour palette, cycling |
| Dashboard.BucketsCoverEveryone | ems-frontend/src/components/EMSDashboard.js:43-59 | the bucket counts add up to the number of employees: nobody is lost or counted twice |
| Dashboard.DistributionNames | ems-frontend/src/components/EMSDashboard.js:44-56 | every bucket names a department of some employee, and every employee's department (or "Unassigned") has a bucket |
| Dashboard.DistributionBuckets | ems-frontend/src/components/EMSDashboard.js:45-56 | bucket names are distinct, every bucket counts at least one employee, and colours follow the palette by position |
| Dashboard.FirstSeenOrder | ems-frontend/src/components/EMSDashboard.js:47-52 | buckets appear in the order their departments first occur in the list |
| Dashboard.AvatarIndex | ems-frontend/src/components/EMSDashboard.js:100-104 | the avatar is one of eight, chosen by name length modulo 8, and the first when there is no name |
| Dashboard.Recent | ems-frontend/src/components/EMSDashboard.js:61-83 | at most five cards, min(5, n) of them, the i-th made from the i-th employee in newest-first order |
| Dashboard.NewestIsPermutation | ems-frontend/src/components/EMSDashboard.js:63-70 | the newest-first order is a rearrangement of the employee list |
| Dashboard.RecentFromData | ems-frontend/src/components/EMSDashboard.js:71-80 | every recent card is the card of some fetched employee |
| Dashboard.CardFallbacks | ems-frontend/src/components/EMSDashboard.js:73-77 | a missing or empty `_id`, position, department or status falls back to `id`, designation then "Not Specified", "Unassigned" and "Active" |
| Dashboard.AllStampedNewestFirst | ems-frontend/src/components/EMSDashboard.js:64-67 | when every employee has a creation time, the order is by creation time, latest first |
| Dashboard.Compare | ems-frontend/src/components/EMSDashboard.js:63-69 | with both creation times, the first sorts earlier exactly when it is newer; otherwise exactly when its id text is lexicographically greater, and the two tie exactly when the id texts are equal |
| Dashboard.CompareAntisymmetric | ems-frontend/src/components/EMSDashboard.js:63-69 | swapping the two employees negates the comparison |
| Dashboard.NoneStampedIdsDescending | ems-frontend/src/components/EMSDashboard.js:68-69 | when no employee has a creation time, the order is by id, descending in string order |
| Dashboard.NewHiresAppend | ems-frontend/src/components/EMSDashboard.js:85-96 | the new-hire count is at most the number of employees, and one more employee adds one exactly when hired in the given month |
| Dashboard.NewHires | ems-frontend/src/components/EMSDashboard.js:85-95 | the count of employees created in the given month and year is at most the number of employees, and zero exactly when none was |
| Dashboard.UnstampedNotCounted | ems-frontend/src/components/EMSDashboard.js:90-94 | employees without a creation time are never new hires |
| Dashboard.RenderedStats | ems-frontend/src/components/EMSDashboard.js:16-20 | the statistics object every render builds shows 7 new hires |
| Dashboard.NewHiresNeverShown | ems-frontend/src/components/EMSDashboard.js:97 | with one employee hired this month the computed count is 1 while the rendered card still shows 7 |
| Dashboard.DashboardView.FetchEmployees | ems-frontend/src/components/EMSDashboard.js:25-41 | on success the employees, histogram and recent cards are replaced; on failure the data is kept; loading ends false. The shown new-hire count is the intended behaviour (corrected member of the finding below), not the code as written, whose card stays at 7 |
| AuthPage.DetermineUserRole | ems-frontend/src/components/EMSAuthPage.js:40-48 | company admin exactly when the email contains "admin" or "company" |
| AuthPage.LoginDestination | ems-frontend/src/components/EMSAuthPage.js:66-72 | a login navigates only when the reply mentions "successful": to the admin dashboard exactly when the email contains "admin", else to the employee dashboard |
| AuthPage.CompanyEmailRoutedAsEmployee | ems-frontend/src/components/EMSAuthPage.js:40-48 | an email with "company" but not "admin" is classed as company admin yet routed to the employee dashboard |
| AuthPage.RegistrationOf | ems-frontend/src/components/EMSAuthPage.js:89-108 | the registration body always has role "admin" and carries the admin's email and password |
| AuthPage.AuthView.Submit | ems-frontend/src/components/EMSAuthPage.js:50-123 | login sends the credentials and shows the reply; registration with unequal passwords sends nothing; an accepted registration switches to login; a network error shows "Login failed: " or "Registration failed: " before its message; the form is untouched |
| AuthPage.AuthView.ToggleForm | ems-frontend/src/components/EMSAuthPage.js:126-147 | switches mode and clears all seventeen inputs |
| EmployeeList.Normalize | ems-frontend/src/components/EmployeeList.js:53-56 | the listed id is `_id` when that is non-empty, else the record's id; nothing else changes |
| Codes.MaxNumber | ems-frontend/src/components/EmployeeList.js:76-79 | the largest parsed suffix (0 when none parses) bounds every suffix and is one of them |
| Codes.CodeFor | ems-frontend/src/components/EmployeeList.js:80 | the padded code starts with the prefix, has at least the padding width of digits, and its suffix parses back to the number |
| Codes.NextCode | ems-frontend/src/components/EmployeeList.js:75-81 | the next code's suffix is one more than the largest existing suffix |
| Codes.NextCodeIsNew | ems-frontend/src/components/EmployeeList.js:75-81 | the next code's number exceeds every parsed suffix, so it equals no existing code |
| Codes.NextCodeAdvances | ems-frontend/src/components/EmployeeList.js:75-81 | once the generated code is added, the largest suffix has grown by exactly one, so successive codes increase |
| Text.PaddedDecimalParses | ems-frontend/src/components/EmployeeList.js:77-80 | `parseInt` of a zero-padded decimal gives back the number |
| EmployeeList.GenerateEmployeeId | ems-frontend/src/components/EmployeeList.js:75-81 | an "EMP" code with at least three digits that no listed employee has |
| EmployeeList.FirstEmployeeId | ems-frontend/src/components/EmployeeList.js:75-81 | an empty roster gets "EMP001" |
| EmployeeList.EmployeeIdAfterFive | ems-frontend/src/components/EmployeeList.js:75-81 | after "EMP005" comes "EMP006" |
| EmployeeList.SanitizeSalary | ems-frontend/src/components/EmployeeList.js:100 | removes every '$' and ',' and keeps every other character |
| EmployeeList.SanitizeSalaryIdempotent | ems-frontend/src/components/EmployeeList.js:100 | sanitising twice is sanitising once |
| EmployeeList.PayloadOf | ems-frontend/src/components/EmployeeList.js:93-104 | the request body copies the form's fields, with the given code and the sanitised salary; the join date stays the form's text (see "Left out") |
| EmployeeList.AddPayload | ems-frontend/src/components/EmployeeList.js:93-104 | a typed code is kept; an empty one is replaced by a code that is new to the roster |
| EmployeeList.EditRequest | ems-frontend/src/components/EmployeeList.js:141-156 | the edit goes to the form's stored id and keeps the form's code |
| EmployeeList.EditTargetsOpenedRecord | ems-frontend/src/components/EmployeeList.js:199-214 | editing an opened record sends to that record's id, with its code and its salary text |
| EmployeeList.FilteredEmployees | ems-frontend/src/components/EmployeeList.js:253-261 | keeps exactly the employees matching the search, department and status filters |
| EmployeeList.SearchIgnoresCase | ems-frontend/src/components/EmployeeList.js:254-256 | the search term's case does not change the result |
| EmployeeList.BlankFilterKeepsNamed | ems-frontend/src/components/EmployeeList.js:253-261 | with no search and "All" filters every named employee is kept, in order |
| Seqs.FilterIsOrderedSubsequence | ems-frontend/src/components/EmployeeList.js:253-261 | a filter keeps the list's order: its result is the items at strictly increasing positions |
| EmployeeList.ExportRow | ems-frontend/src/components/EmployeeList.js:221-224 | one cell per header, all plain text when the record's texts are |
| EmployeeList.ExportCellsUnderHeaders | ems-frontend/src/components/EmployeeList.js:219-224 | each of the ten cells sits under its header: the texts (a missing one as ''), and the salary cell as the formatted amount |
| EmployeeList.ExportRows | ems-frontend/src/components/EmployeeList.js:218-225 | the header row followed by one row per employee, in order |
| EmployeeList.ExportReadsBack | ems-frontend/src/components/EmployeeList.js:218-225 | splitting the exported text on newlines and commas gives back the rows, when no cell contains a comma or newline |
| Csv.DecodeEncode | ems-frontend/src/components/EmployeeList.js:225 | joining rows with ',' and newlines and splitting again is the identity on plain cells |
| Csv.CommaInCellSplitsIt | ems-frontend/src/components/EmployeeList.js:225 | a cell holding a comma reads back as two cells, since cells are not quoted |
| Money.AmountTextPlain | ems-frontend/src/components/EmployeeList.js:223 | an amount's text has only digits, '-' and '.', and so never breaks a CSV row |
| Money.WholeAmountText | ems-frontend/src/components/Payroll.js:171-172 | a whole, non-negative amount prints as its units with no decimal point, as JavaScript's `String` does |
| EmployeeList.RosterView.FetchEmployees | ems-frontend/src/components/EmployeeList.js:44-64 | the list is replaced by the normalised records on success; the error text is cleared or set; loading ends false |
| EmployeeList.RosterView.ResetForm | ems-frontend/src/components/EmployeeList.js:236-251 | a blank form with status "Active", and the add form closed |
| EmployeeList.RosterView.EditClick | ems-frontend/src/components/EmployeeList.js:199-214 | the form is filled from the record and the edit dialog opens |
| EmployeeList.RosterView.AddEmployee | ems-frontend/src/components/EmployeeList.js:83-128 | with a required field empty nothing is sent or changed; otherwise the add body is sent, and success reloads and resets while failure shows the error and keeps the form |
| EmployeeList.RequiredGuard | ems-frontend/src/components/EmployeeList.js:84-87 | blanking any of name, email, department, position, salary or join date trips the guard, and only those six inputs decide it (the edit handler repeats it at lines 131-134) |
| EmployeeList.RosterView.EditEmployee | ems-frontend/src/components/EmployeeList.js:130-174 | the same guard; success reloads, resets and closes the dialog; failure keeps everything and shows the error |
| EmployeeList.RosterView.DeleteEmployee | ems-frontend/src/components/EmployeeList.js:177-190 | without confirmation nothing is sent; otherwise the delete goes to the id, and success reloads while failure shows the error |
| PayrollTab.TextChangeKeepsDerived | ems-frontend/src/components/Payroll.js:41-54 | changing a text input keeps gross, deductions and net consistent and unchanged |
| PayrollTab.PayrollView.HandleInputChange | ems-frontend/src/components/Payroll.js:41-54 | a text change sets that field; an amount change sets it and recomputes gross, deductions and net |
| PayrollTab.WorkedExample | ems-frontend/src/components/Payroll.js:46-50 | 5000 + 200 + 100 gross, 800 + 150 + 250 deductions, and so 4100 net |
| PayrollTab.GeneratePayrollId | ems-frontend/src/components/Payroll.js:56-62 | a "PR" code with at least four digits that no listed record has |
| PayrollTab.FirstPayrollId | ems-frontend/src/components/Payroll.js:56-62 | an empty list gets "PR0001" |
| PayrollTab.DateOrNull | ems-frontend/src/components/Payroll.js:77-78 | an empty date is sent as null, any other as itself |
| PayrollTab.SubmitPayload | ems-frontend/src/components/Payroll.js:72-90 | a typed code is kept, an empty one replaced by a new one; every amount defaults to 0, empty dates become null, texts are copied |
| PayrollTab.Request | ems-frontend/src/components/Payroll.js:93-94 | edit sends PUT to the record's id; add and view send POST to the collection |
| PayrollTab.Normalize | ems-frontend/src/components/Payroll.js:33 | the listed id is `_id` when that is non-empty, else the record's id; nothing else changes |
| PayrollTab.EditTargetsOpenedRecord | ems-frontend/src/components/Payroll.js:126-154 | editing an opened record sends PUT to its id and keeps its code |
| PayrollTab.FilteredRecords | ems-frontend/src/components/Payroll.js:186-192 | keeps exactly the records matching the search and status filter |
| PayrollTab.CodeSearchFinds | ems-frontend/src/components/Payroll.js:186-192 | searching for part of a payroll code, in any case, finds that record under "All Status" |
| PayrollTab.ExportRow | ems-frontend/src/components/Payroll.js:170-173 | one cell per header |
| PayrollTab.MissingCellsExport | ems-frontend/src/components/Payroll.js:170-173 | missing amounts export as "0" and missing texts as empty cells |
| PayrollTab.ExportRows | ems-frontend/src/components/Payroll.js:167-175 | the header row followed by one row per record, in order |
| PayrollTab.ExportRowPlain | ems-frontend/src/components/Payroll.js:170-173 | the amount cells never hold a separator, so a record's row is plain when its texts are |
| PayrollTab.ExportReadsBack | ems-frontend/src/components/Payroll.js:167-175 | the exported text reads back as those rows when no text holds a comma or newline |
| PayrollTab.PayrollView.FetchRecords | ems-frontend/src/components/Payroll.js:27-39 | the list is replaced on success, the error set otherwise (kept on success, as `LoadError` states); loading ends false |
| PayrollTab.LoadError | ems-frontend/src/components/Payroll.js:30-35 | a successful fetch keeps the previous error; a refused one sets "Error loading payroll: Failed to fetch payroll records", a thrown one the prefix plus its message |
| PayrollTab.PayrollView.ResetForm | ems-frontend/src/components/Payroll.js:156-165 | a blank form with status "Draft", the dialog closed, nothing selected |
| PayrollTab.PayrollView.OpenModal | ems-frontend/src/components/Payroll.js:126-154 | add opens a blank form; edit and view select the record and fill the form from it |
| PayrollTab.PayrollView.Submit | ems-frontend/src/components/Payroll.js:64-112 | with a required field empty nothing is sent; otherwise the request for the dialog's mode is sent. Success reloads and resets, and the error is what the reload leaves. Failure shows the submit error and keeps the list, form, dialog and selection |
| PayrollTab.RequiredGuard | ems-frontend/src/components/Payroll.js:64-68 | blanking employee id, employee name or base salary trips the guard, and only those three inputs decide it |
| PayrollTab.SubmitError | ems-frontend/src/components/Payroll.js:101-107 | a refused submit reports "Failed to add/edit/view payroll record" after the mode's prefix, a thrown error passes its message on; only an edit says "updating", so a view-dialog submit reads "adding" |
| PayrollTab.PayrollView.Delete | ems-frontend/src/components/Payroll.js:114-124 | without confirmation nothing is sent; otherwise the delete goes to the id. Success reloads, and the error is what the reload leaves. Failure shows the delete error and leaves the list and loading flag as they were; the form and dialog are kept either way |
| Attendance.Workdays | ems-frontend/src/components/Attendance.js:19-21 | the listed days increase strictly and lie between the 1st and the last day |
| Attendance.WorkdaysAreWeekdays | ems-frontend/src/components/Attendance.js:19-21 | a day is listed exactly when it is between the 1st and the last day and falls on neither Saturday nor Sunday |
| Attendance.DrawOutcome | ems-frontend/src/components/Attendance.js:22-41 | the chain of threshold branches gives exactly the outcome of the threshold table `Classify` |
| Attendance.Classify | ems-frontend/src/components/Attendance.js:22-41 | below 0.05 absent, below 0.1 late, below 0.15 half day, otherwise present, with the matching times and hours |
| Attendance.NoteMarksAbsentOrLate | ems-frontend/src/components/Attendance.js:53 | the "Medical appointment" note appears exactly on absent and late days |
| Attendance.GenerateSampleAttendance | ems-frontend/src/components/Attendance.js:14-58 | the day loop builds exactly one record per workday of the month so far |
| Attendance.SampleRecords | ems-frontend/src/components/Attendance.js:19-56 | one record per workday |
| Attendance.SampleRecordsAt | ems-frontend/src/components/Attendance.js:19-56 | the i-th record is the one made for the i-th workday from that day's draw |
| Attendance.SampleRecordsShape | ems-frontend/src/components/Attendance.js:43-54 | each record is the one made for its workday, and the record ids, structured and printed, are pairwise distinct |
| Attendance.IdTextInjective | ems-frontend/src/components/Attendance.js:44 | for one employee, different days print different record ids |
| Attendance.SampleDatesInMonth | ems-frontend/src/components/Attendance.js:48 | every generated date lies in the current month |
| Attendance.PresentDays | ems-frontend/src/components/Attendance.js:69 | present, late and half days number at most the records |
| Attendance.FetchRateBounds | ems-frontend/src/components/Attendance.js:71 | the rate is a percentage between 0 and 100: 0 with no records, 100 when every day counts |
| Attendance.SaveRate | ems-frontend/src/components/Attendance.js:155 | no value (NaN in Attendance.js) exactly when there are no records; otherwise the same quotient as at fetch |
| Attendance.WithAttendance | ems-frontend/src/components/Attendance.js:67-80 | the employee with its records, its present and total days and its rate, consistent with one another |
| Attendance.FetchedStaffConsistent | ems-frontend/src/components/Attendance.js:67-80 | each fetched employee has as many days as workdays, at most that many present, a rate that is the quotient of the two, and pairwise different record ids |
| Attendance.FetchedStaff | ems-frontend/src/components/Attendance.js:67-81 | one entry per fetched employee; what each entry holds is stated by `FetchedListConsistent` |
| Attendance.FetchedListConsistent | ems-frontend/src/components/Attendance.js:67-81 | entry k is employee k with its id normalised and its own generated month, with counters that agree with its records and a rate between 0 and 100 |
| Attendance.WorkHours | ems-frontend/src/components/Attendance.js:131-137 | no time means 0 hours; otherwise the clock difference in hours, never negative |
| Attendance.NineToHalfPastFive | ems-frontend/src/components/Attendance.js:133-136 | 09:00 to 17:30 is 8.5 hours |
| Attendance.Edited | ems-frontend/src/components/Attendance.js:129-146 | the record keeps its id, date, owner, employee name and department, takes the form's status and note, stores empty times as "--", and recomputes the hours |
| Attendance.SaveUnchangedKeepsRecord | ems-frontend/src/components/Attendance.js:112-146 | opening a record with both times and saving the dialog unchanged gives the record back, apart from the hours recomputed from its times |
| Attendance.SaveEdit | ems-frontend/src/components/Attendance.js:123-165 | the staff list keeps its length |
| Attendance.SaveEditTouchesOneRecord | ems-frontend/src/components/Attendance.js:125-165 | other employees are unchanged; in the selected employee only the selected record changes, its day total stays, and its present days and rate are recomputed from the edited records (no rate when it has none) |
| Attendance.AtMostOneSelected | ems-frontend/src/components/Attendance.js:127-128 | when an employee's record ids are unique (as every fetched employee's are), at most one record matches the selected id, so an edit changes at most one record |
| Attendance.SaveEditKeepsConsistent | ems-frontend/src/components/Attendance.js:151-161 | after an edit every employee's day total and present days still agree with its records, and its rate is the quotient of the two (none only with no days) |
| Attendance.FilteredStaff | ems-frontend/src/components/Attendance.js:172-176 | keeps exactly the employees whose name, code or department contains the term, ignoring case |
| Attendance.MonthRecords | ems-frontend/src/components/Attendance.js:178-180 | the records of all employees dated in the chosen month and nothing else: every one comes from some employee, every employee's record of the month is there, and the length is the sum over employees of their records of the month |
| Attendance.Stats | ems-frontend/src/components/Attendance.js:182-187 | the total is the number of the month's records, each status count is the number of records with that status, and the three counts together never exceed the total |
| Attendance.StatsBounds | ems-frontend/src/components/Attendance.js:182-187 | present, absent and late counts never exceed the records of the month |
| Attendance.AttendanceView.FetchEmployees | ems-frontend/src/components/Attendance.js:60-89 | on success one entry per fetched employee with its generated month; on failure the list is kept; loading ends false |
| Attendance.AttendanceView.EditRecord | ems-frontend/src/components/Attendance.js:112-121 | selects the record, fills the form with "--" shown as empty, and opens the dialog |
| Attendance.AttendanceView.SaveEditRecord | ems-frontend/src/components/Attendance.js:123-170 | applies the edit to the selected record, closes the dialog and clears the selection |
| PayrollController.Recalculated | ems-backend/src/main/java/com/ems/controller/PayrollController.java:67-75 | the derived amounts agree with the entered ones, and no other field changes |
| PayrollController.RecalculatedFixesCalculated | ems-backend/src/main/java/com/ems/controller/PayrollController.java:67-75 | recalculation leaves a consistent document alone, so it is idempotent |
| PayrollController.Controller.CalculatePayroll | ems-backend/src/main/java/com/ems/controller/PayrollController.java:67-75 | the entity's setters leave it equal to the recalculated document |
| PayrollController.Controller.GetAll | ems-backend/src/main/java/com/ems/controller/PayrollController.java:23-26 | every stored document, each once |
| PayrollController.Controller.GetById | ems-backend/src/main/java/com/ems/controller/PayrollController.java:29-34 | the stored document, or 404 |
| PayrollController.Controller.Create | ems-backend/src/main/java/com/ems/controller/PayrollController.java:37-42 | the recalculated document is saved under its own id (or a fresh one) and returned; the store stays consistent |
| PayrollController.Controller.Update | ems-backend/src/main/java/com/ems/controller/PayrollController.java:45-54 | 404 and no change when absent; otherwise that document is replaced by the recalculated body under the path id |
| PayrollController.Controller.Delete | ems-backend/src/main/java/com/ems/controller/PayrollController.java:57-64 | 404 and no change when absent; otherwise exactly that document is removed, 204 |
| EmployeeService.Updated | ems-backend/src/main/java/com/ems/service/EmployeeService.java:36-47 | the stored id is kept and every other field is taken from the update |
| EmployeeService.UpdateIdempotent | ems-backend/src/main/java/com/ems/service/EmployeeService.java:34-51 | applying the same update twice is applying it once |
| EmployeeService.Service.GetAll | ems-backend/src/main/java/com/ems/service/EmployeeService.java:18-20 | every stored employee, each once |
| EmployeeService.Service.Add | ems-backend/src/main/java/com/ems/service/EmployeeService.java:23-25 | saved under its own id or a fresh one, replacing any document with that id |
| EmployeeService.Service.Get | ems-backend/src/main/java/com/ems/service/EmployeeService.java:28-31 | the stored employee, or none |
| EmployeeService.Service.Update | ems-backend/src/main/java/com/ems/service/EmployeeService.java:34-51 | none and no change when absent; otherwise only that document changes, to the updated one |
| EmployeeService.Service.Delete | ems-backend/src/main/java/com/ems/service/EmployeeService.java:54-56 | exactly that id is removed, absent or not |
| AuthService.Stored | ems-backend/src/main/java/com/ems/service/AuthService.java:27-28 | the saved user has the encoded password and is otherwise the submitted user |
| AuthService.LoginResult | ems-backend/src/main/java/com/ems/service/AuthService.java:34-47 | "Login successful" exactly when the email is registered and the password matches its hash; otherwise 401 |
| AuthService.RegisteredUserCanLogIn | ems-backend/src/main/java/com/ems/service/AuthService.java:21-47 | with a sound encoder, a user just registered can log in with the same password |
| AuthService.Service.Register | ems-backend/src/main/java/com/ems/service/AuthService.java:21-31 | a taken email gives 400 and no change; otherwise the user is stored with a hashed password |
| AuthService.Service.Login | ems-backend/src/main/java/com/ems/service/AuthService.java:34-47 | answers as `LoginResult` and changes nothing |
| Agreement.ServerRecomputesFormAmounts | ems-backend/src/main/java/com/ems/controller/PayrollController.java:37-42 | whatever the form shows, the server stores gross, deductions and net computed from the form's six amounts |
| Agreement.ServerKeepsDerivedForm | ems-frontend/src/components/Payroll.js:41-54 | a form kept consistent by its input handler is stored unchanged by the server |
| Agreement.LoginTexts | ems-frontend/src/components/EMSAuthPage.js:66 | the success text contains "successful" and the refusal does not |
| Agreement.NavigatesIffServerAccepts | ems-frontend/src/components/EMSAuthPage.js:58-72 | the screen navigates exactly when the server accepts the credentials |
| Agreement.RegisteredAdminGetsIn | ems-frontend/src/components/EMSAuthPage.js:89-110 | a company admin registered through the screen can log in with the admin password |

## Left out

- Network, browser dialogs and downloads are not modelled:
  - `fetch`, `alert`, `confirm` and the Blob/anchor download are not
    modelled;
  - the outcome of each request is a handler input;
  - a confirmation is a boolean input;
  - the exported CSV is the text that would be downloaded.
- The dashboard's 30-second polling is not modelled, nor is any
  interleaving of handlers.
- Time is an input of the model:
  - the JavaScript `Date` is a `Calendar` or `Stamp` value
    (year, month, day count, today, weekday of the 1st, milliseconds);
  - `toISOString`'s UTC shift is not modelled;
  - payroll dates are kept as their ISO text;
  - attendance record dates and ids are kept as their parts (`Day`,
    `RecordKey`); `DateText` and `IdText` print them as Attendance.js does,
    and the month filter compares the printed date;
  - `LocalDate` on the server is not modelled.
- EmployeeList.PayloadOf: the join date is sent as the form's day text.
  EmployeeList.js (lines 101 and 148) sends `new Date(joinDate)`, which
  JSON writes as a full UTC timestamp, or null when the text does not
  parse. That conversion and its JSON form are not modelled.
- `Math.random()` draws are an input function from day to a real in
  [0, 1).
- Numbers are exact:
  - amounts are integer cents and rates and hours are exact reals;
  - `parseFloat`, the salary's float parse, `toFixed` rounding and Java
    `double` are not modelled;
  - an input that does not parse is a missing amount (`None`), where the
    source would have `NaN`.
- The attendance rate is kept as the exact quotient it is computed from
  (a `Percent`, present days over total days); `Value` gives it in
  percent. The string that `toFixed(1)` produces is not modelled, and the
  fetch's integer 0 is the empty quotient.
- Attendance.WorkHours:
  - it reads only `HH:MM` times, where Attendance.js parses any time text
    through `Date`;
  - a time that does not parse gives no value, where Attendance.js gives
    `NaN`.
- Text:
  - `localeCompare` is code-unit lexicographic order;
  - case folding is ASCII only;
  - Dashboard.AvatarIndex counts name length in code points, not UTF-16
    units;
  - only the avatar's index is modelled, not the glyph table.
- `Object.entries` lists integer-like keys first. The histogram keeps
  plain first-seen order, which differs only for department names that
  are array indices.
- Screen-only handlers are not modelled:
  - the per-field `handleInputChange` of the roster and the sign-in
    screen, which only copy a value into the form;
  - the view and close handlers, and the filter setters;
  - all styling helpers.
- Auth screen: `handleSubmit`'s `preventDefault` and the loading of the
  next screen are not modelled.
- The REST controllers for employees and authentication only forward to
  their services, so they are not modelled separately. `App.js` routing
  is not modelled.
- AuthService:
  - BCrypt is an abstract `Encoder` (its salt is part of `encode`);
  - `Sound` only states that a password matches its own encoding.
- AuthService.Service.Register keys users by email. It does not model a
  client-supplied Mongo id overwriting another user's document on save.
- Spring Data `save` of a document without an id draws a fresh id. That
  id is an input (`freshId`).
- Null Java fields are not modelled:
  - optional strings are `Option`;
  - amounts default to 0;
  - Java `null` on a missing path parameter is not modelled.
- Dashboard.NoneStampedIdsDescending and Dashboard.AllStampedNewestFirst
  cover the two uniform cases only. A list mixing stamped and unstamped
  employees gets the dashboard's comparator, which is not a total order, and
  no sortedness is claimed for it.
- Attendance.SaveEdit: its own contract states only the length. What
  changes is stated by Attendance.SaveEditTouchesOneRecord and
  Attendance.SaveEditKeepsConsistent.

## Findings

| source | as written | input that shows it | evidently intended | confidence | as-written member | corrected member |
|---|---|---|---|---|---|---|
| ems-frontend/src/components/EMSDashboard.js:97 | the new-hire count is written into the `sampleStats` object of the render that created the fetch callback; every render builds a fresh object with `newHiresThisMonth: 7` (lines 16-20), and lines 227 and 247 show that | one employee whose `createdAt` falls in the current month: the count is 1, the card shows 7 | the card shows the number of employees created this month | not executed | Dashboard.NewHiresNeverShown | Dashboard.DashboardView.FetchEmployees |
