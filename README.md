# A verified model of the recruitment front end

This project models the client-side logic of a recruitment web application in Dafny.

- **Employers** post jobs and browse a job board. They screen candidates in a filterable table and send interview invitations.
- **Applicants** apply through a three-step dialog: upload a résumé, fill in personal details, then read practice questions. They sign in with a phone number and a one-time code.
- **Interviews** run in a screen that records the webcam and hosts a small code editor that runs programs on a remote service.

Each component of the application is one module:

- Pure logic becomes datatypes, functions and lemmas.
- State that the component's handlers update becomes a `class` with those fields. Each handler is one method, whose `ensures` state the whole new state.

The browser, the timers and the web services are not modelled. For each, the model takes what it returns or throws as a parameter of the handler that awaits it.

| file | module | models |
|---|---|---|
| `text.dfy` | `Options`, `Text`, `Sequences` | `null`/`undefined` as `Option`; `trim`, `\s`, `toLowerCase`, `includes`, `startsWith`; `Array.prototype.filter` |
| `format_time.dfy` | `TimeFormat` | `formatTime`, and a reader for its `MM:SS` labels |
| `language.dfy` | `Languages` | the table of editor languages |
| `code_editor.dfy` | `CodeEditor` | the executable code editor |
| `video_chat.dfy` | `VideoChat` | the recording session of the interview screen |
| `interview_scheduling.dfy` | `InterviewScheduling` | the candidate table |
| `job_application_form.dfy` | `JobApplication` | the application dialog |
| `phone_auth.dfy` | `PhoneAuth` | phone-number sign-in |
| `job_listing.dfy` | `JobListing` | the location and employment-type labels of a job card |
| `user_instructions.dfy` | `UserInstructions` | the tabbed help page |
| `job_post_creation.dfy` | `JobPosts` | the employer's job board |

JavaScript semantics are written out where they matter:

- `Math.floor(s / 60)` is Dafny's `/`.
- `%` is the truncating `TimeFormat.JsRem`.
- `substring` clamps its arguments and swaps them when they are reversed.
- `||` on strings treats `""` as false.
- `find` returns the first match.

The three regular expressions of the source are written as predicates on strings:

- the email check in `JobApplication.EmailShape`;
- the phone check in `JobApplication.PhoneShape`;
- the international-number check in `PhoneAuth.InternationalShape`.

Where the code differs from its own description, the model follows the code:

- `stopRecording` logs "Recording stopped" on every call, even when nothing was recording.
- The language-change test compares the buffer with the template of the language the editor *started* with, not the previous language.
- The application submit tests `apiResponse.error` by truthiness, so an empty error text does not stop the submission.

## Model

| member | source | states |
|---|---|---|
| Sequences.Filter | src/components/InterviewScheduling.tsx:57 | `Array.prototype.filter`: never longer than its input, and every element kept passes the predicate |
| Sequences.FilterIsSubsequence | src/components/InterviewScheduling.tsx:57-64 | what `filter` keeps is a subsequence of its input, in the input's order |
| Sequences.FilterMembership | src/components/InterviewScheduling.tsx:57-64 | an element is kept iff it occurs in the input and satisfies the predicate |
| Sequences.FilterAppend | src/components/ImprovedVideoChat.tsx:65-69 | filtering an input extended by one element extends the output by that element exactly when the element is kept |
| Sequences.FilterAllKept | src/components/InterviewScheduling.tsx:57-64 | when every element passes, `filter` returns its input |
| Sequences.SubsequenceOfPrepend | src/components/JobPostCreation.tsx:116 | putting an element in front keeps the old elements in order behind it |
| Text.IsBlank | src/components/EnhancedCodeEditor.tsx:36 | `!s.trim()`: the string holds only whitespace |
| Text.StartsWith | src/components/auth/PhoneAuth.tsx:23 | `s.startsWith(p)`: p is a prefix of s |
| Text.Contains | src/components/InterviewScheduling.tsx:58-59 | `s.includes(sub)`: sub occurs in s at some position |
| Text.ToLower | src/components/JobListing.tsx:14 | `toLowerCase` keeps the length and maps each character on its own; only ASCII letters change |
| Text.ContainsInContext | src/components/InterviewScheduling.tsx:58-59 | an `includes` match survives text added on either side |
| Text.ContainsEmpty | src/components/InterviewScheduling.tsx:58-59 | `includes('')` is true for every string |
| TimeFormat.NatToDigits | src/utils/formatTime.ts:7-8 | `toString` of a non-negative integer is one or more decimal digits with no leading zero; one digit below 10, at most two below 100 |
| TimeFormat.IntToString | src/utils/formatTime.ts:7-8 | `toString` of any integer: at least one character, starting with `-` exactly when the integer is negative, and only digits otherwise |
| TimeFormat.PadStart2 | src/utils/formatTime.ts:7-8 | `padStart(2, '0')`: the length is at least 2, the original is kept whole as the suffix, and only zeros are added in front |
| TimeFormat.JsRem | src/utils/formatTime.ts:8 | JavaScript `%` with a positive divisor: smaller than the divisor in magnitude, with the sign of the dividend, and Dafny's `%` for a non-negative dividend |
| TimeFormat.JsRemDivision | src/utils/formatTime.ts:8 | the division identity a = JsQuot(a, b)·b + JsRem(a, b), with JsQuot the quotient rounded toward zero; with the bound and sign above this fixes the value |
| TimeFormat.JsRemOdd | src/utils/formatTime.ts:8 | negating the dividend negates the remainder |
| TimeFormat.JsRemOfMinusSeven | src/utils/formatTime.ts:8 | `-7 % 3` is -1 with quotient -2, not Dafny's 2 |
| TimeFormat.FormatTime | src/utils/formatTime.ts:6-10 | `formatTime`: the padded minutes, `:`, the padded JavaScript remainder; its properties are FormatTimeFields, FormatTimeRoundTrip and FormatTimeShort |
| TimeFormat.ColonIndex | src/utils/formatTime.ts:9 | position of the first `:` of a label, or None when there is none |
| TimeFormat.DigitsValueOfNat | src/utils/formatTime.ts:7-8 | the digits of `n.toString()` read back as `n` |
| TimeFormat.DigitsValueZeros | src/utils/formatTime.ts:7-8 | leading zeros added by the padding do not change a field's value |
| TimeFormat.ZerosValue | src/utils/formatTime.ts:7-8 | a field of zeros is worth 0 |
| TimeFormat.PadKeepsValue | src/utils/formatTime.ts:7-8 | a padded digit field keeps its value |
| TimeFormat.PaddedField | src/utils/formatTime.ts:7-8 | the padded field of `n` is all digits, at least two long, worth `n`, and exactly two long below 100 |
| TimeFormat.ColonIndexAfterDigits | src/utils/formatTime.ts:9 | the first `:` of `digits + ":" + rest` is right after the digits |
| TimeFormat.LabelFields | src/utils/formatTime.ts:7-9 | a label built from minutes q and seconds rem < 60 splits at its third-last character into a field of at least two digits worth q and a two-digit field worth rem |
| TimeFormat.LabelRoundTrip | src/utils/formatTime.ts:7-9 | reading a label back gives 60·q + rem |
| TimeFormat.FormatTimeFields | src/utils/formatTime.ts:6-10 | the label is minutes `:` seconds; seconds are exactly two digits worth `n % 60 < 60`; minutes are at least two digits worth `n / 60`, never truncated |
| TimeFormat.SplitLabel | src/utils/formatTime.ts:9 | a label with a two-character seconds field splits at its third-last character |
| TimeFormat.FormatTimeRoundTrip | src/utils/formatTime.ts:6-10 | reading the label back gives 60·minutes + seconds = the input, for every non-negative input |
| TimeFormat.FormatTimeShort | src/utils/formatTime.ts:1-10 | below 6000 seconds the label has exactly the five characters of `MM:SS` |
| TimeFormat.FormatTimeOfZero | src/utils/formatTime.ts:6-10 | `formatTime(0)` is "00:00" |
| TimeFormat.FormatTimeOfMinusFive | src/utils/formatTime.ts:7-8 | a negative input follows JavaScript: `formatTime(-5)` is "-1:-5" |
| Languages.FindIndex | src/utils/language.ts:7-19 | `find` by value: the first entry with that value, or None exactly when no entry has it |
| Languages.Find | src/utils/language.ts:7-19 | the table lookup by value succeeds exactly for the values in the table |
| Languages.ValuesDistinct | src/utils/language.ts:7-19 | no two entries share a `value` |
| Languages.FindEachEntry | src/utils/language.ts:7-19 | looking up an entry's value finds that entry |
| Languages.JavaScriptEntry | src/utils/language.ts:9 | a `javascript` entry exists, as the editor's non-null fallback requires, and it is the entry at index 1 that the video chat reads |
| Languages.DefaultsNotBlank | src/utils/language.ts:8-18 | every template has a non-whitespace character |
| Languages.SharedDefaults | src/utils/language.ts:8-17 | javascript/typescript and python/swift/r share templates, so "equals a template" does not identify a language |
| CodeEditor.ResolveLanguage | src/components/EnhancedCodeEditor.tsx:14-21 | the starting language is the requested one (default `javascript`) when the table has it, and JavaScript otherwise |
| CodeEditor.InitialCode | src/components/EnhancedCodeEditor.tsx:24 | `initialCode` when it is present and non-empty, otherwise the language's template |
| CodeEditor.Substring | src/components/EnhancedCodeEditor.tsx:65 | `substring(a, b)`: s[a..b] when a ≤ b ≤ \|s\|, s[b..a] when they are reversed, an end beyond the string clamped to \|s\|, "" when both are; never longer than s |
| CodeEditor.TabSplice | src/components/EnhancedCodeEditor.tsx:65 | the Tab splice `code.substring(0, start) + '  ' + code.substring(end)`; TabSpliceReplacesSelection gives its value |
| CodeEditor.TemplateFor | src/components/EnhancedCodeEditor.tsx:33-37 | the new language's template, or "" for a value outside the table |
| CodeEditor.SwapsTemplate | src/components/EnhancedCodeEditor.tsx:36 | the swap test `!code.trim() \|\| code === defaultLanguage.default` |
| CodeEditor.CodeAfterLanguageChange | src/components/EnhancedCodeEditor.tsx:36-42 | the buffer after a language change: the new template when the swap test holds, otherwise the buffer unchanged |
| CodeEditor.CompletionFor | src/components/EnhancedCodeEditor.tsx:86-96 | the callback gets (result, null) on success and (null, message) on failure, never both |
| CodeEditor.TabSpliceReplacesSelection | src/components/EnhancedCodeEditor.tsx:65 | for 0 ≤ start ≤ end ≤ \|code\|: Tab gives code[..start] + two spaces + code[end..]; prefix and suffix are kept; the length is \|code\| − (end − start) + 2 |
| CodeEditor.BlankBufferGetsTemplate | src/components/EnhancedCodeEditor.tsx:36-38 | a blank buffer switched to a language of the table receives a non-blank template |
| CodeEditor.EditedBufferKept | src/components/EnhancedCodeEditor.tsx:36 | an edited, non-blank buffer survives any language change |
| CodeEditor.SecondChangeKeepsFirstTemplate | src/components/EnhancedCodeEditor.tsx:21-38 | JavaScript → Python installs Python's template; a further change to Java keeps it, because the test compares with the initial language's template |
| CodeEditor.Editor.constructor | src/components/EnhancedCodeEditor.tsx:21-25 | the editor starts on the resolved language with the initial code, not executing |
| CodeEditor.Editor.ChangeLanguage | src/components/EnhancedCodeEditor.tsx:29-47 | the language is always set; the buffer is replaced, and `onChange` told, exactly when it was blank or the initial template |
| CodeEditor.Editor.ChangeCode | src/components/EnhancedCodeEditor.tsx:49-55 | the buffer becomes the typed text, which `onChange` receives |
| CodeEditor.Editor.KeyDown | src/components/EnhancedCodeEditor.tsx:57-79 | Tab splices two spaces and puts the cursor at start + 2; any other key changes nothing |
| CodeEditor.Editor.StartRun | src/components/EnhancedCodeEditor.tsx:81-86 | a run in progress makes the button do nothing; otherwise the editor becomes busy and sends (language, code) |
| CodeEditor.Editor.FinishRun | src/components/EnhancedCodeEditor.tsx:86-99 | the completion is as CompletionFor says and `isExecuting` is false afterwards |
| VideoChat.StartErrorMessage | src/components/ImprovedVideoChat.tsx:109-123 | the four platform error names map to their fixed texts; any other Error to its own message; a non-Error to "Failed to start recording" |
| VideoChat.SupportedMimeType | src/components/ImprovedVideoChat.tsx:136-146 | the first supported format in the order vp9, vp8, plain webm, and "" exactly when none is supported |
| VideoChat.Buffered | src/components/ImprovedVideoChat.tsx:65-69 | the buffer kept from a sequence of arrivals: never longer than them, and every kept chunk has size > 0 |
| VideoChat.BufferedAppend | src/components/ImprovedVideoChat.tsx:65-69 | a delivered chunk joins the end of the buffer exactly when its size is > 0 |
| VideoChat.BufferedIsOrderedSelection | src/components/ImprovedVideoChat.tsx:65-69 | the buffer holds exactly the delivered non-empty chunks, in arrival order |
| VideoChat.SaveErrorText | src/components/ImprovedVideoChat.tsx:165 | the logged save error is the Error's message, or "Unknown error occurred" |
| VideoChat.Session.constructor | src/components/ImprovedVideoChat.tsx:12-22 | not recording, timer 0, no error, empty log and buffer, no recordings, no camera, preview or recorder, an empty mime type, and the code of the language at index 1 |
| VideoChat.Session.AddMessage | src/components/ImprovedVideoChat.tsx:188-190 | exactly one entry is appended at the end; every earlier entry keeps its place, and no other state changes |
| VideoChat.Session.StartRecording | src/components/ImprovedVideoChat.tsx:91-134 | success: camera held, a fresh recorder recording into an emptied buffer, "Recording started" logged. Failure: camera released, `isRecording` unchanged, the mapped text shown and "Recording error: …" logged; the recorder and buffer are as far as the failing call got; on failure `mimeType` is unchanged, except when `start()` throws, by which time the recorder was created with the supported type |
| VideoChat.Session.OpenCamera | src/components/ImprovedVideoChat.tsx:58-106 | the camera, recorder and `start` calls run in order up to the first that throws, whose error is returned (none exactly when all succeed); a created recorder starts on an emptied buffer with the preferred supported format |
| VideoChat.Session.DataAvailable | src/components/ImprovedVideoChat.tsx:65-69 | only a non-empty chunk is appended, at the end, and the buffer stays the ordered selection of the arrivals; every other field is unchanged |
| VideoChat.Session.RecorderStopped | src/components/ImprovedVideoChat.tsx:71-82 | a recording is saved only from a non-empty buffer; a failed save is logged; the buffer is empty afterwards; every other field is unchanged |
| VideoChat.Session.StopRecording | src/components/ImprovedVideoChat.tsx:169-186 | `stop()` is called only on a recording recorder; afterwards no camera is held, `isRecording` is false, the timer is 0, and "Recording stopped" is logged on every call; every other field is unchanged |
| VideoChat.Session.TimerLabel | src/components/ImprovedVideoChat.tsx:192-196 | the timer's label reads back as the elapsed seconds, and has five characters below 6000 s |
| VideoChat.Session.Tick | src/components/ImprovedVideoChat.tsx:34-38 | a tick adds exactly 1 while recording and nothing otherwise; every other field is unchanged |
| VideoChat.Session.SetCode | src/components/ImprovedVideoChat.tsx:212-215 | the embedded editor's `onChange={setCode}`: the session's code becomes the edited text; every other field is unchanged |
| InterviewScheduling.WithStatus | src/components/InterviewScheduling.tsx:17-21 | same length and order; the candidates with the id get the status; every other field and every other candidate is unchanged |
| InterviewScheduling.WithStatusIdempotent | src/components/InterviewScheduling.tsx:17-21 | applying the same status change twice equals applying it once |
| InterviewScheduling.WithStatusCommutes | src/components/InterviewScheduling.tsx:17-21 | status changes for different ids can be applied in either order |
| InterviewScheduling.ScoreBandOf | src/components/InterviewScheduling.tsx:28-32 | green iff score ≥ 90, yellow iff 70 ≤ score < 90, red iff score < 70 |
| InterviewScheduling.ScoreBandMonotone | src/components/InterviewScheduling.tsx:28-32 | a higher score never gets a lower band |
| InterviewScheduling.MatchesSearch | src/components/InterviewScheduling.tsx:58-59 | the lower-cased name or email includes the lower-cased search term |
| InterviewScheduling.MatchesScore | src/components/InterviewScheduling.tsx:60 | no minimum score is set, or the ATS score reaches it |
| InterviewScheduling.MatchesStatus | src/components/InterviewScheduling.tsx:61 | the status filter is "all" or equals the candidate's status |
| InterviewScheduling.MatchesJobTitle | src/components/InterviewScheduling.tsx:62 | the position filter is "all" or equals the candidate's position |
| InterviewScheduling.Matches | src/components/InterviewScheduling.tsx:63 | all four conditions hold |
| InterviewScheduling.FilteredCandidates | src/components/InterviewScheduling.tsx:57-64 | never longer than the list, and every candidate shown matches the filters |
| InterviewScheduling.FilteredIsSubsequence | src/components/InterviewScheduling.tsx:57-64 | the table shows an order-preserving subsequence of the candidates |
| InterviewScheduling.FilteredExactlyMatching | src/components/InterviewScheduling.tsx:57-63 | a candidate is shown iff it is in the list and the search, score, status and position conditions all hold |
| InterviewScheduling.NoFiltersShowsAll | src/components/InterviewScheduling.tsx:57-64 | with every filter at its initial value the table shows every candidate |
| InterviewScheduling.EmailContent | src/components/InterviewScheduling.tsx:34-48 | the invitation begins "Dear <name>," and contains the candidate's name and position |
| InterviewScheduling.CandidateBoard.constructor | src/components/InterviewScheduling.tsx:8-10 | the table starts on the given candidates with the drawer closed |
| InterviewScheduling.CandidateBoard.HandleStatusChange | src/components/InterviewScheduling.tsx:17-21 | the list becomes WithStatus of the old list; nothing else changes |
| InterviewScheduling.CandidateBoard.ViewResume | src/components/InterviewScheduling.tsx:23-26 | the drawer opens on the chosen candidate |
| JobApplication.EmailShape | src/components/JobApplicationForm.tsx:54 | `/\S+@\S+\.\S+/.test(s)`, unanchored: some non-space run, `@`, non-space run, `.`, non-space run occurs in s |
| JobApplication.EmailShapeLocal | src/components/JobApplicationForm.tsx:54 | an email passes iff some `@` has a non-space before it and is followed by non-spaces, a `.` and a non-space |
| JobApplication.EmailShapeInContext | src/components/JobApplicationForm.tsx:54 | the pattern is unanchored: text around an accepted address keeps it accepted |
| JobApplication.NonSpaceRunInContext | src/components/JobApplicationForm.tsx:54 | a run of non-spaces stays one inside a longer text |
| JobApplication.EmailShapeExamples | src/components/JobApplicationForm.tsx:54 | "a@b.c" passes; "a@b" and "a @b.c" do not |
| JobApplication.PhoneShape | src/components/JobApplicationForm.tsx:60 | `/^\+?[\d\s-()]+$/.test(s)`: an optional `+`, then one or more digits, whitespace, `-`, `(` or `)` |
| JobApplication.PhoneShapeLeadingPlus | src/components/JobApplicationForm.tsx:60 | the optional `+` is consumed exactly when the number starts with one; no `+` can occur later |
| JobApplication.DetailErrors | src/components/JobApplicationForm.tsx:45-66 | a blank name is an error; a blank email or phone is "required", which takes precedence; otherwise each must match its pattern; experience < 0 is the only experience error |
| JobApplication.DetailsAccepted | src/components/JobApplicationForm.tsx:45-69 | validation passes iff no field error is recorded, i.e. all fields are present and well formed and experience ≥ 0 |
| JobApplication.InitialFormErrors | src/components/JobApplicationForm.tsx:36-66 | the empty form gets the three "required" messages and no experience error |
| JobApplication.ExampleDetailsAccepted | src/components/JobApplicationForm.tsx:45-69 | a well-formed applicant with 0 years of experience passes |
| JobApplication.ResumeRejection | src/components/JobApplicationForm.tsx:139-148 | a file passes iff its type is `application/pdf` and its size ≤ 5·1024·1024; the type check comes first |
| JobApplication.ResumeSizeBoundary | src/components/JobApplicationForm.tsx:145 | exactly 5 MiB passes, one byte more does not |
| JobApplication.SubmitCandidateData | src/components/JobApplicationForm.tsx:177-220 | no error iff a résumé URL is present and the service answered; each failure has its own text and no questions |
| JobApplication.DisplayQuestions | src/components/JobApplicationForm.tsx:269-277 | the service's questions if there are any, otherwise the five built-in ones |
| JobApplication.ApplicationForm.constructor | src/components/JobApplicationForm.tsx:31-43 | step 1, no questions, an empty form and no errors |
| JobApplication.ApplicationForm.ValidatePersonalDetails | src/components/JobApplicationForm.tsx:45-70 | the errors are recorded and the result is true iff there are none |
| JobApplication.ApplicationForm.UploadResume | src/components/JobApplicationForm.tsx:131-174 | no file: nothing happens; a refused file: its alert; no URL back: the failure alert; otherwise the file and URL are stored and step 2 is reached; never uploading afterwards |
| JobApplication.ApplicationForm.Next | src/components/JobApplicationForm.tsx:345-356 | step 1 moves to 2 only when a file has been uploaded |
| JobApplication.ApplicationForm.EditDetails | src/components/JobApplicationForm.tsx:377-439 | the details take the typed values; nothing else changes |
| JobApplication.ApplicationForm.Submit | src/components/JobApplicationForm.tsx:222-253 | step 3 is reached only when validation passes, the service reports no error and the parent does not throw; the step is kept on every failure, with the failure alert; never submitting afterwards |
| JobApplication.ApplicationForm.Back | src/components/JobApplicationForm.tsx:255-261 | step 2 goes back to 1; on any other step the dialog asks to close |
| JobApplication.ApplicationForm.Questions | src/components/JobApplicationForm.tsx:269-277 | the questions shown are never empty |
| PhoneAuth.FormatPhoneNumber | src/components/auth/PhoneAuth.tsx:21-27 | `+` is prepended iff the input is non-empty and does not start with `+` |
| PhoneAuth.FormatPhoneNumberIdempotent | src/components/auth/PhoneAuth.tsx:21-27 | normalising is idempotent; a non-empty result starts with `+`; the result is empty iff the input is |
| PhoneAuth.InternationalShape | src/components/auth/PhoneAuth.tsx:37 | `/^\+[1-9]\d{1,14}$/.test(s)`: `+`, a digit 1-9, then one to fourteen digits |
| PhoneAuth.InternationalDigits | src/components/auth/PhoneAuth.tsx:37 | an accepted number is `+` and 2 to 15 digits, the first not 0 |
| PhoneAuth.DigitsAreInternational | src/components/auth/PhoneAuth.tsx:37 | every `+` followed by 2 to 15 digits with a non-zero first digit is accepted |
| PhoneAuth.SignOptional | src/components/auth/PhoneAuth.tsx:21-37 | a number typed with or without its `+` is normalised to the same string |
| PhoneAuth.InternationalExamples | src/components/auth/PhoneAuth.tsx:36-37 | "912345678900" is accepted; 16 digits and a leading 0 are refused |
| PhoneAuth.MessageOr | src/components/auth/PhoneAuth.tsx:48 | the error's message when it is non-empty, otherwise the fallback text (also at line 70) |
| PhoneAuth.SignIn.constructor | src/components/auth/PhoneAuth.tsx:6-11 | empty number and code, the phone step, no error, no confirmation, not loading |
| PhoneAuth.SignIn.SendEnabled | src/components/auth/PhoneAuth.tsx:125 | the Send button is enabled when not loading and the number is non-empty |
| PhoneAuth.SignIn.VerifyEnabled | src/components/auth/PhoneAuth.tsx:151 | the Verify button is enabled when not loading and six characters were typed |
| PhoneAuth.SignIn.BackEnabled | src/components/auth/PhoneAuth.tsx:160 | the Back button is enabled when not loading |
| PhoneAuth.SignIn.SetPhone | src/components/auth/PhoneAuth.tsx:16-18 | the number is stored; Send becomes enabled iff it is non-empty |
| PhoneAuth.SignIn.SetOtp | src/components/auth/PhoneAuth.tsx:139-151 | at most six characters are kept; Verify becomes enabled iff six were typed |
| PhoneAuth.SignIn.SendOtp | src/components/auth/PhoneAuth.tsx:29-52 | a shape failure sets its error, does not call `phoneSignIn` and keeps the step; a successful send stores the confirmation and moves to the code step; a failed send shows its message or the fallback; never loading afterwards |
| PhoneAuth.SignIn.VerifyOtp | src/components/auth/PhoneAuth.tsx:54-74 | with no confirmation the error is set and `confirmOtp` is not called; otherwise it is called with the confirmation and code, and a failure shows its message or the fallback; never loading afterwards |
| PhoneAuth.SignIn.BackToPhone | src/components/auth/PhoneAuth.tsx:158 | Back returns to the phone step and changes nothing else |
| JobListing.LocationInfo | src/components/JobListing.tsx:13-22 | "Remote" if the lower-cased location contains `remote`, else "Hybrid" if it contains `hybrid`, else the location unchanged; always the map-pin icon |
| JobListing.EmploymentTypeInfo | src/components/JobListing.tsx:25-38 | the keywords full-time, part-time, contract and internship are tried in that order; unmatched types are shown unchanged |
| JobListing.RemoteBeatsHybrid | src/components/JobListing.tsx:15-18 | `remote` takes priority when both keywords occur |
| JobListing.LocationExample | src/components/JobListing.tsx:14-16 | matching ignores case and finds the keyword inside a longer text |
| JobListing.EmploymentIcon | src/components/JobListing.tsx:27-37 | the icon is the briefcase exactly for the Contract and Internship labels, and the clock otherwise |
| JobListing.LocationIdempotent | src/components/JobListing.tsx:13-22 | classifying a location label again gives the same label |
| JobListing.EmploymentIdempotent | src/components/JobListing.tsx:25-38 | classifying an employment label again gives the same label |
| JobListing.FullTimeFixed | src/components/JobListing.tsx:27-28 | "Full-time" is its own label |
| JobListing.PartTimeFixed | src/components/JobListing.tsx:29-30 | "Part-time" is its own label |
| JobListing.ContractFixed | src/components/JobListing.tsx:31-32 | "Contract" is its own label |
| JobListing.InternshipFixed | src/components/JobListing.tsx:33-34 | "Internship" is its own label |
| JobListing.InternshipMisses | src/components/JobListing.tsx:27-33 | "internship" contains none of the three earlier keywords |
| UserInstructions.FindContent | src/components/UserInstructions.tsx:69 | `find` by id: an entry with that id, or None exactly when there is none |
| UserInstructions.ActiveContent | src/components/UserInstructions.tsx:69 | the content shown for a tab: an entry of the content list with that id, and none exactly outside 1..4 |
| UserInstructions.StepCaption | src/components/UserInstructions.tsx:214 | the caption "Step t of n" with n the number of tabs |
| UserInstructions.PreviousTab | src/components/UserInstructions.tsx:198 | max(1, t − 1): stays in 1..4; changes nothing exactly at 1; otherwise one less |
| UserInstructions.NextTab | src/components/UserInstructions.tsx:219 | min(4, t + 1): stays in 1..4; changes nothing exactly at 4; otherwise one more |
| UserInstructions.EveryTabHasContent | src/components/UserInstructions.tsx:16-69 | every tab 1..4 finds its content entry, so the lookup never fails in range |
| UserInstructions.LastTabIsTabCount | src/components/UserInstructions.tsx:9-14 | the bound 4 is `tabs.length`, and the tab ids are 1..4 in the order of the content |
| UserInstructions.FeaturesOnlyOnLastTab | src/components/UserInstructions.tsx:61-65 | only the last tab has additional features |
| UserInstructions.PreviousThenNext | src/components/UserInstructions.tsx:198-219 | Previous then Next returns to the same tab, except from the first |
| UserInstructions.NextRepeated | src/components/UserInstructions.tsx:219 | n clicks on Next reach min(4, t + n) |
| UserInstructions.StepCaptionOfLast | src/components/UserInstructions.tsx:214 | the last tab's caption is "Step 4 of 4" |
| UserInstructions.InstructionsPage.constructor | src/components/UserInstructions.tsx:6 | the page opens on tab 1 |
| UserInstructions.InstructionsPage.PreviousDisabled | src/components/UserInstructions.tsx:199 | Previous is disabled exactly where it would change nothing |
| UserInstructions.InstructionsPage.NextDisabled | src/components/UserInstructions.tsx:220 | Next is disabled exactly where it would change nothing |
| UserInstructions.InstructionsPage.Previous | src/components/UserInstructions.tsx:198 | the tab becomes PreviousTab of the old one and stays in 1..4 |
| UserInstructions.InstructionsPage.Next | src/components/UserInstructions.tsx:219 | the tab becomes NextTab of the old one and stays in 1..4 |
| UserInstructions.InstructionsPage.SelectTab | src/components/UserInstructions.tsx:120-138 | choosing a tab from the bar or the select makes it active |
| JobPosts.Get | src/components/JobPostCreation.tsx:6-16 | the value of one of the nine fields of a post |
| JobPosts.SelectedValue | src/components/JobPostCreation.tsx:233-239 | a controlled select submits the bound value when it is one of the options, and otherwise its first option |
| JobPosts.SelectsPass | src/components/JobPostCreation.tsx:232-256 | a required select passes exactly when the draft holds one of its real option values, in their lower-case spelling |
| JobPosts.RequiredFilled | src/components/JobPostCreation.tsx:201-312 | the form submits only when the five required text inputs and text areas are non-empty and both required selects submit a value other than their empty placeholder; the salary range and the benefits are optional |
| JobPosts.RequiredExamples | src/components/JobPostCreation.tsx:201-312 | the empty draft cannot be submitted, nor can the generated draft or either sample, since "Remote", "Hybrid" and "Full-time" match no option; with location "remote" the generated draft passes, emptying any required field then blocks it, and the salary range and the benefits are optional |
| JobPosts.WithField | src/components/JobPostCreation.tsx:207-326 | an input changes its own field to the typed value and no other field |
| JobPosts.FieldsDetermine | src/components/JobPostCreation.tsx:6-16 | a post is determined by its nine fields |
| JobPosts.EditEveryField | src/components/JobPostCreation.tsx:207-326 | typing every field turns any draft into exactly the typed post |
| JobPosts.PrependKeepsOrder | src/components/JobPostCreation.tsx:116 | submit grows the list by one, with the draft first and the old jobs behind it in their order |
| JobPosts.GeneratedMatchesSample | src/components/JobPostCreation.tsx:80-105 | the generated draft equals the first sample except for the type's spelling, which the job card shows as the same "Full-time" label |
| JobPosts.JobBoard.constructor | src/components/JobPostCreation.tsx:108-112 | no modal, no preview, a draft with every field empty, and the two sample jobs |
| JobPosts.JobBoard.OpenModal | src/components/JobPostCreation.tsx:138 | "Post New Job" opens the modal |
| JobPosts.JobBoard.CloseModal | src/components/JobPostCreation.tsx:186 | the close button (and the Cancel button at line 334) closes the modal |
| JobPosts.JobBoard.EditField | src/components/JobPostCreation.tsx:207-326 | the draft becomes WithField of the old draft |
| JobPosts.JobBoard.Submit | src/components/JobPostCreation.tsx:114-119 | posted exactly when RequiredFilled holds; otherwise nothing changes; when posted the list becomes [draft] + old list, one longer with the old jobs kept in order, the modal closes and the preview opens |
| JobPosts.JobBoard.AIGenerate | src/components/JobPostCreation.tsx:121-131 | the whole draft is replaced by the template, and `isGenerating` is false afterwards |
| JobPosts.JobBoard.View | src/components/JobPostCreation.tsx:152-155 | the chosen job becomes the draft and the preview opens |
| JobPosts.JobBoard.ClosePreview | src/components/JobPostCreation.tsx:356 | the preview closes |

## Left out

- Rendering, styling and icons: JSX, Tailwind classes and the icon components. Icons are kept only as the `JobListing.Icon` tag.
- Browser APIs: `getUserMedia`, `MediaRecorder`, `Blob`, `URL.createObjectURL`, the download link, the clipboard and auto-scrolling. The model takes what they return or throw as parameters.
- Timers: `setInterval` and `setTimeout` real time, and effect clean-up order. A tick is an abstract event (`VideoChat.Session.Tick`). The Tab cursor placed by `setTimeout` is returned by `KeyDown`.
- The web services: the `fetch` calls in `uploadResumeToAPI`, `submitCandidateData` and `executeCode`. Their request bodies are not modelled, and their answers are parameters. The job fetch of src/components/JobDetailPage.tsx is not part of this model.
- Firebase sign-in (src/context/AuthContext.tsx): `phoneSignIn` and `confirmOtp` are outcomes passed to `SendOtp` and `VerifyOtp`. The signed-in view is not modelled.
- Routing and wiring: src/App.tsx, src/main.tsx, src/components/auth/AuthPage.tsx and src/components/JobDetailPage.tsx. Display-only code: src/components/JobPostPreview.tsx and the fixture src/data/data.ts.
- React scheduling: each handler is one atomic step, so the interleaving of awaited calls, state batching and stale closures are not modelled. `runCode` is the exception: it is split into `StartRun` and `FinishRun`, so that its re-entry guard can be seen.
- The interview screen's "Submit Code" and "Submit Interview" buttons, the chat textarea and its send button (src/components/ImprovedVideoChat.tsx:207-209, 274-276 and 296-304) have no handlers in the source, so there is nothing to model. The auto-scroll effect (:52-56) only moves the log's scroll position and is not modelled.
- VideoChat.Session.RecorderStopped: the `catch` that logs "Error handling recording" when building the `Blob` throws is not modelled, because building a `Blob` from existing chunks is treated as never failing.
- Text.ToLower: only ASCII letters are lowered. JavaScript's `toLowerCase` also lowers other Unicode letters.
- Text.IsSpace: the whitespace set is the usual ASCII whitespace, U+00A0, U+FEFF, U+2028 and U+2029. Other Unicode space separators are not included.
- Strings are sequences of Unicode characters, while JavaScript lengths count UTF-16 code units. A character outside the Basic Multilingual Plane counts once here and twice in the browser. This affects PhoneAuth.SignIn.SetOtp (`maxLength={6}`, src/components/auth/PhoneAuth.tsx:143) and PhoneAuth.SignIn.VerifyEnabled (`otp.length !== 6`, :151): "😀1234" enables Verify in the browser but not in the model.
- TimeFormat.FormatTime: seconds are integers, so fractional and non-finite numbers are not modelled. The properties are proved for non-negative input; negative input is given one worked example.
- InterviewScheduling.ScoreBandOf: the ATS score and the minimum-score filter are integers. The source's `number` may be fractional.
- JobApplication.FormData: experience is a `real`. `parseFloat(...) \|\| 0`, which turns NaN into 0, belongs to the input handler and is not modelled.
- The `alert` that JobApplication.ApplicationForm.UploadResume and Submit show is returned as a result, not displayed.
- PhoneAuth.SendOutcome: a thrown value without a `message` is written as an empty message, which gets the same fallback text.
- JobApplication.ApplicationForm.Submit: the `experience: "<n>+ years"` text sent to the scoring service is part of the request body, which is not modelled.
- PhoneAuth.SignIn.SendOtp and PhoneAuth.SignIn.VerifyOtp are modelled for every state. The form submits only when its button is enabled (SendEnabled and VerifyEnabled), which also covers the `required` inputs at src/components/auth/PhoneAuth.tsx:112 and 144; the methods do not require it.
- Browser constraint validation is modelled only for the job-post modal (JobPosts.RequiredFilled). The application form's own checks run on submit, and these browser checks are not modelled: `type="email"` on the email input, and `min="0"` and `step="0.5"` on the experience input (src/components/JobApplicationForm.tsx:389 and 431-432). A browser blocks an experience of 0.3; JobApplication.ApplicationForm.Submit accepts it.
- CodeEditor.Editor.ChangeLanguage: the `onLanguageChange(newLanguage)` notification is not returned. It always carries the new language, which the method's `ensures` already state.
