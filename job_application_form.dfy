/**
 * The three-step application dialog (src/components/JobApplicationForm.tsx): step 1 uploads
 * a résumé, step 2 validates the personal details and submits them, step 3 thanks the
 * applicant and lists practice questions. The two web services are not modelled: what they
 * answer is a parameter of the handler that awaits them.
 */
module JobApplication {
  import opened Options
  import opened Text

  // ------------------------------------------------------------------
  // The two regular expressions, written out as predicates on strings.
  // ------------------------------------------------------------------

  /** Positions lo..hi-1 form a non-empty run of `\S` characters. */
  predicate NonSpaceRun(s: string, lo: int, hi: int) {
    0 <= lo < hi <= |s| && forall k | lo <= k < hi :: !IsSpace(s[k])
  }

  /** `s[i..j]` matches `\S+@\S+\.\S+` with the `@` at `at` and the `.` at `dot`. */
  predicate EmailMatchAt(s: string, i: int, at: int, dot: int, j: int) {
    && NonSpaceRun(s, i, at) && NonSpaceRun(s, at + 1, dot) && NonSpaceRun(s, dot + 1, j)
    && s[at] == '@' && s[dot] == '.'
  }

  /** `/\S+@\S+\.\S+/.test(s)`: the pattern is not anchored, so some substring has to match. */
  predicate EmailShape(s: string) {
    exists i, at, dot, j | 0 <= i < at < dot < j <= |s| :: EmailMatchAt(s, i, at, dot, j)
  }

  /** An `@` and a later `.` with a non-space character before the `@`, after the `.`, and only non-spaces between. */
  predicate EmailAround(s: string, at: int, dot: int) {
    && 1 <= at && at + 1 < dot && dot + 1 < |s|
    && s[at] == '@' && s[dot] == '.'
    && !IsSpace(s[at - 1]) && !IsSpace(s[dot + 1])
    && forall k | at < k < dot :: !IsSpace(s[k])
  }

  /** The email pattern only looks at the neighbourhood of one `@` and one later `.`. */
  lemma EmailShapeLocal(s: string)
    ensures EmailShape(s) <==> exists at, dot | 0 <= at < dot < |s| :: EmailAround(s, at, dot)
  {
    if EmailShape(s) {
      var i, at, dot, j :| 0 <= i < at < dot < j <= |s| && EmailMatchAt(s, i, at, dot, j);
      assert EmailAround(s, at, dot);
    }
    if exists at, dot | 0 <= at < dot < |s| :: EmailAround(s, at, dot) {
      var at, dot :| 0 <= at < dot < |s| && EmailAround(s, at, dot);
      assert EmailMatchAt(s, at - 1, at, dot, dot + 2);
    }
  }

  /** Text around an accepted address does not make it rejected. */
  lemma EmailShapeInContext(p: string, s: string, q: string)
    requires EmailShape(s)
    ensures EmailShape(p + s + q)
  {
    var i, at, dot, j :| 0 <= i < at < dot < j <= |s| && EmailMatchAt(s, i, at, dot, j);
    var t, d := p + s + q, |p|;
    NonSpaceRunInContext(p, s, q, i, at);
    NonSpaceRunInContext(p, s, q, at + 1, dot);
    NonSpaceRunInContext(p, s, q, dot + 1, j);
    assert t[d + at] == s[at] && t[d + dot] == s[dot];
    assert EmailMatchAt(t, d + i, d + at, d + dot, d + j);
  }

  lemma NonSpaceRunInContext(p: string, s: string, q: string, lo: int, hi: int)
    requires NonSpaceRun(s, lo, hi)
    ensures NonSpaceRun(p + s + q, |p| + lo, |p| + hi)
  {
    var t := p + s + q;
    forall k | |p| + lo <= k < |p| + hi ensures !IsSpace(t[k]) {
      assert t[k] == s[k - |p|];
    }
  }

  lemma EmailShapeExamples()
    ensures EmailShape("a@b.c")
    ensures !EmailShape("a@b")
    ensures !EmailShape("a @b.c")
  {
    assert EmailMatchAt("a@b.c", 0, 1, 3, 5);
    EmailShapeLocal("a@b");
    EmailShapeLocal("a @b.c");
  }

  /** A member of the class `[\d\s-()]`: the `-` between `\s` and `(` is a literal hyphen. */
  predicate PhoneChar(c: char) {
    IsDigit(c) || IsSpace(c) || c == '-' || c == '(' || c == ')'
  }

  predicate PhoneRun(s: string) {
    |s| >= 1 && forall k | 0 <= k < |s| :: PhoneChar(s[k])
  }

  /** `/^\+?[\d\s-()]+$/.test(s)`: the whole string is an optional `+` and then one or more class characters. */
  predicate PhoneShape(s: string) {
    PhoneRun(s) || (|s| >= 1 && s[0] == '+' && PhoneRun(s[1..]))
  }

  /** The optional `+` is taken exactly when the string starts with one, since `+` is not in the class. */
  lemma PhoneShapeLeadingPlus(s: string)
    ensures |s| >= 1 && s[0] == '+' ==> (PhoneShape(s) <==> PhoneRun(s[1..]))
    ensures (|s| == 0 || s[0] != '+') ==> (PhoneShape(s) <==> PhoneRun(s))
    ensures PhoneShape(s) ==> forall k | 1 <= k < |s| :: s[k] != '+'
  {
  }

  // ------------------------------------------------------------------
  // validatePersonalDetails
  // ------------------------------------------------------------------

  /** The applicant's file: its name, MIME type and size in bytes. */
  datatype ResumeFile = ResumeFile(name: string, mimeType: string, size: nat)

  /** `formData`. Experience is `parseFloat` of the input; only its sign matters here. */
  datatype FormData = FormData(
    fullName: string, email: string, phone: string, experience: real,
    resumeFile: Option<ResumeFile>, resumeUrl: Option<string>)

  const InitialFormData := FormData("", "", "", 0.0, None, None)

  /** `newErrors`: the message recorded against each field, if any. */
  datatype FieldErrors = FieldErrors(
    fullName: Option<string>, email: Option<string>, phone: Option<string>, experience: Option<string>)

  const NameRequired := "Full name is required"
  const EmailRequired := "Email is required"
  const EmailInvalid := "Please enter a valid email address"
  const PhoneRequired := "Phone number is required"
  const PhoneInvalid := "Please enter a valid phone number"
  const ExperienceNegative := "Experience must be at least 0"

  /** `Object.keys(newErrors).length === 0`. */
  predicate NoErrors(e: FieldErrors) {
    e.fullName.None? && e.email.None? && e.phone.None? && e.experience.None?
  }

  /**
   * The errors validatePersonalDetails records. A blank field is "required" whatever else is
   * wrong with it; a non-blank email or phone is then checked against its pattern.
   */
  function DetailErrors(d: FormData): (e: FieldErrors)
    ensures e.fullName.Some? <==> IsBlank(d.fullName)
    ensures IsBlank(d.email) ==> e.email == Some(EmailRequired)
    ensures !IsBlank(d.email) ==> (e.email.None? <==> EmailShape(d.email))
    ensures IsBlank(d.phone) ==> e.phone == Some(PhoneRequired)
    ensures !IsBlank(d.phone) ==> (e.phone.None? <==> PhoneShape(d.phone))
    ensures e.experience.Some? <==> d.experience < 0.0
  {
    FieldErrors(
      if IsBlank(d.fullName) then Some(NameRequired) else None,
      if IsBlank(d.email) then Some(EmailRequired)
      else if !EmailShape(d.email) then Some(EmailInvalid) else None,
      if IsBlank(d.phone) then Some(PhoneRequired)
      else if !PhoneShape(d.phone) then Some(PhoneInvalid) else None,
      if d.experience < 0.0 then Some(ExperienceNegative) else None)
  }

  /** The details pass exactly when the name and the contacts are present and well formed and the experience is not negative. */
  lemma DetailsAccepted(d: FormData)
    ensures NoErrors(DetailErrors(d)) <==>
      !IsBlank(d.fullName) && !IsBlank(d.email) && EmailShape(d.email)
      && !IsBlank(d.phone) && PhoneShape(d.phone) && d.experience >= 0.0
  {
  }

  /** A fully blank form gets the three "required" messages and no experience error (0 is allowed). */
  lemma InitialFormErrors()
    ensures DetailErrors(InitialFormData) == FieldErrors(Some(NameRequired), Some(EmailRequired), Some(PhoneRequired), None)
  {
  }

  /** A plausible applicant is accepted, with zero years of experience. */
  lemma ExampleDetailsAccepted()
    ensures NoErrors(DetailErrors(FormData("Ann Lee", "ann@example.com", "+1 (555) 010-0200", 0.0, None, None)))
  {
    var email := "ann@example.com";
    assert EmailMatchAt(email, 0, 3, 11, 15);
    assert !IsSpace(email[0]);
    var phone := "+1 (555) 010-0200";
    assert !IsSpace(phone[0]);
    assert phone[1..] == "1 (555) 010-0200";
    assert PhoneRun(phone[1..]);
    assert !IsSpace("Ann Lee"[0]);
  }

  // ------------------------------------------------------------------
  // The résumé checks of handleResumeUpload.
  // ------------------------------------------------------------------

  const MaxResumeSize: nat := 5 * 1024 * 1024

  const NotPdfAlert := "Please upload a PDF file"
  const TooLargeAlert := "File size should be less than 5MB"
  const UploadFailedAlert := "Failed to upload resume. Please try again."

  /** The alert a chosen file gets before any upload, or None when it may be uploaded. The type is checked first. */
  function ResumeRejection(f: ResumeFile): (alert: Option<string>)
    ensures alert.None? <==> f.mimeType == "application/pdf" && f.size <= 5 * 1024 * 1024
    ensures f.mimeType != "application/pdf" ==> alert == Some(NotPdfAlert)
    ensures f.mimeType == "application/pdf" && f.size > 5 * 1024 * 1024 ==> alert == Some(TooLargeAlert)
  {
    if f.mimeType != "application/pdf" then Some(NotPdfAlert)
    else if f.size > MaxResumeSize then Some(TooLargeAlert)
    else None
  }

  /** The limit is inclusive: a PDF of exactly 5 MiB passes and one byte more does not. */
  lemma ResumeSizeBoundary(name: string)
    ensures ResumeRejection(ResumeFile(name, "application/pdf", 5242880)).None?
    ensures ResumeRejection(ResumeFile(name, "application/pdf", 5242881)) == Some(TooLargeAlert)
  {
  }

  // ------------------------------------------------------------------
  // submitCandidateData and displayQuestions.
  // ------------------------------------------------------------------

  /** What is thrown inside submitCandidateData: an `Error` with its message, or anything else. */
  datatype Thrown = ErrorObject(message: string) | OtherValue

  /** How the scoring service answered: a list of questions, a non-OK status, or a throw. */
  datatype ScoreReply = Answered(questions: seq<string>) | NotOk | Threw(thrown: Thrown)

  datatype ApiResponse = ApiResponse(questions: seq<string>, error: Option<string>)

  const MissingUrlError := "Resume URL is missing"

  /** submitCandidateData: it never throws; every failure becomes an `error` with no questions. */
  function SubmitCandidateData(resumeUrl: Option<string>, reply: ScoreReply): (r: ApiResponse)
    ensures r.error.None? <==> resumeUrl.Some? && resumeUrl.value != "" && reply.Answered?
    ensures r.error.None? ==> r.questions == reply.questions
    ensures r.error.Some? ==> r.questions == []
    ensures (resumeUrl.None? || resumeUrl.value == "") ==> r.error == Some(MissingUrlError)
    ensures resumeUrl.Some? && resumeUrl.value != "" ==>
      && (reply.NotOk? ==> r.error == Some("Failed to submit application data"))
      && (reply.Threw? && reply.thrown.ErrorObject? ==> r.error == Some(reply.thrown.message))
      && (reply.Threw? && reply.thrown.OtherValue? ==> r.error == Some("An unknown error occurred"))
  {
    if resumeUrl.None? || resumeUrl.value == "" then ApiResponse([], Some(MissingUrlError))
    else match reply {
      case Answered(qs) => ApiResponse(qs, None)
      case NotOk => ApiResponse([], Some("Failed to submit application data"))
      case Threw(ErrorObject(m)) => ApiResponse([], Some(m))
      case Threw(OtherValue) => ApiResponse([], Some("An unknown error occurred"))
    }
  }

  const DefaultQuestions: seq<string> := [
    "Describe a time when you had to extract insights from a complex dataset and how you presented your findings to a non-technical audience.",
    "Walk me through a project where you used SQL or Python to analyze data and what the outcome was.",
    "How do you stay updated with the latest trends in data analysis and visualization?",
    "Give an example of how you've used data to influence strategic decision-making in a previous role.",
    "Tell me about a time you had to work with incomplete or messy data. How did you handle it?"
  ]

  /** displayQuestions: the service's questions, or the five built-in ones when it sent none. */
  function DisplayQuestions(practice: seq<string>): (shown: seq<string>)
    ensures |shown| > 0
    ensures |practice| > 0 ==> shown == practice
    ensures |practice| == 0 ==> shown == DefaultQuestions && |shown| == 5
  {
    if |practice| > 0 then practice else DefaultQuestions
  }

  const SubmitFailedAlert := "Failed to submit application. Please try again."

  /** The dialog's state between two handlers. */
  class ApplicationForm {
    var currentStep: nat
    var isUploading: bool
    var isSubmitting: bool
    var practiceQuestions: seq<string>
    var formData: FormData
    var errors: FieldErrors

    /**
     * The dialog is on one of its three steps and idle; a file is only kept together with the
     * URL it was uploaded to (and the other way round), and the details step is reached only with a file.
     */
    ghost predicate Valid()
      reads this
    {
      && 1 <= currentStep <= 3
      && !isUploading && !isSubmitting
      && (formData.resumeFile.Some? <==> formData.resumeUrl.Some? && formData.resumeUrl.value != "")
      && (currentStep >= 2 ==> formData.resumeFile.Some?)
    }

    constructor ()
      ensures Valid()
      ensures currentStep == 1 && practiceQuestions == [] && formData == InitialFormData
      ensures errors == FieldErrors(None, None, None, None)
    {
      currentStep, isUploading, isSubmitting := 1, false, false;
      practiceQuestions, formData := [], InitialFormData;
      errors := FieldErrors(None, None, None, None);
    }

    /** validatePersonalDetails: records the errors and reports whether there were none. */
    method ValidatePersonalDetails() returns (ok: bool)
      requires Valid()
      modifies this
      ensures Valid()
      ensures errors == DetailErrors(formData) && ok == NoErrors(errors)
      ensures formData == old(formData) && currentStep == old(currentStep)
      ensures practiceQuestions == old(practiceQuestions)
    {
      errors := DetailErrors(formData);
      ok := NoErrors(errors);
    }

    /**
     * handleResumeUpload. `chosen` is the selected file, if any; `publicUrl` what the upload
     * service returned for it (None for `null`). Returns the alert shown, if any. The step
     * moves to 2 only when a checked file was uploaded and a URL came back.
     */
    method UploadResume(chosen: Option<ResumeFile>, publicUrl: Option<string>) returns (alert: Option<string>)
      requires Valid()
      modifies this
      ensures Valid()
      ensures errors == old(errors) && practiceQuestions == old(practiceQuestions)
      ensures chosen.None? ==> alert == None && formData == old(formData) && currentStep == old(currentStep)
      ensures chosen.Some? && ResumeRejection(chosen.value).Some? ==>
        alert == ResumeRejection(chosen.value) && formData == old(formData) && currentStep == old(currentStep)
      ensures chosen.Some? && ResumeRejection(chosen.value).None? && (publicUrl.None? || publicUrl.value == "") ==>
        alert == Some(UploadFailedAlert) && formData == old(formData) && currentStep == old(currentStep)
      ensures chosen.Some? && ResumeRejection(chosen.value).None? && publicUrl.Some? && publicUrl.value != "" ==>
        && alert == None && currentStep == 2
        && formData == old(formData).(resumeFile := chosen, resumeUrl := publicUrl)
    {
      if chosen.None? {
        return None;
      }
      alert := ResumeRejection(chosen.value);
      if alert.Some? {
        return;
      }
      isUploading := true;
      if publicUrl.None? || publicUrl.value == "" {
        alert := Some(UploadFailedAlert);
      } else {
        formData := formData.(resumeFile := chosen, resumeUrl := publicUrl);
        currentStep := 2;
      }
      isUploading := false;
    }

    /** The step-1 Next button, shown once a file has been uploaded. */
    method Next()
      requires Valid()
      modifies this
      ensures Valid()
      ensures currentStep == if old(currentStep) == 1 && formData.resumeFile.Some? then 2 else old(currentStep)
      ensures formData == old(formData) && errors == old(errors) && practiceQuestions == old(practiceQuestions)
    {
      if currentStep == 1 && formData.resumeFile.Some? {
        currentStep := 2;
      }
    }

    /** The step-2 inputs: each replaces one field of the details. */
    method EditDetails(fullName: string, email: string, phone: string, experience: real)
      requires Valid()
      modifies this
      ensures Valid()
      ensures formData == old(formData).(fullName := fullName, email := email, phone := phone, experience := experience)
      ensures currentStep == old(currentStep) && errors == old(errors) && practiceQuestions == old(practiceQuestions)
    {
      formData := formData.(fullName := fullName, email := email, phone := phone, experience := experience);
    }

    /**
     * handleSubmit. `reply` is the scoring service's answer and `parentThrows` whether the
     * `onSubmit` prop throws. Returns the alert shown and the data handed to `onSubmit`, if it
     * was called. Invalid details stop everything before any request; any error text from
     * the service (`if (apiResponse.error)`, so an empty one does not count) or a throwing
     * parent keeps the step; otherwise the dialog moves to step 3.
     */
    method Submit(reply: ScoreReply, parentThrows: bool) returns (alert: Option<string>, submitted: Option<FormData>)
      requires Valid()
      modifies this
      ensures Valid()
      ensures formData == old(formData) && errors == DetailErrors(formData)
      ensures !NoErrors(errors) ==>
        alert == None && submitted == None && currentStep == old(currentStep) && practiceQuestions == old(practiceQuestions)
      ensures NoErrors(errors) ==>
        var api := SubmitCandidateData(formData.resumeUrl, reply);
        if api.error.Some? && api.error.value != "" then
          alert == Some(SubmitFailedAlert) && submitted == None
          && currentStep == old(currentStep) && practiceQuestions == old(practiceQuestions)
        else
          practiceQuestions == api.questions && submitted == Some(formData)
          && (parentThrows ==> alert == Some(SubmitFailedAlert) && currentStep == old(currentStep))
          && (!parentThrows ==> alert == None && currentStep == 3)
    {
      var ok := ValidatePersonalDetails();
      submitted := None;
      if !ok {
        return None, None;
      }
      isSubmitting := true;
      var api := SubmitCandidateData(formData.resumeUrl, reply);
      assert MissingUrlError[0] != ' ';
      if api.error.Some? && api.error.value != "" {
        alert := Some(SubmitFailedAlert);
      } else {
        practiceQuestions := api.questions;
        submitted := Some(formData);
        if parentThrows {
          alert := Some(SubmitFailedAlert);
        } else {
          alert := None;
          currentStep := 3;
        }
      }
      isSubmitting := false;
    }

    /** handleBack: from step 2 back to step 1; anywhere else the dialog asks to be closed. */
    method Back() returns (closeRequested: bool)
      requires Valid()
      modifies this
      ensures Valid()
      ensures old(currentStep) == 2 ==> currentStep == 1 && !closeRequested
      ensures old(currentStep) != 2 ==> currentStep == old(currentStep) && closeRequested
      ensures formData == old(formData) && errors == old(errors) && practiceQuestions == old(practiceQuestions)
    {
      if currentStep == 2 {
        currentStep := 1;
        closeRequested := false;
      } else {
        closeRequested := true;
      }
    }

    /** displayQuestions of the current state. */
    function Questions(): (shown: seq<string>)
      reads this
      ensures |shown| > 0
      ensures |practiceQuestions| > 0 ==> shown == practiceQuestions
    {
      DisplayQuestions(practiceQuestions)
    }
  }
}
