/**
 * The employer's job board (src/components/JobPostCreation.tsx): a list of posted jobs that
 * starts with two samples, a draft edited field by field in a modal, a submit that puts the
 * draft at the head of the list, a generator that replaces the whole draft with a fixed
 * template, and a preview of the draft or of a listed job.
 */
module JobPosts {
  import opened Sequences
  import Text
  import JobListing

  /** The `JobPost` record. */
  datatype JobPost = JobPost(
    title: string, department: string, location: string, employmentType: string,
    experienceLevel: string, salaryRange: string,
    responsibilities: string, requirements: string, benefits: string)

  /** The nine inputs of the modal, one per field. */
  datatype Field =
    | Title | Department | Location | EmploymentType | ExperienceLevel
    | SalaryRange | Responsibilities | Requirements | Benefits

  const InitialJobPost := JobPost("", "", "", "", "", "", "", "", "")

  const FrontendResponsibilities :=
    "• Lead the development of complex web applications\n"
    + "• Architect scalable frontend solutions\n"
    + "• Mentor junior developers\n"
    + "• Collaborate with product and design teams\n"
    + "• Implement best practices and coding standards"
  const FrontendRequirements :=
    "• 5+ years of experience with React.js\n"
    + "• Strong TypeScript knowledge\n"
    + "• Experience with modern frontend tools\n"
    + "• Excellent problem-solving skills\n"
    + "• Strong communication abilities"
  const FrontendBenefits :=
    "• Competitive salary\n"
    + "• Remote work flexibility\n"
    + "• Health insurance\n"
    + "• 401(k) matching\n"
    + "• Professional development budget"

  const SampleFrontend := JobPost(
    "Senior Frontend Developer", "Engineering", "Remote", "Full-time", "5+ years",
    "$120,000 - $160,000", FrontendResponsibilities, FrontendRequirements, FrontendBenefits)

  const SampleDesigner := JobPost(
    "Product Designer", "Design", "Hybrid", "Full-time", "3+ years", "$90,000 - $130,000",
    "• Create user-centered designs by understanding business requirements\n"
    + "• Design user flows, wireframes, and high-fidelity mockups\n"
    + "• Conduct user research and usability testing\n"
    + "• Collaborate with developers on implementation\n"
    + "• Maintain and evolve our design system",
    "• 3+ years of product design experience\n"
    + "• Proficiency in Figma and modern design tools\n"
    + "• Strong portfolio demonstrating UX/UI skills\n"
    + "• Experience with design systems\n"
    + "• Excellent collaboration skills",
    "• Flexible work schedule\n"
    + "• Health and dental insurance\n"
    + "• Annual learning budget\n"
    + "• Home office stipend\n"
    + "• Regular team events")

  /** `sampleJobs`: the list the board starts with. */
  const SampleJobs: seq<JobPost> := [SampleFrontend, SampleDesigner]

  /** What mockAIGenerate resolves with: the first sample, with the type in the select's lower-case spelling. */
  const GeneratedPost := SampleFrontend.(employmentType := "full-time")

  /** The value of one field. */
  function Get(p: JobPost, f: Field): string {
    match f
    case Title => p.title
    case Department => p.department
    case Location => p.location
    case EmploymentType => p.employmentType
    case ExperienceLevel => p.experienceLevel
    case SalaryRange => p.salaryRange
    case Responsibilities => p.responsibilities
    case Requirements => p.requirements
    case Benefits => p.benefits
  }

  /** `{ ...jobPost, [f]: v }`: the edited field takes the new value and no other field changes. */
  function WithField(p: JobPost, f: Field, v: string): (r: JobPost)
    ensures Get(r, f) == v
    ensures forall g: Field | g != f :: Get(r, g) == Get(p, g)
  {
    match f
    case Title => p.(title := v)
    case Department => p.(department := v)
    case Location => p.(location := v)
    case EmploymentType => p.(employmentType := v)
    case ExperienceLevel => p.(experienceLevel := v)
    case SalaryRange => p.(salaryRange := v)
    case Responsibilities => p.(responsibilities := v)
    case Requirements => p.(requirements := v)
    case Benefits => p.(benefits := v)
  }

  /** The options of the Location select, the "Select location" placeholder first. */
  const LocationOptions: seq<string> := ["", "remote", "hybrid", "onsite"]

  /** The options of the Employment Type select, the "Select type" placeholder first. */
  const EmploymentOptions: seq<string> := ["", "full-time", "part-time", "contract", "internship"]

  /**
   * The value a controlled `<select>` submits: the option whose value equals the bound
   * value, or the first option when none does.
   */
  function SelectedValue(value: string, options: seq<string>): (r: string)
    requires |options| > 0
    ensures r in options
    ensures value in options <==> r == value
    ensures value !in options ==> r == options[0]
  {
    if value in options then value else options[0]
  }

  /**
   * The constraint validation of the modal. The five text inputs and text areas marked
   * `required` must be non-empty, and the two `required` selects must submit a value other
   * than their empty placeholder. The salary range and the benefits are optional.
   */
  predicate RequiredFilled(p: JobPost) {
    && p.title != "" && p.department != ""
    && SelectedValue(p.location, LocationOptions) != ""
    && SelectedValue(p.employmentType, EmploymentOptions) != ""
    && p.experienceLevel != "" && p.responsibilities != "" && p.requirements != ""
  }

  /** A required select passes exactly when its bound value is one of its real options. */
  lemma SelectsPass(p: JobPost)
    ensures SelectedValue(p.location, LocationOptions) != "" <==> p.location in {"remote", "hybrid", "onsite"}
    ensures SelectedValue(p.employmentType, EmploymentOptions) != ""
      <==> p.employmentType in {"full-time", "part-time", "contract", "internship"}
  {
  }

  /**
   * The empty draft cannot be posted, and neither can the generated draft or either sample
   * reopened from its View button: "Remote", "Hybrid" and "Full-time" match no option, whose
   * values are lower case. With the location in the option's spelling the generated draft
   * passes, and from there emptying any required field blocks it while the two optional
   * fields may stay empty.
   */
  lemma RequiredExamples()
    ensures !RequiredFilled(InitialJobPost)
    ensures !RequiredFilled(GeneratedPost) && !RequiredFilled(SampleFrontend) && !RequiredFilled(SampleDesigner)
    ensures RequiredFilled(GeneratedPost.(location := "remote"))
    ensures forall f: Field | f != SalaryRange && f != Benefits ::
      !RequiredFilled(WithField(GeneratedPost.(location := "remote"), f, ""))
    ensures RequiredFilled(WithField(WithField(GeneratedPost.(location := "remote"), SalaryRange, ""), Benefits, ""))
  {
  }

  /** Two posts with the same value in every field are the same post. */
  lemma FieldsDetermine(p: JobPost, q: JobPost)
    requires forall f: Field :: Get(p, f) == Get(q, f)
    ensures p == q
  {
    assert Get(p, Title) == Get(q, Title) && Get(p, Department) == Get(q, Department);
    assert Get(p, Location) == Get(q, Location) && Get(p, EmploymentType) == Get(q, EmploymentType);
    assert Get(p, ExperienceLevel) == Get(q, ExperienceLevel) && Get(p, SalaryRange) == Get(q, SalaryRange);
    assert Get(p, Responsibilities) == Get(q, Responsibilities) && Get(p, Requirements) == Get(q, Requirements);
    assert Get(p, Benefits) == Get(q, Benefits);
  }

  /** Typing into every field in turn builds exactly the post that was typed, from any draft. */
  lemma EditEveryField(p: JobPost, q: JobPost)
    ensures
      var r := WithField(WithField(WithField(WithField(WithField(WithField(WithField(WithField(WithField(p,
        Title, q.title), Department, q.department), Location, q.location), EmploymentType, q.employmentType),
        ExperienceLevel, q.experienceLevel), SalaryRange, q.salaryRange), Responsibilities, q.responsibilities),
        Requirements, q.requirements), Benefits, q.benefits);
      r == q
  {
  }

  /** Submitting prepends the draft: the list grows by one and the old jobs keep their order behind it. */
  lemma PrependKeepsOrder(draft: JobPost, jobs: seq<JobPost>)
    ensures var r := [draft] + jobs;
      |r| == |jobs| + 1 && r[0] == draft && r[1..] == jobs && IsSubsequence(jobs, r)
  {
    SubsequenceOfPrepend(draft, jobs);
  }

  /** The generated draft differs from the first sample only in the spelling of its type, which the job card shows alike. */
  lemma GeneratedMatchesSample()
    ensures forall f: Field | f != EmploymentType :: Get(GeneratedPost, f) == Get(SampleFrontend, f)
    ensures JobListing.EmploymentTypeInfo(GeneratedPost.employmentType)
      == JobListing.EmploymentTypeInfo(SampleFrontend.employmentType)
      == JobListing.LabelInfo(JobListing.Clock, "Full-time")
  {
    JobListing.FullTimeFixed();
    assert Text.ToLower("full-time") == "full-time";
    JobListing.ContainsSelf("full-time");
  }

  /** The board's state. */
  class JobBoard {
    var showModal: bool
    var showPreview: bool
    var jobPost: JobPost
    var isGenerating: bool
    var postedJobs: seq<JobPost>

    /** The board as it is first shown: no modal, no preview, an empty draft and the two samples. */
    constructor ()
      ensures !showModal && !showPreview && !isGenerating
      ensures jobPost == InitialJobPost && postedJobs == SampleJobs
      ensures forall f: Field :: Get(jobPost, f) == ""
    {
      showModal, showPreview, isGenerating := false, false, false;
      jobPost, postedJobs := InitialJobPost, SampleJobs;
    }

    /** "Post New Job". */
    method OpenModal()
      modifies this
      ensures showModal
      ensures showPreview == old(showPreview) && jobPost == old(jobPost) && postedJobs == old(postedJobs)
      ensures isGenerating == old(isGenerating)
    {
      showModal := true;
    }

    /** The modal's close and Cancel buttons. */
    method CloseModal()
      modifies this
      ensures !showModal
      ensures showPreview == old(showPreview) && jobPost == old(jobPost) && postedJobs == old(postedJobs)
      ensures isGenerating == old(isGenerating)
    {
      showModal := false;
    }

    /** One `onChange` of the modal's inputs. */
    method EditField(f: Field, v: string)
      modifies this
      ensures jobPost == WithField(old(jobPost), f, v)
      ensures showModal == old(showModal) && showPreview == old(showPreview)
      ensures postedJobs == old(postedJobs) && isGenerating == old(isGenerating)
    {
      jobPost := WithField(jobPost, f, v);
    }

    /**
     * The modal's submit. The browser's constraint validation runs first: while RequiredFilled
     * fails the form is not submitted and nothing changes. Otherwise handleSubmit
     * puts the draft at the head of the list, closes the modal and opens the preview.
     */
    method Submit() returns (posted: bool)
      modifies this
      ensures posted == RequiredFilled(old(jobPost))
      ensures posted ==> postedJobs == [old(jobPost)] + old(postedJobs) && !showModal && showPreview
      ensures posted ==> |postedJobs| == |old(postedJobs)| + 1 && IsSubsequence(old(postedJobs), postedJobs)
      ensures !posted ==>
        postedJobs == old(postedJobs) && showModal == old(showModal) && showPreview == old(showPreview)
      ensures jobPost == old(jobPost) && isGenerating == old(isGenerating)
    {
      posted := RequiredFilled(jobPost);
      if posted {
        SubsequenceOfPrepend(jobPost, postedJobs);
        postedJobs := [jobPost] + postedJobs;
        showModal := false;
        showPreview := true;
      }
    }

    /** handleAIGenerate: the whole draft is replaced by the template, and the flag is back to false. */
    method AIGenerate()
      modifies this
      ensures jobPost == GeneratedPost && !isGenerating
      ensures showModal == old(showModal) && showPreview == old(showPreview) && postedJobs == old(postedJobs)
    {
      isGenerating := true;
      jobPost := GeneratedPost;
      isGenerating := false;
    }

    /** A card's View button: the chosen job becomes the draft and the preview opens. */
    method View(job: JobPost)
      modifies this
      ensures jobPost == job && showPreview
      ensures showModal == old(showModal) && postedJobs == old(postedJobs) && isGenerating == old(isGenerating)
    {
      jobPost := job;
      showPreview := true;
    }

    /** The preview's close button. */
    method ClosePreview()
      modifies this
      ensures !showPreview
      ensures showModal == old(showModal) && jobPost == old(jobPost) && postedJobs == old(postedJobs)
      ensures isGenerating == old(isGenerating)
    {
      showPreview := false;
    }
  }
}
