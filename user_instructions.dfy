/**
 * The help page (src/components/UserInstructions.tsx): four tabs, a content entry for each
 * tab looked up by id, and Previous/Next buttons that move one tab at a time and stop at
 * the first and the last tab.
 */
module UserInstructions {
  import opened Options
  import TimeFormat

  datatype Tab = Tab(id: int, title: string)

  /** `tabs`, in the order the tab bar shows them. */
  const Tabs: seq<Tab> := [
    Tab(1, "Job Post Creation"),
    Tab(2, "Resume & Shortlisting"),
    Tab(3, "AI Interview Process"),
    Tab(4, "Reports & Selection")
  ]

  /** The number of the last tab, the bound of the Next button. */
  const LastTab := 4

  /** One entry of `tabContent`; only the last one has additional features. */
  datatype TabContent = TabContent(
    id: int, title: string, description: string, steps: seq<string>, additionalFeatures: Option<seq<string>>)

  const TabContents: seq<TabContent> := [
    TabContent(1, "Job Post Creation",
      "Create and publish job listings for your company with AI assistance",
      ["Log in to your company profile",
       "Click on \"Create Job Post\"",
       "Enter job details (title, description, skills, salary range, etc.)",
       "Use AI-assisted JD generator for auto-suggestions",
       "Review and publish the job post"],
      None),
    TabContent(2, "Resume Submission & Shortlisting",
      "Manage candidate applications with AI-powered screening",
      ["Candidates submit their resumes",
       "The AI scans and generates a detailed report",
       "System suggests top candidates based on relevance",
       "Shortlist candidates with one click",
       "Send AI interview invites automatically"],
      None),
    TabContent(3, "AI-Powered Interview Process",
      "Conduct efficient, intelligent interviews with our AI assistant",
      ["Candidates receive a link and join the interview",
       "The AI interviewer asks role-specific questions",
       "Camera is mandatory for facial analysis and authentication",
       "The session is recorded and analyzed in real-time"],
      None),
    TabContent(4, "AI-Generated Reports & Selection",
      "Make data-driven hiring decisions with comprehensive AI insights",
      ["AI evaluates responses, body language, and skills",
       "Generates detailed performance reports for candidates",
       "Companies can review reports and make hiring decisions"],
      Some(["Automated Follow-ups: Send emails to shortlisted candidates",
            "Custom Interview Settings: Adjust difficulty level and question style",
            "Export Reports: Download reports for HR and management review"]))
  ]

  /** `contents.find(content => content.id === id)`. */
  function FindContent(contents: seq<TabContent>, id: int): (r: Option<TabContent>)
    ensures r.Some? ==> r.value in contents && r.value.id == id
    ensures r.None? <==> forall j | 0 <= j < |contents| :: contents[j].id != id
  {
    if contents == [] then None
    else if contents[0].id == id then Some(contents[0])
    else FindContent(contents[1..], id)
  }

  /** `activeContent`. */
  function ActiveContent(activeTab: int): (r: Option<TabContent>)
    ensures r.Some? ==> r.value in TabContents && r.value.id == activeTab
    ensures r.None? <==> !(1 <= activeTab <= LastTab)
  {
    FindContent(TabContents, activeTab)
  }

  /** The Previous button: `Math.max(1, activeTab - 1)`. */
  function PreviousTab(t: int): (r: int)
    ensures 1 <= t <= LastTab ==> 1 <= r <= LastTab
    ensures r == t <==> t == 1
    ensures t > 1 ==> r == t - 1
  {
    if t - 1 >= 1 then t - 1 else 1
  }

  /** The Next button: `Math.min(4, activeTab + 1)`. */
  function NextTab(t: int): (r: int)
    ensures 1 <= t <= LastTab ==> 1 <= r <= LastTab
    ensures r == t <==> t == LastTab
    ensures t < LastTab ==> r == t + 1
  {
    if t + 1 <= LastTab then t + 1 else LastTab
  }

  /** "Step t of n", where n is `tabs.length`. */
  function StepCaption(t: int): string {
    "Step " + TimeFormat.IntToString(t) + " of " + TimeFormat.IntToString(|Tabs|)
  }

  // ------------------------------------------------------------------
  // Properties.
  // ------------------------------------------------------------------

  /** Every tab of the bar has a content entry under its id, so an in-range tab always shows content. */
  lemma EveryTabHasContent(t: int)
    requires 1 <= t <= LastTab
    ensures ActiveContent(t).Some? && ActiveContent(t).value.id == t
    ensures ActiveContent(t).value == TabContents[t - 1]
  {
    assert TabContents[t - 1].id == t;
  }

  /** The bound of the Next button is the number of tabs, and the tab ids are 1, 2, 3, 4 in order. */
  lemma LastTabIsTabCount()
    ensures |Tabs| == LastTab == |TabContents|
    ensures forall i | 0 <= i < |Tabs| :: Tabs[i].id == i + 1 == TabContents[i].id
  {
  }

  /** Only the last entry lists additional features. */
  lemma FeaturesOnlyOnLastTab(t: int)
    requires 1 <= t <= LastTab
    ensures ActiveContent(t).value.additionalFeatures.Some? <==> t == LastTab
  {
    EveryTabHasContent(t);
  }

  /** Going back and then forward returns to the same tab, except at the first one. */
  lemma PreviousThenNext(t: int)
    requires 1 < t <= LastTab
    ensures NextTab(PreviousTab(t)) == t
  {
  }

  /** Repeated clicks on Next reach the last tab and stay there. */
  lemma {:induction false} NextRepeated(t: int, n: nat)
    requires 1 <= t <= LastTab
    ensures Iterate(t, n) == if t + n <= LastTab then t + n else LastTab
    decreases n
  {
    if n > 0 {
      NextRepeated(t, n - 1);
    }
  }

  /** The tab after `n` clicks on Next. */
  function Iterate(t: int, n: nat): int
    decreases n
  {
    if n == 0 then t else NextTab(Iterate(t, n - 1))
  }

  lemma StepCaptionOfLast()
    ensures StepCaption(LastTab) == "Step 4 of 4"
  {
    assert TimeFormat.NatToDigits(4) == "4";
  }

  /** The page's one piece of state: the number of the active tab. */
  class InstructionsPage {
    var activeTab: int

    ghost predicate Valid()
      reads this
    {
      1 <= activeTab <= LastTab
    }

    constructor ()
      ensures Valid() && activeTab == 1
    {
      activeTab := 1;
    }

    /** `disabled={activeTab === 1}`: Previous is disabled exactly where it would change nothing. */
    predicate PreviousDisabled()
      reads this
      ensures PreviousDisabled() <==> PreviousTab(activeTab) == activeTab
    {
      activeTab == 1
    }

    /** `disabled={activeTab === 4}`: Next is disabled exactly where it would change nothing. */
    predicate NextDisabled()
      reads this
      ensures NextDisabled() <==> NextTab(activeTab) == activeTab
    {
      activeTab == LastTab
    }

    method Previous()
      requires Valid()
      modifies this
      ensures Valid() && activeTab == PreviousTab(old(activeTab))
    {
      activeTab := if activeTab - 1 >= 1 then activeTab - 1 else 1;
    }

    method Next()
      requires Valid()
      modifies this
      ensures Valid() && activeTab == NextTab(old(activeTab))
    {
      activeTab := if activeTab + 1 <= LastTab then activeTab + 1 else LastTab;
    }

    /** A tab button or a select option: each offers one of the ids of `tabs`. */
    method SelectTab(id: int)
      requires exists i | 0 <= i < |Tabs| :: Tabs[i].id == id
      modifies this
      ensures Valid() && activeTab == id
    {
      activeTab := id;
    }
  }
}
