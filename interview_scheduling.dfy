/**
 * The candidate table (src/components/InterviewScheduling.tsx): selecting or rejecting a
 * candidate by id, the colour band of an ATS score, the four-way filter of the table and
 * the interview-invitation email.
 */
module InterviewScheduling {
  import opened Options
  import opened Text
  import opened Sequences

  datatype Status = Pending | Selected | Rejected

  /** A row of the table (the `Candidate` record of src/data/data.ts). */
  datatype Candidate = Candidate(
    id: string, name: string, experience: int, email: string, phone: string,
    atsScore: int, status: Status, resumeUrl: string, jobTitle: string)

  // ------------------------------------------------------------------
  // handleStatusChange
  // ------------------------------------------------------------------

  /** `candidates.map(c => c.id === id ? { ...c, status } : c)`. */
  function WithStatus(cs: seq<Candidate>, id: string, status: Status): (r: seq<Candidate>)
    ensures |r| == |cs|
    ensures forall i | 0 <= i < |cs| :: r[i].status == (if cs[i].id == id then status else cs[i].status)
    ensures forall i | 0 <= i < |cs| :: r[i] == cs[i].(status := r[i].status)
  {
    if cs == [] then []
    else [if cs[0].id == id then cs[0].(status := status) else cs[0]] + WithStatus(cs[1..], id, status)
  }

  /** Setting the same status twice is the same as setting it once. */
  lemma WithStatusIdempotent(cs: seq<Candidate>, id: string, status: Status)
    ensures WithStatus(WithStatus(cs, id, status), id, status) == WithStatus(cs, id, status)
  {
    var once := WithStatus(cs, id, status);
    var twice := WithStatus(once, id, status);
    assert forall i | 0 <= i < |cs| :: twice[i] == once[i];
  }

  /** Status changes for two different ids do not interfere: their order does not matter. */
  lemma WithStatusCommutes(cs: seq<Candidate>, id1: string, s1: Status, id2: string, s2: Status)
    requires id1 != id2
    ensures WithStatus(WithStatus(cs, id1, s1), id2, s2) == WithStatus(WithStatus(cs, id2, s2), id1, s1)
  {
    var a := WithStatus(WithStatus(cs, id1, s1), id2, s2);
    var b := WithStatus(WithStatus(cs, id2, s2), id1, s1);
    assert forall i | 0 <= i < |cs| :: a[i] == b[i];
  }

  // ------------------------------------------------------------------
  // getScoreColor
  // ------------------------------------------------------------------

  datatype ScoreBand = Green | Yellow | Red

  /** The band of an ATS score; both thresholds belong to the band above them. */
  function ScoreBandOf(score: int): (b: ScoreBand)
    ensures b == Green <==> score >= 90
    ensures b == Yellow <==> 70 <= score < 90
    ensures b == Red <==> score < 70
  {
    if score >= 90 then Green else if score >= 70 then Yellow else Red
  }

  /** The classes getScoreColor returns for a band. */
  function BandClasses(b: ScoreBand): string {
    match b
    case Green => "text-green-600 bg-green-100"
    case Yellow => "text-yellow-600 bg-yellow-100"
    case Red => "text-red-600 bg-red-100"
  }

  function BandRank(b: ScoreBand): nat {
    match b
    case Red => 0
    case Yellow => 1
    case Green => 2
  }

  /** A higher score never falls into a lower band. */
  lemma ScoreBandMonotone(s: int, t: int)
    requires s <= t
    ensures BandRank(ScoreBandOf(s)) <= BandRank(ScoreBandOf(t))
  {
  }

  // ------------------------------------------------------------------
  // filteredCandidates
  // ------------------------------------------------------------------

  datatype StatusFilter = AllStatuses | OnlyStatus(status: Status)

  /**
   * The filter bar: the search text, the minimum score (None for the empty field), the status
   * selector and the position selector, whose "all" entry is the literal string "all".
   */
  datatype Filters = Filters(searchTerm: string, minScore: Option<int>, status: StatusFilter, jobTitle: string)

  const NoFilters := Filters("", None, AllStatuses, "all")

  predicate MatchesSearch(c: Candidate, term: string) {
    Contains(ToLower(c.name), ToLower(term)) || Contains(ToLower(c.email), ToLower(term))
  }

  predicate MatchesScore(c: Candidate, minScore: Option<int>) {
    minScore.None? || c.atsScore >= minScore.value
  }

  predicate MatchesStatus(c: Candidate, f: StatusFilter) {
    f.AllStatuses? || c.status == f.status
  }

  predicate MatchesJobTitle(c: Candidate, title: string) {
    title == "all" || c.jobTitle == title
  }

  predicate Matches(c: Candidate, f: Filters) {
    && MatchesSearch(c, f.searchTerm)
    && MatchesScore(c, f.minScore)
    && MatchesStatus(c, f.status)
    && MatchesJobTitle(c, f.jobTitle)
  }

  function FilteredCandidates(cs: seq<Candidate>, f: Filters): (r: seq<Candidate>)
    ensures |r| <= |cs|
    ensures forall i | 0 <= i < |r| :: Matches(r[i], f)
  {
    Filter((c: Candidate) => Matches(c, f), cs)
  }

  /** The table shows a selection of the candidates in their original order. */
  lemma FilteredIsSubsequence(cs: seq<Candidate>, f: Filters)
    ensures IsSubsequence(FilteredCandidates(cs, f), cs)
  {
    FilterIsSubsequence((c: Candidate) => Matches(c, f), cs);
  }

  /** A candidate is shown exactly when all four conditions hold. */
  lemma FilteredExactlyMatching(cs: seq<Candidate>, f: Filters, c: Candidate)
    ensures c in FilteredCandidates(cs, f) <==>
      && c in cs
      && (Contains(ToLower(c.name), ToLower(f.searchTerm)) || Contains(ToLower(c.email), ToLower(f.searchTerm)))
      && (f.minScore.None? || c.atsScore >= f.minScore.value)
      && (f.status.AllStatuses? || c.status == f.status.status)
      && (f.jobTitle == "all" || c.jobTitle == f.jobTitle)
  {
    FilterMembership((c: Candidate) => Matches(c, f), cs, c);
  }

  /** With every control at its initial value the table shows every candidate. */
  lemma NoFiltersShowsAll(cs: seq<Candidate>)
    ensures FilteredCandidates(cs, NoFilters) == cs
  {
    forall i | 0 <= i < |cs| ensures Matches(cs[i], NoFilters) {
      assert ToLower("") == "";
      ContainsEmpty(ToLower(cs[i].name));
    }
    FilterAllKept((c: Candidate) => Matches(c, NoFilters), cs);
  }

  // ------------------------------------------------------------------
  // generateEmailContent
  // ------------------------------------------------------------------

  const EmailIntro := "\n\nWe are pleased to inform you that you have been selected for an interview for the "
  const EmailDetails := " position you applied for. \n\n"
    + "Interview Details:\n"
    + "Date: [INSERT DATE]\n"
    + "Time: [INSERT TIME]\n"
    + "Location: [INSERT LOCATION/VIRTUAL MEETING LINK]\n\n"
    + "Please confirm your availability for this interview by responding to this email.\n\n"
    + "Best regards,\n"
    + "[YOUR NAME]\n"
    + "[COMPANY NAME]"

  /** The invitation text: it greets the candidate by name and names the position. */
  function EmailContent(c: Candidate): (text: string)
    ensures StartsWith(text, "Dear " + c.name + ",")
    ensures Contains(text, c.name) && Contains(text, c.jobTitle)
  {
    var greeting := "Dear " + c.name + ",";
    var text := greeting + EmailIntro + c.jobTitle + EmailDetails;
    assert text[..|greeting|] == greeting;
    assert OccursAt(text, c.name, 5);
    assert OccursAt(text, c.jobTitle, |greeting| + |EmailIntro|);
    text
  }

  // ------------------------------------------------------------------
  // The component's state.
  // ------------------------------------------------------------------

  class CandidateBoard {
    var candidates: seq<Candidate>
    var selectedCandidate: Option<Candidate>
    var drawerOpen: bool

    constructor (initial: seq<Candidate>)
      ensures candidates == initial && selectedCandidate == None && !drawerOpen
    {
      candidates, selectedCandidate, drawerOpen := initial, None, false;
    }

    /** handleStatusChange: the buttons only ever select or reject. */
    method HandleStatusChange(candidateId: string, status: Status)
      requires status == Selected || status == Rejected
      modifies this
      ensures candidates == WithStatus(old(candidates), candidateId, status)
      ensures selectedCandidate == old(selectedCandidate) && drawerOpen == old(drawerOpen)
    {
      candidates := WithStatus(candidates, candidateId, status);
    }

    /** handleViewResume: the drawer opens on the chosen candidate. */
    method ViewResume(c: Candidate)
      modifies this
      ensures selectedCandidate == Some(c) && drawerOpen && candidates == old(candidates)
    {
      selectedCandidate := Some(c);
      drawerOpen := true;
    }
  }
}
