/**
 * The labels of a job card (src/components/JobListing.tsx): the location and the employment
 * type are matched, case-insensitively and by substring, against a fixed list of keywords
 * in order; the first keyword found picks the canonical label, and an unmatched value is
 * shown as it is.
 */
module JobListing {
  import opened Text

  /** The icon drawn beside a label. */
  datatype Icon = MapPin | Clock | Briefcase

  datatype LabelInfo = LabelInfo(icon: Icon, text: string)

  /** getLocationInfo. */
  function LocationInfo(location: string): (info: LabelInfo)
    ensures info.icon == MapPin
    ensures Contains(ToLower(location), "remote") ==> info.text == "Remote"
    ensures !Contains(ToLower(location), "remote") && Contains(ToLower(location), "hybrid") ==> info.text == "Hybrid"
    ensures !Contains(ToLower(location), "remote") && !Contains(ToLower(location), "hybrid") ==> info.text == location
  {
    var normalized := ToLower(location);
    if Contains(normalized, "remote") then LabelInfo(MapPin, "Remote")
    else if Contains(normalized, "hybrid") then LabelInfo(MapPin, "Hybrid")
    else LabelInfo(MapPin, location)
  }

  /** getEmploymentTypeInfo: full-time, part-time, contract, internship, in that order. */
  function EmploymentTypeInfo(employmentType: string): (info: LabelInfo)
    ensures var t := ToLower(employmentType);
      && (Contains(t, "full-time") ==> info == LabelInfo(Clock, "Full-time"))
      && (!Contains(t, "full-time") && Contains(t, "part-time") ==> info == LabelInfo(Clock, "Part-time"))
      && (!Contains(t, "full-time") && !Contains(t, "part-time") && Contains(t, "contract") ==>
          info == LabelInfo(Briefcase, "Contract"))
      && (!Contains(t, "full-time") && !Contains(t, "part-time") && !Contains(t, "contract")
          && Contains(t, "internship") ==>
          info == LabelInfo(Briefcase, "Internship"))
      && (!Contains(t, "full-time") && !Contains(t, "part-time") && !Contains(t, "contract")
          && !Contains(t, "internship") ==>
          info == LabelInfo(Clock, employmentType))
  {
    var normalized := ToLower(employmentType);
    if Contains(normalized, "full-time") then LabelInfo(Clock, "Full-time")
    else if Contains(normalized, "part-time") then LabelInfo(Clock, "Part-time")
    else if Contains(normalized, "contract") then LabelInfo(Briefcase, "Contract")
    else if Contains(normalized, "internship") then LabelInfo(Briefcase, "Internship")
    else LabelInfo(Clock, employmentType)
  }

  // ------------------------------------------------------------------
  // Properties.
  // ------------------------------------------------------------------

  /** A string never contains a longer one. */
  lemma NotContainsLonger(s: string, sub: string)
    requires |s| < |sub|
    ensures !Contains(s, sub)
  {
  }

  /** A string contains itself. */
  lemma ContainsSelf(s: string)
    ensures Contains(s, s)
  {
    assert OccursAt(s, s, 0);
  }

  /** When both keywords occur, "remote" wins. */
  lemma RemoteBeatsHybrid(location: string)
    requires Contains(ToLower(location), "remote") && Contains(ToLower(location), "hybrid")
    ensures LocationInfo(location).text == "Remote"
  {
  }

  /** Upper case does not matter, and the keyword may sit inside a longer text. */
  lemma LocationExample()
    ensures LocationInfo("Hybrid / REMOTE").text == "Remote"
  {
    var t := ToLower("Hybrid / REMOTE");
    assert t[9..15] == "remote";
    assert OccursAt(t, "remote", 9);
  }

  /** The icon is a briefcase exactly for contract and internship labels, a clock otherwise. */
  lemma EmploymentIcon(employmentType: string)
    ensures EmploymentTypeInfo(employmentType).icon == Briefcase <==>
      EmploymentTypeInfo(employmentType).text in {"Contract", "Internship"}
  {
    var t := ToLower(employmentType);
    var info := EmploymentTypeInfo(employmentType);
    if !Contains(t, "full-time") && !Contains(t, "part-time") && !Contains(t, "contract")
      && !Contains(t, "internship") && info.text in {"Contract", "Internship"}
    {
      // The value is shown unchanged, and the canonical text would have matched a keyword.
      assert info.text == employmentType;
      if employmentType == "Contract" {
        assert ToLower(employmentType) == "contract";
        ContainsSelf("contract");
      } else {
        assert ToLower(employmentType) == "internship";
        ContainsSelf("internship");
      }
    }
  }

  /** Classifying a canonical location label gives it back: the labels are fixed points. */
  lemma LocationIdempotent(location: string)
    ensures LocationInfo(LocationInfo(location).text) == LocationInfo(location)
  {
    var text := LocationInfo(location).text;
    if text == "Remote" {
      assert ToLower("Remote") == "remote";
      ContainsSelf("remote");
    } else if text == "Hybrid" {
      assert ToLower("Hybrid") == "hybrid";
      ContainsSelf("hybrid");
      assert !OccursAt("hybrid", "remote", 0);
    }
  }

  /** Classifying a canonical employment label gives it back. */
  lemma EmploymentIdempotent(employmentType: string)
    ensures EmploymentTypeInfo(EmploymentTypeInfo(employmentType).text) == EmploymentTypeInfo(employmentType)
  {
    var text := EmploymentTypeInfo(employmentType).text;
    if text == "Full-time" {
      FullTimeFixed();
    } else if text == "Part-time" {
      PartTimeFixed();
    } else if text == "Contract" {
      ContractFixed();
    } else if text == "Internship" {
      InternshipFixed();
    }
  }

  lemma FullTimeFixed()
    ensures EmploymentTypeInfo("Full-time") == LabelInfo(Clock, "Full-time")
  {
    assert ToLower("Full-time") == "full-time";
    ContainsSelf("full-time");
  }

  lemma PartTimeFixed()
    ensures EmploymentTypeInfo("Part-time") == LabelInfo(Clock, "Part-time")
  {
    assert ToLower("Part-time") == "part-time";
    ContainsSelf("part-time");
    assert !OccursAt("part-time", "full-time", 0);
  }

  lemma ContractFixed()
    ensures EmploymentTypeInfo("Contract") == LabelInfo(Briefcase, "Contract")
  {
    assert ToLower("Contract") == "contract";
    ContainsSelf("contract");
    NotContainsLonger("contract", "full-time");
    NotContainsLonger("contract", "part-time");
  }

  lemma InternshipFixed()
    ensures EmploymentTypeInfo("Internship") == LabelInfo(Briefcase, "Internship")
  {
    var t := "internship";
    assert ToLower("Internship") == t;
    ContainsSelf(t);
    InternshipMisses();
  }

  /** "internship" holds none of the three earlier keywords. */
  lemma InternshipMisses()
    ensures !Contains("internship", "full-time")
    ensures !Contains("internship", "part-time")
    ensures !Contains("internship", "contract")
  {
    MismatchAt("internship", "full-time", 0, 0);
    MismatchAt("internship", "full-time", 1, 0);
    MismatchAt("internship", "part-time", 0, 0);
    MismatchAt("internship", "part-time", 1, 0);
    MissesContract();
  }

  lemma MissesContract()
    ensures !Contains("internship", "contract")
  {
    MismatchAt("internship", "contract", 0, 0);
    MismatchAt("internship", "contract", 1, 0);
    MismatchAt("internship", "contract", 2, 0);
  }

  /** One differing character rules out an occurrence at that position. */
  lemma MismatchAt(s: string, sub: string, i: nat, k: nat)
    requires i + |sub| <= |s| && k < |sub| && s[i + k] != sub[k]
    ensures !OccursAt(s, sub, i)
  {
  }
}
