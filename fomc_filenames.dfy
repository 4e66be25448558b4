/**
 * Canonical FOMC meeting IDs (te_calendar_scraper/test_fomc_filenames.py):
 * `{year}_{abbr}_{dates}`, where a split month such as "Apr/May" is named by
 * its first month and the meeting type plays no part.
 */
module FomcFilenames {
  import opened Wrappers
  import opened PyStr
  import opened FomcScraperNew

  /** `month_abbrev.get(key)` for the literal table of `get_meeting_id`. */
  function MeetingMonthAbbrevGet(key: string): Option<string> {
    match key
    case "January" => Some("jan") case "February" => Some("feb") case "March" => Some("mar")
    case "April" => Some("apr") case "May" => Some("may") case "June" => Some("jun")
    case "July" => Some("jul") case "August" => Some("aug") case "September" => Some("sep")
    case "October" => Some("oct") case "November" => Some("nov") case "December" => Some("dec")
    case "Jan/Feb" => Some("jan") case "Apr/May" => Some("apr") case "Oct/Nov" => Some("oct")
    case _ => None
  }

  /** `month.split('/')[0] if '/' in month else month` */
  function MonthKeyOf(month: string): (k: string)
    ensures !Contains(k, "/")
  {
    if Contains(month, "/") then
      var k := Split(month, "/")[0];
      assert k == month[..Find(month, "/")];
      assert !Contains(k, "/") by {
        forall j | 0 <= j <= |k| - 1 ensures !OccursAt(k, "/", j) {
          assert k[j..j + 1] == month[j..j + 1];
          assert !OccursAt(month, "/", j);
        }
      }
      k
    else month
  }

  /** `month_abbrev.get(month_key, month_key[:3].lower())` */
  function MeetingMonthAbbr(monthKey: string): string {
    MeetingMonthAbbrevGet(monthKey).UnwrapOr(Lower(monthKey[..if |monthKey| < 3 then |monthKey| else 3]))
  }

  /** `get_meeting_id(meeting)`; `dates.replace('-', '-')` leaves the dates as they are. */
  function GetMeetingId(m: MeetingMaterial): string {
    IntStr(m.year) + "_" + MeetingMonthAbbr(MonthKeyOf(m.month)) + "_" + m.dates
  }

  /** A month without '/' is its own key; `a/b` is keyed by `a`. */
  lemma MonthKeyOfSplit(a: string, b: string)
    requires !Contains(a, "/")
    ensures MonthKeyOf(a) == a
    ensures MonthKeyOf(a + "/" + b) == a
  {
    var s := a + "/" + b;
    assert OccursAt(s, "/", |a|) by {
      assert s[|a|..|a| + 1] == "/";
    }
    forall j | 0 <= j < |a| ensures !OccursAt(s, "/", j) {
      assert s[j..j + 1] == a[j..j + 1];
      assert !OccursAt(a, "/", j);
    }
    assert Find(s, "/") == |a|;
    assert s[..|a|] == a;
  }

  /** A split month is named by its first month: the second plays no part. */
  lemma SplitMonthUsesFirst(m: MeetingMaterial, a: string, b: string)
    requires !Contains(a, "/") && m.month == a + "/" + b
    ensures GetMeetingId(m) == GetMeetingId(m.(month := a))
  {
    MonthKeyOfSplit(a, b);
  }

  /** The meeting type, and every field but year, month and dates, plays no part. */
  lemma MeetingIdIgnoresOtherFields(m: MeetingMaterial, n: MeetingMaterial)
    requires m.year == n.year && m.month == n.month && m.dates == n.dates
    ensures GetMeetingId(m) == GetMeetingId(n)
  {
  }

  lemma NoSlash(s: string)
    requires forall i :: 0 <= i < |s| ==> s[i] != '/'
    ensures !Contains(s, "/")
  {
    forall j | 0 <= j <= |s| - 1 ensures !OccursAt(s, "/", j) {
      assert s[j..j + 1][0] == s[j];
    }
  }

  /**
   * Every entry of the table is the lowered first three letters of its key, so
   * the abbreviation is always that, found in the table or not.
   */
  lemma MeetingMonthAbbrIsPrefix(monthKey: string)
    ensures MeetingMonthAbbr(monthKey) == Lower(monthKey[..if |monthKey| < 3 then |monthKey| else 3])
  {
    var r := MeetingMonthAbbrevGet(monthKey);
    if r.Some? {
      var low := Lower(monthKey[..3]);
      assert |low| == 3 && low[0] == LowerChar(monthKey[0]) && low[1] == LowerChar(monthKey[1]) && low[2] == LowerChar(monthKey[2]);
    }
  }

  /** `test_january_28_29_2025` */
  lemma JanuaryMeetingId(m: MeetingMaterial)
    requires m.year == 2025 && m.month == "January" && m.dates == "28-29" && m.meetingType == "FOMC Meeting"
    ensures GetMeetingId(m) == "2025_jan_28-29"
  {
    NoSlash(m.month);
    NatStrFourDigits(2025);
  }

  /** `test_split_month`: "Apr/May" is named by April, and "may" is not in the ID. */
  lemma SplitMonthMeetingId(m: MeetingMaterial)
    requires m.year == 2024 && m.month == "Apr/May" && m.dates == "30-1" && m.meetingType == "FOMC Meeting"
    ensures GetMeetingId(m) == "2024_apr_30-1"
    ensures !Contains(GetMeetingId(m), "may")
  {
    var first := m.month[..3];
    assert m.month == first + "/" + "May";
    NoSlash(first);
    MonthKeyOfSplit(first, "May");
    NatStrFourDigits(2024);
    var low := Lower(first);
    assert |low| == 3 && low[0] == 'a' && low[1] == 'p' && low[2] == 'r';
    NoMay(GetMeetingId(m));
  }

  lemma NoMay(id: string)
    requires id == "2024_apr_30-1"
    ensures !Contains(id, "may")
  {
    forall j | 0 <= j <= |id| - 3 ensures !OccursAt(id, "may", j) {
      assert id[j..j + 3][0] == id[j];
    }
  }

  /** `test_notation_vote`: a notation vote gets the plain meeting ID. */
  lemma NotationVoteMeetingId(m: MeetingMaterial)
    requires m.year == 2020 && m.month == "August" && m.dates == "27" && m.meetingType == "Notation Vote"
    ensures GetMeetingId(m) == "2020_aug_27"
  {
    NoSlash(m.month);
    NatStrFourDigits(2020);
  }
}
