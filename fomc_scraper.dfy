/**
 * The press-conference transcript scraper (te_calendar_scraper/scraper/fomc_scraper.py):
 * the release-date parser, the choice of the most recent transcripts, and the
 * download loop with its three counters.  Fetching pages and files is an oracle.
 */
module FomcScraper {
  import opened Wrappers
  import opened PyStr
  import opened PyDict
  import opened Calendar
  import opened DatePatterns
  import opened DateSort

  const NumRecentTranscripts: nat := 10

  datatype TranscriptMaterial = TranscriptMaterial(
    year: int,
    month: string,
    dates: string,
    pressConferencePdfUrl: Option<string>,
    meetingPageUrl: Option<string>,
    releaseDate: Option<Date>)

  /** `parse_release_date(text)`: only the "Released Month D, YYYY" form is read. */
  function ParseReleaseDate(text: string): (r: Option<Date>)
    ensures r.Some? ==> ValidDate(r.value)
    ensures Search(Released, text).None? ==> r.None?
  {
    SearchValid(Released, text)
  }

  /** A release line reads back as the date it prints ("Released January 29, 2025 at 2:00 p.m."). */
  lemma ParseReleaseDateReadsRelease(d: Date, rest: string)
    requires ValidDate(d) && d.year >= 1000
    ensures ParseReleaseDate("Released " + DateText(d) + rest) == Some(d)
  {
    ReleasedTextMatches(d, rest);
  }

  /** Python truthiness of an optional string. */
  predicate Truthy(s: Option<string>) {
    s.Some? && s.value != ""
  }

  predicate Eligible(m: TranscriptMaterial) {
    Truthy(m.pressConferencePdfUrl) && m.releaseDate.Some?
  }

  /** `[m for m in meetings if m.press_conference_pdf_url]` then `[... if m.release_date]`. */
  function Eligibles(ms: seq<TranscriptMaterial>): (r: seq<TranscriptMaterial>)
    ensures forall i :: 0 <= i < |r| ==> Eligible(r[i])
    ensures forall m :: m in ms && Eligible(m) <==> m in r
    ensures multiset(r) <= multiset(ms)
  {
    if |ms| == 0 then []
    else
      var init := ms[..|ms| - 1];
      var last := ms[|ms| - 1];
      assert ms == init + [last];
      Eligibles(init) + (if Eligible(last) then [last] else [])
  }

  function ReleaseKey(m: TranscriptMaterial): Date {
    m.releaseDate.UnwrapOr(Date(0, 0, 0))
  }

  /** The selection of `scrape_fomc_calendar`: eligible transcripts, newest first, at most ten. */
  function SelectRecentTranscripts(ms: seq<TranscriptMaterial>): (r: seq<TranscriptMaterial>)
    ensures |r| == if |Eligibles(ms)| < NumRecentTranscripts then |Eligibles(ms)| else NumRecentTranscripts
  {
    var sorted := SortDesc(Eligibles(ms), ReleaseKey);
    if |sorted| <= NumRecentTranscripts then sorted else sorted[..NumRecentTranscripts]
  }

  /** The selected transcripts all have a PDF and a release date, and come from the input. */
  lemma SelectRecentTranscriptsEligible(ms: seq<TranscriptMaterial>)
    ensures var r := SelectRecentTranscripts(ms);
      (forall i :: 0 <= i < |r| ==> Eligible(r[i])) && multiset(r) <= multiset(ms)
  {
    var e := Eligibles(ms);
    var sorted := SortDesc(e, ReleaseKey);
    SortDescCorrect(e, ReleaseKey);
    var r := SelectRecentTranscripts(ms);
    assert sorted == r + sorted[|r|..];
    assert multiset(r) <= multiset(e);
    forall i | 0 <= i < |r| ensures Eligible(r[i]) {
      assert r[i] in multiset(e);
    }
  }

  /** The selected transcripts come newest first. */
  lemma SelectRecentTranscriptsSorted(ms: seq<TranscriptMaterial>)
    ensures SortedDesc(SelectRecentTranscripts(ms), ReleaseKey)
  {
    var e := Eligibles(ms);
    SortDescCorrect(e, ReleaseKey);
  }

  /** No eligible transcript that was left out is newer than one that was kept. */
  lemma SelectRecentTranscriptsNewest(ms: seq<TranscriptMaterial>, m: TranscriptMaterial, y: TranscriptMaterial)
    requires m in ms && Eligible(m)
    requires y in SelectRecentTranscripts(ms)
    ensures m in SelectRecentTranscripts(ms) || AtOrBefore(ReleaseKey(m), ReleaseKey(y))
  {
    var e := Eligibles(ms);
    var sorted := SortDesc(e, ReleaseKey);
    SortDescCorrect(e, ReleaseKey);
    var r := SelectRecentTranscripts(ms);
    var k := |r|;
    assert r == sorted[..k];
    assert m in e;
    assert m in multiset(sorted);
    var p :| 0 <= p < |sorted| && sorted[p] == m;
    var q :| 0 <= q < |r| && r[q] == y;
    if p < k {
      assert r[p] == m;
    } else {
      assert sorted[q] == y;
    }
  }

  /** `month_abbrev.get(month)`: the twelve month names and their abbreviations. */
  function MonthAbbrevGet(month: string): Option<string> {
    match month
    case "January" => Some("jan") case "February" => Some("feb") case "March" => Some("mar")
    case "April" => Some("apr") case "May" => Some("may") case "June" => Some("jun")
    case "July" => Some("jul") case "August" => Some("aug") case "September" => Some("sep")
    case "October" => Some("oct") case "November" => Some("nov") case "December" => Some("dec")
    case _ => None
  }

  /** `month_abbrev.get(month, month[:3].lower())` */
  function MonthAbbr(month: string): string {
    MonthAbbrevGet(month).UnwrapOr(Lower(month[..if |month| < 3 then |month| else 3]))
  }

  /** The table agrees with its own fallback: the abbreviation is always the lowered first three letters. */
  lemma MonthAbbrIsPrefix(month: string)
    ensures MonthAbbr(month) == Lower(month[..if |month| < 3 then |month| else 3])
  {
    if MonthAbbrevGet(month).Some? {
      var low := Lower(month[..3]);
      assert |low| == 3 && low[0] == LowerChar(month[0]) && low[1] == LowerChar(month[1]) && low[2] == LowerChar(month[2]);
    }
  }

  /** `f"{year}_{month_abbr}_{dates}_press_conference.pdf"` */
  function TranscriptFilename(t: TranscriptMaterial): string {
    IntStr(t.year) + "_" + MonthAbbr(t.month) + "_" + t.dates + "_press_conference.pdf"
  }

  /** What a download attempt leaves: nothing, an empty file, or the file. */
  datatype FetchOutcome = FetchFailed | EmptyFile | Saved

  function CountWithPdf(ts: seq<TranscriptMaterial>): (n: nat)
    ensures n <= |ts|
  {
    if |ts| == 0 then 0
    else CountWithPdf(ts[..|ts| - 1]) + (if Truthy(ts[|ts| - 1].pressConferencePdfUrl) then 1 else 0)
  }

  /** The names of the files the transcripts with a PDF URL would be saved under. */
  function PdfFilenames(ts: seq<TranscriptMaterial>): set<string> {
    if |ts| == 0 then {}
    else
      var t := ts[|ts| - 1];
      PdfFilenames(ts[..|ts| - 1]) + (if Truthy(t.pressConferencePdfUrl) then {TranscriptFilename(t)} else {})
  }

  /** One more transcript: its PDF is counted and named when it has a URL. */
  lemma PdfStep(ts: seq<TranscriptMaterial>, i: nat)
    requires i < |ts|
    ensures CountWithPdf(ts[..i + 1]) == CountWithPdf(ts[..i]) + (if Truthy(ts[i].pressConferencePdfUrl) then 1 else 0)
    ensures PdfFilenames(ts[..i]) <= PdfFilenames(ts[..i + 1])
    ensures Truthy(ts[i].pressConferencePdfUrl) ==> TranscriptFilename(ts[i]) in PdfFilenames(ts[..i + 1])
  {
    assert ts[..i + 1][..i] == ts[..i];
  }

  /**
   * `download_recent_transcripts`: every transcript with a PDF URL is counted
   * exactly once, as skipped when its file is already on disk, as downloaded
   * when the fetch saves a non-empty file, and as failed otherwise.  Only the
   * transcripts' own file names are written (an empty download still leaves
   * its file behind).
   */
  method DownloadRecentTranscripts(ts: seq<TranscriptMaterial>, onDisk: set<string>, fetch: string -> FetchOutcome)
    returns (downloaded: nat, skipped: nat, failed: nat, disk: set<string>)
    ensures downloaded + skipped + failed == CountWithPdf(ts)
    ensures onDisk <= disk && disk - onDisk <= PdfFilenames(ts)
  {
    downloaded, skipped, failed := 0, 0, 0;
    disk := onDisk;
    var i := 0;
    while i < |ts|
      invariant 0 <= i <= |ts|
      invariant downloaded + skipped + failed == CountWithPdf(ts[..i])
      invariant onDisk <= disk && disk - onDisk <= PdfFilenames(ts[..i])
    {
      PdfStep(ts, i);
      var d, s, f, written := DownloadOne(ts[i], disk, fetch);
      downloaded, skipped, failed, disk := downloaded + d, skipped + s, failed + f, written;
      i := i + 1;
    }
    assert ts[..i] == ts;
  }

  /** One pass of the download loop over transcript `t`, with `disk` the files present. */
  method DownloadOne(t: TranscriptMaterial, disk: set<string>, fetch: string -> FetchOutcome)
    returns (downloaded: nat, skipped: nat, failed: nat, written: set<string>)
    ensures var url, name := t.pressConferencePdfUrl, TranscriptFilename(t);
      && downloaded + skipped + failed == (if Truthy(url) then 1 else 0)
      && skipped == (if Truthy(url) && name in disk then 1 else 0)
      && downloaded == (if Truthy(url) && name !in disk && fetch(url.value) == Saved then 1 else 0)
      && written == (if Truthy(url) && name !in disk && fetch(url.value) != FetchFailed then disk + {name} else disk)
  {
    downloaded, skipped, failed := 0, 0, 0;
    written := disk;
    if !Truthy(t.pressConferencePdfUrl) {
      return;
    }
    var filename := TranscriptFilename(t);
    if filename in disk {
      skipped := 1;
    } else {
      var outcome := fetch(t.pressConferencePdfUrl.value);
      if outcome == FetchFailed {
        failed := 1;
      } else {
        written := disk + {filename};
        if outcome == Saved {
          downloaded := 1;
        } else {
          failed := 1;
        }
      }
    }
  }
}
