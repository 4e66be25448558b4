/**
 * The case-insensitive release-date patterns of the FOMC scrapers,
 *   generic:   (Month)\s+(\d{1,2}),\s+(\d{4})
 *   released:  Released\s+(Month)\s+(\d{1,2}),\s+(\d{4})
 * with Python `re.search` semantics: the leftmost position where the pattern
 * matches wins.  No month name is a prefix of another and none contains a
 * space, so at a given position at most one alternative can be followed by
 * the `\s+` the pattern needs; the greedy `\s+` runs are then forced, and
 * `\d{1,2},` takes two digits exactly when a comma follows them.
 */
module DatePatterns {
  import opened Wrappers
  import opened PyStr
  import opened Calendar

  const MonthNames: seq<string> := [
    "january", "february", "march", "april", "may", "june",
    "july", "august", "september", "october", "november", "december"]

  const MonthTitles: seq<string> := [
    "January", "February", "March", "April", "May", "June",
    "July", "August", "September", "October", "November", "December"]

  predicate IsLowerLetter(c: char) {
    'a' <= c <= 'z'
  }

  lemma MonthNamesShape()
    ensures |MonthNames| == 12 && |MonthTitles| == 12
    ensures forall k :: 0 <= k < 12 ==> |MonthNames[k]| >= 3
    ensures forall k, i :: 0 <= k < 12 && 0 <= i < |MonthNames[k]| ==> IsLowerLetter(MonthNames[k][i])
  {
  }

  lemma MonthTitlesLower()
    ensures forall k :: 0 <= k < 12 ==> Lower(MonthTitles[k]) == MonthNames[k]
  {
  }

  /** `w` (lower case) occurs at `i` in `text`, ignoring ASCII case. */
  predicate WordAtCI(text: string, i: nat, w: string) {
    i + |w| <= |text| && Lower(text[i..i + |w|]) == w
  }

  /** The index just past the run of whitespace starting at `j`. */
  function SpaceRunEnd(text: string, j: nat): (e: nat)
    requires j <= |text|
    ensures j <= e <= |text|
    ensures e < |text| ==> !IsSpace(text[e])
    decreases |text| - j
  {
    if j < |text| && IsSpace(text[j]) then SpaceRunEnd(text, j + 1) else j
  }

  /** Everything the run skips is whitespace. */
  lemma {:induction false} SpaceRunSkipsSpace(text: string, j: nat)
    requires j <= |text|
    ensures forall k :: j <= k < SpaceRunEnd(text, j) ==> IsSpace(text[k])
    decreases |text| - j
  {
    if j < |text| && IsSpace(text[j]) {
      SpaceRunSkipsSpace(text, j + 1);
    }
  }

  /** The month alternative that matches at `i` and is followed by whitespace: its number and end. */
  function MonthAt(text: string, i: nat, k: nat): (r: Option<(int, nat)>)
    requires k <= 12
    ensures r.Some? ==> 1 <= r.value.0 <= 12 && i < r.value.1 < |text| && IsSpace(text[r.value.1])
    // naming `text` in the measure keeps the verifier from expanding all
    // twelve alternatives wherever `k` is a literal
    decreases 12 - k, |text|
  {
    if k == 12 then None
    else
      var w := MonthNames[k];
      if WordAtCI(text, i, w) && i + |w| < |text| && IsSpace(text[i + |w|]) then Some((k + 1, i + |w|))
      else MonthAt(text, i, k + 1)
  }

  /** `(\d{1,2}),` at `j`: the day and the index past the comma. */
  function DayAt(text: string, j: nat): (r: Option<(int, nat)>)
    ensures r.Some? ==> 0 <= r.value.0 <= 99 && j < r.value.1 <= |text|
  {
    if j + 2 < |text| && IsDigit(text[j]) && IsDigit(text[j + 1]) && text[j + 2] == ',' then
      Some((DigitValue(text[j]) * 10 + DigitValue(text[j + 1]), j + 3))
    else if j + 1 < |text| && IsDigit(text[j]) && text[j + 1] == ',' then
      Some((DigitValue(text[j]), j + 2))
    else None
  }

  /** `(\d{4})` at `j`. */
  function Year4At(text: string, j: nat): (r: Option<int>)
    ensures r.Some? ==> 0 <= r.value
  {
    if j + 4 <= |text| && IsDigits(text[j..j + 4]) then Some(DigitsValue(text[j..j + 4])) else None
  }

  /** The generic pattern anchored at `i`: the captured (year, month, day), not yet validated. */
  function MatchDateAt(text: string, i: nat): Option<Date> {
    match MonthAt(text, i, 0)
    case None => None
    case Some((m, e)) =>
      match DayAt(text, SpaceRunEnd(text, e))
      case None => None
      case Some((d, e2)) =>
        if e2 < |text| && IsSpace(text[e2]) then
          match Year4At(text, SpaceRunEnd(text, e2))
          case None => None
          case Some(y) => Some(Date(y, m, d))
        else None
  }

  /** The released pattern anchored at `i`. */
  function MatchReleasedAt(text: string, i: nat): Option<Date> {
    if WordAtCI(text, i, "released") && i + 8 < |text| && IsSpace(text[i + 8]) then
      MatchDateAt(text, SpaceRunEnd(text, i + 8))
    else None
  }

  datatype Pattern = Generic | Released

  function MatchAt(p: Pattern, text: string, i: nat): Option<Date> {
    match p
    case Generic => MatchDateAt(text, i)
    case Released => MatchReleasedAt(text, i)
  }

  /** `pattern.search(text)` from index `i` on: the groups of the leftmost match. */
  function SearchFrom(p: Pattern, text: string, i: nat): (r: Option<Date>)
    requires i <= |text|
    ensures r.None? <==> forall j :: i <= j <= |text| ==> MatchAt(p, text, j).None?
    ensures r.Some? ==> exists j :: i <= j <= |text| && MatchAt(p, text, j) == r
                          && forall k :: i <= k < j ==> MatchAt(p, text, k).None?
    decreases |text| - i
  {
    if MatchAt(p, text, i).Some? then MatchAt(p, text, i)
    else if i == |text| then None
    else SearchFrom(p, text, i + 1)
  }

  function Search(p: Pattern, text: string): Option<Date> {
    SearchFrom(p, text, 0)
  }

  /** `datetime(year, month, day)` on the groups of `pattern.search(text)`, or `None`. */
  function SearchValid(p: Pattern, text: string): (r: Option<Date>)
    ensures r.Some? ==> ValidDate(r.value)
  {
    var m := Search(p, text);
    if m.Some? && ValidDate(m.value) then m else None
  }

  /** The text a press release prints for a date: "January 29, 2025". */
  function DateText(d: Date): string
    requires ValidDate(d)
  {
    MonthTitles[d.month - 1] + " " + NatStr(d.day) + ", " + NatStr(d.year)
  }

  lemma {:induction false} SpaceRunEndAtNonSpace(text: string, j: nat)
    requires j < |text| && !IsSpace(text[j])
    ensures SpaceRunEnd(text, j) == j
  {
  }

  predicate IsLetter(c: char) {
    'a' <= c <= 'z' || 'A' <= c <= 'Z'
  }

  lemma MonthTitlesLetters()
    ensures forall k, i :: 0 <= k < 12 && 0 <= i < |MonthTitles[k]| ==> IsLetter(MonthTitles[k][i])
    ensures forall a, b :: 0 <= a < b < 12 ==> MonthNames[a] != MonthNames[b]
  {
  }

  /** Where a month title and a space stand, no other month alternative is followed by whitespace. */
  lemma NotOtherMonth(text: string, i: nat, k: nat, m: int)
    requires 1 <= m <= 12 && 0 <= k < 12 && k != m - 1
    requires i + |MonthTitles[m - 1]| < |text|
    requires text[i..i + |MonthTitles[m - 1]|] == MonthTitles[m - 1]
    requires IsSpace(text[i + |MonthTitles[m - 1]|])
    ensures !(WordAtCI(text, i, MonthNames[k]) && i + |MonthNames[k]| < |text| && IsSpace(text[i + |MonthNames[k]|]))
  {
    MonthNamesShape();
    MonthTitlesLower();
    MonthTitlesLetters();
    if k < m - 1 {
      assert MonthNames[k] != MonthNames[m - 1];
    } else {
      assert MonthNames[m - 1] != MonthNames[k];
    }
    NotOtherWord(text, i, MonthTitles[m - 1], MonthNames[k]);
  }

  /**
   * Where a word of letters `t` and a space stand, a different lower-case
   * word is not matched there followed by whitespace.
   */
  lemma NotOtherWord(text: string, i: nat, t: string, w: string)
    requires (forall j :: 0 <= j < |t| ==> IsLetter(t[j])) && (forall j :: 0 <= j < |w| ==> IsLowerLetter(w[j]))
    requires Lower(t) != w
    requires i + |t| < |text| && text[i..i + |t|] == t && IsSpace(text[i + |t|])
    ensures !(WordAtCI(text, i, w) && i + |w| < |text| && IsSpace(text[i + |w|]))
  {
    if |w| < |t| {
      assert text[i + |w|] == t[|w|];
      assert IsLetter(t[|w|]);
    } else if |w| > |t| {
      if i + |w| <= |text| {
        assert Lower(text[i..i + |w|])[|t|] == LowerChar(text[i + |t|]) == text[i + |t|];
        assert IsLowerLetter(w[|t|]);
      }
    } else if i + |w| <= |text| {
      assert text[i..i + |w|] == t;
    }
  }

  lemma MonthTitleHere(text: string, i: nat, m: int)
    requires 1 <= m <= 12
    requires i + |MonthTitles[m - 1]| < |text|
    requires text[i..i + |MonthTitles[m - 1]|] == MonthTitles[m - 1]
    ensures |MonthNames[m - 1]| == |MonthTitles[m - 1]| && WordAtCI(text, i, MonthNames[m - 1])
  {
    MonthNamesShape();
    MonthTitlesLower();
  }

  lemma {:induction false} MonthAtTitle(text: string, i: nat, k: nat, m: int)
    requires 1 <= m <= 12 && k <= m - 1
    requires i + |MonthTitles[m - 1]| < |text|
    requires text[i..i + |MonthTitles[m - 1]|] == MonthTitles[m - 1]
    requires IsSpace(text[i + |MonthTitles[m - 1]|])
    ensures MonthAt(text, i, k) == Some((m, i + |MonthTitles[m - 1]|))
    decreases 12 - k
  {
    if k == m - 1 {
      MonthTitleHere(text, i, m);
    } else {
      NotOtherMonth(text, i, k, m);
      MonthAtTitle(text, i, k + 1, m);
    }
  }

  lemma DayAtDigits(text: string, j: nat, ds: string)
    requires 1 <= |ds| <= 2 && IsDigits(ds)
    requires j + |ds| < |text| && text[j..j + |ds|] == ds && text[j + |ds|] == ','
    ensures DayAt(text, j) == Some((DigitsValue(ds), j + |ds| + 1))
  {
    assert text[j] == ds[0];
    assert ds[..1][..0] == [];
    assert DigitsValue(ds[..1]) == DigitValue(ds[0]);
    if |ds| == 2 {
      assert text[j + 1] == ds[1];
      assert text[j + 2] == ',';
    }
  }

  lemma Year4AtDigits(text: string, j: nat, ys: string)
    requires |ys| == 4 && IsDigits(ys)
    requires j + 4 <= |text| && text[j..j + 4] == ys
    ensures Year4At(text, j) == Some(DigitsValue(ys))
  {
  }

  /** Month title, day digits `ds` and year digits `ys` of `d` standing at `i` match as `d`. */
  lemma MatchDateAtSteps(text: string, i: nat, t: string, ds: string, ys: string, d: Date)
    requires 1 <= d.month <= 12 && t == MonthTitles[d.month - 1]
    requires 1 <= |ds| <= 2 && IsDigits(ds) && DigitsValue(ds) == d.day
    requires |ys| == 4 && IsDigits(ys) && DigitsValue(ys) == d.year
    requires var w := t + " " + ds + ", " + ys; i + |w| <= |text| && text[i..i + |w|] == w
    ensures MatchDateAt(text, i) == Some(d)
  {
    LaidOutSteps(text, i, t, ds, ys);
    MatchDateAtParts(text, i, t, d, i + |t| + |ds| + 2);
  }

  lemma MatchDateAtParts(text: string, i: nat, t: string, d: Date, e2: nat)
    requires 1 <= d.month <= 12 && t == MonthTitles[d.month - 1]
    requires i + |t| < |text| && text[i..i + |t|] == t && IsSpace(text[i + |t|])
    requires DayAt(text, SpaceRunEnd(text, i + |t|)) == Some((d.day, e2))
    requires e2 < |text| && IsSpace(text[e2])
    requires Year4At(text, SpaceRunEnd(text, e2)) == Some(d.year)
    ensures MatchDateAt(text, i) == Some(d)
  {
    MonthAtTitle(text, i, 0, d.month);
  }

  lemma DayStep(text: string, e: nat, ds: string)
    requires 1 <= |ds| <= 2 && IsDigits(ds)
    requires e + |ds| + 1 < |text|
    requires text[e] == ' '
    requires text[e + 1..e + 1 + |ds|] == ds
    requires text[e + 1 + |ds|] == ','
    ensures DayAt(text, SpaceRunEnd(text, e)) == Some((DigitsValue(ds), e + |ds| + 2))
  {
    assert text[e + 1] == ds[0];
    SpaceRunEndAtNonSpace(text, e + 1);
    DayAtDigits(text, e + 1, ds);
  }

  lemma YearStep(text: string, e2: nat, ys: string)
    requires |ys| == 4 && IsDigits(ys)
    requires e2 + 5 <= |text|
    requires text[e2] == ' '
    requires text[e2 + 1..e2 + 5] == ys
    ensures Year4At(text, SpaceRunEnd(text, e2)) == Some(DigitsValue(ys))
  {
    assert text[e2 + 1] == ys[0];
    SpaceRunEndAtNonSpace(text, e2 + 1);
    Year4AtDigits(text, e2 + 1, ys);
  }

  /** Month title `t`, a space, day digits `ds`, ", " and year digits `ys` stand at index `i` of `text`. */
  predicate LaidOut(text: string, i: nat, t: string, ds: string, ys: string) {
    |ys| == 4
    && i + |t| + |ds| + 7 <= |text|
    && text[i..i + |t|] == t
    && text[i + |t|] == ' '
    && text[i + |t| + 1..i + |t| + 1 + |ds|] == ds
    && text[i + |t| + 1 + |ds|] == ','
    && text[i + |t| + 2 + |ds|] == ' '
    && text[i + |t| + 3 + |ds|..i + |t| + 7 + |ds|] == ys
  }

  lemma LaidOutDay(text: string, i: nat, t: string, ds: string, ys: string)
    requires 1 <= |ds| <= 2 && IsDigits(ds) && LaidOut(text, i, t, ds, ys)
    ensures var e := i + |t|;
      DayAt(text, SpaceRunEnd(text, e)) == Some((DigitsValue(ds), e + |ds| + 2))
  {
    DayStep(text, i + |t|, ds);
  }

  lemma LaidOutYear(text: string, i: nat, t: string, ds: string, ys: string)
    requires IsDigits(ys) && LaidOut(text, i, t, ds, ys)
    ensures var e2 := i + |t| + |ds| + 2;
      e2 < |text| && IsSpace(text[e2]) && Year4At(text, SpaceRunEnd(text, e2)) == Some(DigitsValue(ys))
  {
    var e2 := i + |t| + |ds| + 2;
    assert text[e2 + 1..e2 + 5] == ys;
    YearStep(text, e2, ys);
  }

  /** The text `t + " " + ds + ", " + ys` standing at `i` gives each step of the pattern its match. */
  lemma LaidOutSteps(text: string, i: nat, t: string, ds: string, ys: string)
    requires 1 <= |ds| <= 2 && IsDigits(ds) && |ys| == 4 && IsDigits(ys)
    requires var w := t + " " + ds + ", " + ys; i + |w| <= |text| && text[i..i + |w|] == w
    ensures i + |t| < |text| && text[i..i + |t|] == t && IsSpace(text[i + |t|])
    ensures DayAt(text, SpaceRunEnd(text, i + |t|)) == Some((DigitsValue(ds), i + |t| + |ds| + 2))
    ensures i + |t| + |ds| + 2 < |text| && IsSpace(text[i + |t| + |ds| + 2])
    ensures Year4At(text, SpaceRunEnd(text, i + |t| + |ds| + 2)) == Some(DigitsValue(ys))
  {
    LaidOutText(text, i, t, ds, ys);
    LaidOutDay(text, i, t, ds, ys);
    LaidOutYear(text, i, t, ds, ys);
  }

  lemma TailParts(t: string, ds: string, ys: string)
    ensures var w := t + " " + ds + ", " + ys;
      |w| == |t| + |ds| + |ys| + 3
      && w[..|t|] == t && w[|t|] == ' ' && w[|t| + 1..|t| + 1 + |ds|] == ds
      && w[|t| + 1 + |ds|] == ',' && w[|t| + 2 + |ds|] == ' ' && w[|t| + 3 + |ds|..] == ys
  {
  }

  lemma SliceOfSlice(text: string, i: nat, len: nat, a: nat, b: nat)
    requires i + len <= |text| && a <= b <= len
    ensures text[i + a..i + b] == text[i..i + len][a..b]
  {
    var u := text[i + a..i + b];
    var v := text[i..i + len][a..b];
    assert |u| == |v|;
    forall k | 0 <= k < |u| ensures u[k] == v[k] {
      assert u[k] == text[i + a + k];
      assert v[k] == text[i..i + len][a + k];
    }
  }

  lemma DateTextAt(text: string, i: nat, d: Date)
    requires ValidDate(d) && d.year >= 1000
    requires i + |DateText(d)| <= |text| && text[i..i + |DateText(d)|] == DateText(d)
    ensures MatchDateAt(text, i) == Some(d)
  {
    var t, ds, ys := MonthTitles[d.month - 1], NatStr(d.day), NatStr(d.year);
    MatchDateAtSteps(text, i, t, ds, ys, d);
  }

  /** The text `t + " " + ds + ", " + ys` standing at `i` is laid out there. */
  lemma LaidOutText(text: string, i: nat, t: string, ds: string, ys: string)
    requires |ys| == 4
    requires var w := t + " " + ds + ", " + ys; i + |w| <= |text| && text[i..i + |w|] == w
    ensures LaidOut(text, i, t, ds, ys)
  {
    var n := |ds|;
    var w := t + " " + ds + ", " + ys;
    TailParts(t, ds, ys);
    var L := |w|;
    SliceOfSlice(text, i, L, 0, |t|);
    SliceOfSlice(text, i, L, |t| + 1, |t| + 1 + n);
    SliceOfSlice(text, i, L, |t| + 3 + n, L);
    assert text[i + |t|] == w[|t|];
    assert text[i + |t| + 1 + n] == w[|t| + 1 + n];
    assert text[i + |t| + 2 + n] == w[|t| + 2 + n];
  }

  /** The generic pattern reads back the date a press release prints, whatever precedes or follows it. */
  lemma DateTextMatches(pre: string, d: Date, rest: string)
    requires ValidDate(d) && d.year >= 1000
    ensures MatchDateAt(pre + DateText(d) + rest, |pre|) == Some(d)
  {
    var text := pre + DateText(d) + rest;
    assert text[|pre|..|pre| + |DateText(d)|] == DateText(d);
    DateTextAt(text, |pre|, d);
  }

  lemma ReleasedPrefix(text: string)
    requires |text| > 9 && text[..9] == "Released " && !IsSpace(text[9])
    ensures MatchReleasedAt(text, 0) == MatchDateAt(text, 9)
  {
    assert text[..8] == "Released";
    assert WordAtCI(text, 0, "released");
    assert text[8] == ' ';
    SpaceRunEndAtNonSpace(text, 9);
  }

  /** The released pattern reads back "Released <date>", whatever follows it. */
  lemma ReleasedTextMatches(d: Date, rest: string)
    requires ValidDate(d) && d.year >= 1000
    ensures Search(Released, "Released " + DateText(d) + rest) == Some(d)
  {
    DateTextMatches("Released ", d, rest);
    DateTextStartsWithLetter(d);
    ReleasedThen(DateText(d), rest, d);
  }

  lemma DateTextStartsWithLetter(d: Date)
    requires ValidDate(d)
    ensures |DateText(d)| > 0 && IsLetter(DateText(d)[0])
  {
    MonthTitlesLetters();
    assert DateText(d)[0] == MonthTitles[d.month - 1][0];
  }

  lemma ReleasedThen(w: string, rest: string, d: Date)
    requires |w| > 0 && IsLetter(w[0])
    requires MatchDateAt("Released " + w + rest, 9) == Some(d)
    ensures Search(Released, "Released " + w + rest) == Some(d)
  {
    var text := "Released " + w + rest;
    assert text[9] == w[0];
    assert text[..9] == "Released ";
    ReleasedPrefix(text);
    SearchAtStart(Released, text);
  }

  lemma SearchAtStart(p: Pattern, text: string)
    requires MatchAt(p, text, 0).Some?
    ensures Search(p, text) == MatchAt(p, text, 0)
  {
  }

  /** The generic pattern reads back a date printed at the very start of the text. */
  lemma GenericTextMatches(d: Date, rest: string)
    requires ValidDate(d) && d.year >= 1000
    ensures SearchValid(Generic, DateText(d) + rest) == Some(d)
  {
    var text := DateText(d) + rest;
    assert text[0..|DateText(d)|] == DateText(d);
    DateTextAt(text, 0, d);
    SearchValidAtStart(Generic, text, d);
  }

  lemma SearchValidAtStart(p: Pattern, text: string, d: Date)
    requires MatchAt(p, text, 0) == Some(d) && ValidDate(d)
    ensures SearchValid(p, text) == Some(d)
  {
  }
}
