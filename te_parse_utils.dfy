/**
 * Text helpers of the calendar scraper (te_calendar_scraper/scraper/parse_utils.py):
 * whitespace cleaning, the early exits of the time parser, and the order in
 * which an impact level is read off an element.
 *
 * The date-time parser (dateutil) is the parameter `parse`; it returns `None`
 * where the library raises.  An element is what the locator found first.
 */
module TeParseUtils {
  import opened Wrappers
  import opened PyStr

  /** `clean_text(value)`: whitespace runs collapsed to one space, ends trimmed, `None` when nothing is left. */
  function CleanText(value: Option<string>): (r: Option<string>)
    ensures r.None? <==> value.None? || AllSpace(value.value)
    ensures r.Some? ==> r.value != "" && SingleSpaced(r.value)
    ensures r.Some? ==> SplitWs(r.value) == SplitWs(value.value)
  {
    if value.None? then None
    else
      var words := SplitWs(value.value);
      var joined := Join(" ", words);
      JoinWordsShape(words);
      StripNoop(joined);
      SplitWsEmptyIffAllSpace(value.value);
      SplitWsJoin(words);
      var cleaned := Strip(joined);
      if cleaned == "" then None else Some(cleaned)
  }

  /** Cleaning a cleaned text changes nothing. */
  lemma CleanTextIdempotent(value: Option<string>)
    ensures CleanText(CleanText(value)) == CleanText(value)
  {
    var r := CleanText(value);
    if r.Some? {
      var words := SplitWs(value.value);
      var joined := Join(" ", words);
      JoinWordsShape(words);
      StripNoop(joined);
      assert r.value == joined;
      SplitWsJoin(words);
      assert SplitWs(r.value) == words;
    }
  }

  /** A single word is already clean. */
  lemma CleanTextOfWord(w: string)
    requires IsWord(w)
    ensures CleanText(Some(w)) == Some(w)
  {
    SplitWsJoin([w]);
    assert Join(" ", [w]) == w;
    StripNoop(w);
  }

  /** The texts `parse_time_to_utc` refuses, compared whole after lower-casing. */
  const Sentinels: set<string> := {"--", "n/a", "na", "all day", "all-day", "tentative"}

  /**
   * `parse_time_to_utc(raw_text, context_datetime)`: `None` for blank text, a
   * sentinel or a missing context; otherwise what the parser makes of the
   * cleaned text with the context as default.
   */
  function ParseTimeToUtc(rawText: Option<string>, context: Option<int>,
                          parse: (string, int) -> Option<int>): (r: Option<int>)
    ensures rawText.None? || AllSpace(rawText.value) ==> r.None?
    ensures CleanText(rawText).Some? && Lower(CleanText(rawText).value) in Sentinels ==> r.None?
    ensures context.None? ==> r.None?
    ensures r.Some? ==> r == parse(CleanText(rawText).value, context.value)
  {
    var text := CleanText(rawText);
    if text.None? then None
    else if Lower(text.value) in Sentinels then None
    else if context.None? then None
    else parse(text.value, context.value)
  }

  /** What `extract_impact` reads from the first element the selector finds. */
  datatype Element = Element(attrs: map<string, string>, classAttr: Option<string>, text: Option<string>)

  const ImpactAttrs: seq<string> := ["data-importance", "data-importance-level", "data-impact"]

  /** Rule 1: the first of the three data attributes that is a non-empty digit string. */
  function AttrImpact(attrs: map<string, string>, names: seq<string>): (r: Option<nat>)
    ensures r.Some? <==> exists i :: 0 <= i < |names| && names[i] in attrs && IsDigits(attrs[names[i]])
  {
    if |names| == 0 then None
    else if names[0] in attrs && IsDigits(attrs[names[0]]) then Some(DigitsValue(attrs[names[0]]))
    else
      var r := AttrImpact(attrs, names[1..]);
      assert forall i :: 1 <= i < |names| ==> names[i] == names[1..][i - 1];
      r
  }

  /** Rule 2 for one class token: `importance-N`, or `calendar-date-...-N`. */
  function TokenImpact(token: string): Option<nat> {
    if StartsWith(token, "importance-") && IsDigits(AfterFirst(token, '-')) then
      Some(DigitsValue(AfterFirst(token, '-')))
    else if StartsWith(token, "calendar-date-") && IsDigits(LastPart(token, '-')) then
      Some(DigitsValue(LastPart(token, '-')))
    else None
  }

  /** Rule 2: the first class token that yields a level. */
  function ClassImpact(tokens: seq<string>): (r: Option<nat>)
    ensures r.None? <==> forall i :: 0 <= i < |tokens| ==> TokenImpact(tokens[i]).None?
    ensures r.Some? ==> exists i :: 0 <= i < |tokens| && r == TokenImpact(tokens[i]) &&
                                    forall j :: 0 <= j < i ==> TokenImpact(tokens[j]).None?
  {
    if |tokens| == 0 then None
    else if TokenImpact(tokens[0]).Some? then TokenImpact(tokens[0])
    else
      var r := ClassImpact(tokens[1..]);
      FirstImpactSkipped(tokens, TokenImpact, r);
      r
  }

  /** A first token without an impact leaves the first one that has one where it was. */
  lemma FirstImpactSkipped(tokens: seq<string>, impact: string -> Option<nat>, r: Option<nat>)
    requires |tokens| > 0 && impact(tokens[0]).None?
    requires var rest := tokens[1..];
      (r.None? <==> forall i :: 0 <= i < |rest| ==> impact(rest[i]).None?)
      && (r.Some? ==> exists i :: 0 <= i < |rest| && r == impact(rest[i]) &&
                                  forall j :: 0 <= j < i ==> impact(rest[j]).None?)
    ensures r.None? <==> forall i :: 0 <= i < |tokens| ==> impact(tokens[i]).None?
    ensures r.Some? ==> exists i :: 0 <= i < |tokens| && r == impact(tokens[i]) &&
                                    forall j :: 0 <= j < i ==> impact(tokens[j]).None?
  {
    var rest := tokens[1..];
    if r.Some? {
      var i :| 0 <= i < |rest| && r == impact(rest[i]) && forall j :: 0 <= j < i ==> impact(rest[j]).None?;
      assert tokens[i + 1] == rest[i];
      forall j | 0 <= j < i + 1 ensures impact(tokens[j]).None? {
        if j > 0 {
          assert tokens[j] == rest[j - 1];
        }
      }
    } else {
      forall j | 0 <= j < |tokens| ensures impact(tokens[j]).None? {
        if j > 0 {
          assert tokens[j] == rest[j - 1];
        }
      }
    }
  }

  /** Rule 3: the stripped element text, when it is all digits. */
  function TextImpact(text: Option<string>): Option<nat> {
    if text.Some? && IsDigits(Strip(text.value)) then Some(DigitsValue(Strip(text.value))) else None
  }

  /** `extract_impact(parent, selector)`, given what the selector found first. */
  function ExtractImpact(selector: Option<string>, first: Option<Element>): Option<nat> {
    if selector.None? || selector.value == "" || first.None? then None
    else
      var e := first.value;
      var a := AttrImpact(e.attrs, ImpactAttrs);
      if a.Some? then a
      else
        var c := ClassImpact(SplitWs(e.classAttr.UnwrapOr("")));
        if c.Some? then c else TextImpact(e.text)
  }

  /**
   * The rules decide in order: a digit data attribute wins whatever the class
   * and text say; failing that, a class token wins whatever the text says;
   * and with no selector or no element there is no level.
   */
  lemma ExtractImpactOrder(selector: Option<string>, e: Element, f: Element)
    ensures selector.None? || selector == Some("") ==> ExtractImpact(selector, Some(e)) == None
    ensures ExtractImpact(selector, None) == None
    ensures (selector.Some? && selector.value != "" && e.attrs == f.attrs &&
             AttrImpact(e.attrs, ImpactAttrs).Some?) ==>
        ExtractImpact(selector, Some(e)) == ExtractImpact(selector, Some(f)) == AttrImpact(e.attrs, ImpactAttrs)
    ensures (selector.Some? && selector.value != "" && e.attrs == f.attrs && e.classAttr == f.classAttr &&
             ClassImpact(SplitWs(e.classAttr.UnwrapOr(""))).Some?) ==>
        ExtractImpact(selector, Some(e)) == ExtractImpact(selector, Some(f))
  {
  }

  /** `importance-N` with a run of digits N reads N: the level is everything after the first hyphen. */
  lemma ImportanceSuffix(n: string)
    requires IsDigits(n)
    ensures TokenImpact("importance-" + n) == Some(DigitsValue(n))
  {
    var t := "importance-" + n;
    assert t[..11] == "importance-";
    assert AfterFirst(t, '-') == n by {
      assert t[10] == '-';
      forall i | 0 <= i < 10 ensures t[i] != '-' {
        assert t[i] == "importance"[i];
      }
      var r := AfterFirst(t, '-');
      assert |r| == |n|;
    }
  }
}
