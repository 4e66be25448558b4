/**
 * Keyword buckets for calendar events (te_calendar_scraper/filters/event_filters.py).
 * A title belongs to a bucket when one of the bucket's keywords occurs in the
 * lower-cased title.
 */
module EventFilters {
  import opened Wrappers
  import opened PyStr
  import opened SeqUtil

  datatype EventBucket = EventBucket(name: string, keywords: seq<string>)

  const DefaultBuckets: seq<EventBucket> := [
    EventBucket("CPI", ["inflation", "cpi", "consumer price"]),
    EventBucket("EIA", ["eia", "crude", "inventory", "gas", "petroleum"]),
    EventBucket("ISM", ["ism", "manufacturing", "services"]),
    EventBucket("FOMC", ["fomc", "fed", "federal reserve"]),
    EventBucket("Bonds", ["auction", "treasury", "bond", "note", "bill"])
  ]

  /** `(title or "").lower()` */
  function TitleLower(title: Option<string>): string {
    Lower(title.UnwrapOr(""))
  }

  /** `any(keyword in title_lower for keyword in bucket.keywords)` */
  predicate Matches(titleLower: string, b: EventBucket) {
    exists k | 0 <= k < |b.keywords| :: Contains(titleLower, b.keywords[k])
  }

  function Names(buckets: seq<EventBucket>): (r: seq<string>)
    ensures |r| == |buckets|
    ensures forall i {:trigger r[i]} :: 0 <= i < |buckets| ==> r[i] == buckets[i].name
  {
    if |buckets| == 0 then [] else Names(buckets[..|buckets| - 1]) + [buckets[|buckets| - 1].name]
  }

  /** `assign_buckets(title, buckets)` */
  function AssignBuckets(title: Option<string>, buckets: seq<EventBucket>): (r: seq<string>)
    ensures forall n :: n in r <==>
      exists i :: 0 <= i < |buckets| && buckets[i].name == n && Matches(TitleLower(title), buckets[i])
  {
    if |buckets| == 0 then []
    else
      var init := buckets[..|buckets| - 1];
      var last := buckets[|buckets| - 1];
      var r0 := AssignBuckets(title, init);
      assert forall i :: 0 <= i < |init| ==> init[i] == buckets[i];
      r0 + (if Matches(TitleLower(title), last) then [last.name] else [])
  }

  /** The names come back in bucket order. */
  lemma {:induction false} AssignBucketsInOrder(title: Option<string>, buckets: seq<EventBucket>)
    ensures IsSubsequence(AssignBuckets(title, buckets), Names(buckets))
  {
    if |buckets| > 0 {
      var init := buckets[..|buckets| - 1];
      var last := buckets[|buckets| - 1];
      AssignBucketsInOrder(title, init);
      assert Names(buckets) == Names(init) + [last.name];
      var r0 := AssignBuckets(title, init);
      if Matches(TitleLower(title), last) {
        assert AssignBuckets(title, buckets) == r0 + [last.name];
        SubsequenceExtend(AssignBuckets(title, init), Names(init), last.name);
      } else {
        assert AssignBuckets(title, buckets) == r0 + [] == r0;
        SubsequenceOfLonger(AssignBuckets(title, init), Names(init), last.name);
      }
    }
  }

  /** With distinct bucket names no name is returned twice. */
  lemma {:induction false} AssignBucketsDistinct(title: Option<string>, buckets: seq<EventBucket>)
    requires NoDuplicates(Names(buckets))
    ensures NoDuplicates(AssignBuckets(title, buckets))
  {
    if |buckets| > 0 {
      var init := buckets[..|buckets| - 1];
      var last := buckets[|buckets| - 1];
      var names := Names(buckets);
      assert Names(init) == names[..|names| - 1];
      AssignBucketsDistinct(title, init);
      var r0 := AssignBuckets(title, init);
      if Matches(TitleLower(title), last) {
        var r := AssignBuckets(title, buckets);
        assert r == r0 + [last.name];
        forall i | 0 <= i < |r0| ensures r0[i] != last.name {
          assert r0[i] in r0;
          var k :| 0 <= k < |init| && init[k].name == r0[i] && Matches(TitleLower(title), init[k]);
          assert names[k] == init[k].name && names[|names| - 1] == last.name;
        }
      }
    }
  }

  /** A title that is `None` or empty falls in no bucket whose keywords are all non-empty. */
  lemma {:induction false} EmptyTitleNoBuckets(title: Option<string>, buckets: seq<EventBucket>)
    requires title == None || title == Some("")
    requires forall i, k :: 0 <= i < |buckets| && 0 <= k < |buckets[i].keywords| ==> buckets[i].keywords[k] != ""
    ensures AssignBuckets(title, buckets) == []
  {
    assert TitleLower(title) == "";
    if |buckets| > 0 {
      var init := buckets[..|buckets| - 1];
      var last := buckets[|buckets| - 1];
      EmptyTitleNoBuckets(title, init);
      assert !Matches("", last);
    }
  }

  /** The default buckets have no empty keyword, so an empty title falls in none of them. */
  lemma EmptyTitleNoDefaultBuckets(title: Option<string>)
    requires title == None || title == Some("")
    ensures AssignBuckets(title, DefaultBuckets) == []
  {
    EmptyTitleNoBuckets(title, DefaultBuckets);
  }

  /** The default bucket names are distinct. */
  lemma DefaultBucketsDistinct(title: Option<string>)
    ensures NoDuplicates(AssignBuckets(title, DefaultBuckets))
    ensures forall n :: n in AssignBuckets(title, DefaultBuckets) ==> n in ["CPI", "EIA", "ISM", "FOMC", "Bonds"]
  {
    assert Names(DefaultBuckets) == ["CPI", "EIA", "ISM", "FOMC", "Bonds"];
    AssignBucketsDistinct(title, DefaultBuckets);
  }
}
