/**
 * The value types shared by the source tools, the validators and the
 * validation agent (validation_agent/base.py): the two enums, `SourceMatch`,
 * `ValidationResult`, and the flat JSON records the tools store.
 *
 * Confidences are integer hundredths (0.95 is 95).  A record is a JSON object
 * whose values are held as their string form.
 */
module ValidationTypes {
  import opened Wrappers
  import opened PyStr

  /** A JSON object as the tools store it; values are their string form. */
  type Record = map<string, string>

  /** `record.get(key, "")` */
  function Field(r: Record, key: string): (v: string)
    ensures key !in r ==> v == ""
  {
    if key in r then r[key] else ""
  }

  /** Python's `a or b` on two strings. */
  function Or(a: string, b: string): (r: string)
    ensures r == a || r == b
    ensures r == "" <==> a == "" && b == ""
  {
    if a != "" then a else b
  }

  datatype ValidationStatus = Valid | Partial | Invalid | NotFound | Error

  /** `ValidationStatus.value` */
  function StatusValue(s: ValidationStatus): string {
    match s
    case Valid => "valid"
    case Partial => "partial"
    case Invalid => "invalid"
    case NotFound => "not_found"
    case Error => "error"
  }

  datatype AudienceFitness = Excellent | Good | Fair | Poor

  /** `AudienceFitness.value` */
  function FitnessValue(f: AudienceFitness): string {
    match f
    case Excellent => "excellent"
    case Good => "good"
    case Fair => "fair"
    case Poor => "poor"
  }

  /** One claim checked against one source. */
  datatype SourceMatch = SourceMatch(
    claim: string,
    sourceType: string,
    sourceReference: string,
    sourceData: Option<Record>,
    status: ValidationStatus,
    confidence: int,
    explanation: string,
    suggestedCorrection: Option<string>)

  /** A `SourceMatch` with the dataclass defaults for data and correction. */
  function NoData(claim: string, sourceType: string, reference: string, status: ValidationStatus,
                  confidence: int, explanation: string): (m: SourceMatch)
    ensures m.claim == claim && m.sourceType == sourceType && m.sourceReference == reference
    ensures m.status == status && m.confidence == confidence
    ensures m.sourceData.None? && m.suggestedCorrection.None?
  {
    SourceMatch(claim, sourceType, reference, None, status, confidence, explanation, None)
  }

  /** A `SourceMatch` that carries the record it matched. */
  function WithData(claim: string, sourceType: string, reference: string, data: Record,
                    status: ValidationStatus, confidence: int, explanation: string): (m: SourceMatch)
    ensures m.claim == claim && m.sourceType == sourceType && m.sourceReference == reference
    ensures m.status == status && m.confidence == confidence
    ensures m.sourceData == Some(data) && m.suggestedCorrection.None?
  {
    SourceMatch(claim, sourceType, reference, Some(data), status, confidence, explanation, None)
  }

  /** The outcome of one validator run; `validated_at` is not modelled. */
  datatype ValidationResult = ValidationResult(
    scriptId: string,
    totalClaims: int,
    validClaims: int,
    invalidClaims: int,
    notFoundClaims: int,
    sourceMatches: seq<SourceMatch>,
    audienceFitness: AudienceFitness,
    audienceFeedback: string,
    citationsComplete: bool,
    missingCitations: seq<string>,
    overallValid: bool,
    summary: string,
    errors: seq<string>)

  /** `ValidationResult(script_id=...)` with every other field at its default. */
  function NewResult(scriptId: string): (r: ValidationResult)
    ensures r.scriptId == scriptId
    ensures r.totalClaims == r.validClaims == r.invalidClaims == r.notFoundClaims == 0
    ensures r.sourceMatches == [] && r.missingCitations == [] && r.errors == []
    ensures r.audienceFitness == Good && r.citationsComplete && r.overallValid
  {
    ValidationResult(scriptId, 0, 0, 0, 0, [], Good, "", true, [], true, "", [])
  }

  /** Python's `a < b` on strings: code-point lexicographic order. */
  predicate LexLess(a: string, b: string) {
    if |a| == 0 then |b| > 0
    else if |b| == 0 then false
    else if a[0] != b[0] then a[0] < b[0]
    else LexLess(a[1..], b[1..])
  }

  lemma {:induction false} LexLessIrreflexive(a: string)
    ensures !LexLess(a, a)
  {
    if |a| > 0 {
      LexLessIrreflexive(a[1..]);
    }
  }

  lemma {:induction false} LexLessTransitive(a: string, b: string, c: string)
    requires LexLess(a, b) && LexLess(b, c)
    ensures LexLess(a, c)
  {
    if |a| > 0 && |b| > 0 && |c| > 0 && a[0] == b[0] && b[0] == c[0] {
      LexLessTransitive(a[1..], b[1..], c[1..]);
    }
  }

  lemma {:induction false} LexLessTotal(a: string, b: string)
    requires a != b
    ensures LexLess(a, b) || LexLess(b, a)
  {
    if |a| > 0 && |b| > 0 && a[0] == b[0] {
      assert a == [a[0]] + a[1..] && b == [b[0]] + b[1..];
      LexLessTotal(a[1..], b[1..]);
    }
  }

  /** A strict total order on the values of T. */
  ghost predicate StrictOrder<T(!new)>(less: (T, T) -> bool) {
    (forall a :: !less(a, a))
    && (forall a, b, c :: less(a, b) && less(b, c) ==> less(a, c))
    && (forall a, b :: a != b ==> less(a, b) || less(b, a))
  }

  /** Python's string `<` is a strict total order. */
  lemma LexLessOrder()
    ensures StrictOrder(LexLess)
  {
    forall a ensures !LexLess(a, a) {
      LexLessIrreflexive(a);
    }
    forall a, b, c | LexLess(a, b) && LexLess(b, c) ensures LexLess(a, c) {
      LexLessTransitive(a, b, c);
    }
    forall a, b | a != b ensures LexLess(a, b) || LexLess(b, a) {
      LexLessTotal(a, b);
    }
  }

  /** The order `base.py` compares fitness values in: excellent < fair < good < poor. */
  predicate FitnessBefore(a: AudienceFitness, b: AudienceFitness) {
    LexLess(FitnessValue(a), FitnessValue(b))
  }

  /** On the four values the string order is the total order excellent, fair, good, poor. */
  lemma FitnessOrder(a: AudienceFitness, b: AudienceFitness)
    ensures FitnessBefore(a, b) <==> FitnessRank(a) < FitnessRank(b)
  {
  }

  /** The position of each value in the string order. */
  function FitnessRank(f: AudienceFitness): int {
    match f
    case Excellent => 0
    case Fair => 1
    case Good => 2
    case Poor => 3
  }

  // ---------------------------------------------------------------------------
  // Tallies of matches
  // ---------------------------------------------------------------------------

  /** How many matches have the status. */
  function CountStatus(ms: seq<SourceMatch>, st: ValidationStatus): (n: nat)
    ensures n <= |ms|
  {
    if |ms| == 0 then 0
    else CountStatus(ms[..|ms| - 1], st) + (if ms[|ms| - 1].status == st then 1 else 0)
  }

  lemma {:induction false} CountsWithinTotal(ms: seq<SourceMatch>)
    ensures CountStatus(ms, Valid) + CountStatus(ms, Invalid) + CountStatus(ms, NotFound) <= |ms|
  {
    if |ms| > 0 {
      CountsWithinTotal(ms[..|ms| - 1]);
    }
  }

  lemma CountSnoc(ms: seq<SourceMatch>, m: SourceMatch, st: ValidationStatus)
    ensures CountStatus(ms + [m], st) == CountStatus(ms, st) + (if m.status == st then 1 else 0)
  {
    assert (ms + [m])[..|ms|] == ms;
  }

  lemma {:induction false} CountAppend(a: seq<SourceMatch>, b: seq<SourceMatch>, st: ValidationStatus)
    ensures CountStatus(a + b, st) == CountStatus(a, st) + CountStatus(b, st)
  {
    if |b| == 0 {
      assert a + b == a;
    } else {
      CountAppend(a, b[..|b| - 1], st);
      assert (a + b)[..|a + b| - 1] == a + b[..|b| - 1];
    }
  }

  /** A result holding the matches and their tally, as the validators' loops build it. */
  function Tallied(id: string, ms: seq<SourceMatch>): ValidationResult {
    NewResult(id).(totalClaims := |ms|, validClaims := CountStatus(ms, Valid),
                   invalidClaims := CountStatus(ms, Invalid), notFoundClaims := CountStatus(ms, NotFound),
                   sourceMatches := ms)
  }

  lemma TallyStep(id: string, ms: seq<SourceMatch>, m: SourceMatch)
    ensures var t := Tallied(id, ms);
      Tallied(id, ms + [m])
      == t.(sourceMatches := ms + [m], totalClaims := t.totalClaims + 1,
            validClaims := t.validClaims + (if m.status == Valid then 1 else 0),
            invalidClaims := t.invalidClaims + (if m.status == Invalid then 1 else 0),
            notFoundClaims := t.notFoundClaims + (if m.status == NotFound then 1 else 0))
  {
    assert (ms + [m])[..|ms|] == ms;
  }

  /** One match per value, in order: `judge` applied to each. */
  function Matches<T>(xs: seq<T>, judge: T -> SourceMatch): (ms: seq<SourceMatch>)
    ensures |ms| == |xs|
  {
    if |xs| == 0 then [] else Matches(xs[..|xs| - 1], judge) + [judge(xs[|xs| - 1])]
  }

  /** Every match has one of the five statuses. */
  lemma {:induction false} CountPartition(ms: seq<SourceMatch>)
    ensures CountStatus(ms, Valid) + CountStatus(ms, Partial) + CountStatus(ms, Invalid)
            + CountStatus(ms, NotFound) + CountStatus(ms, Error) == |ms|
  {
    if |ms| > 0 {
      CountPartition(ms[..|ms| - 1]);
    }
  }
}
