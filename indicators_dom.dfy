/**
 * Headline values of the indicator pages
 * (te_calendar_scraper/scraper/indicators_dom.py): one row per configured
 * indicator, built from the series the charts endpoint returns, or an error
 * row that names the failure.
 *
 * The HTTP request, base64 and the inflate-and-JSON step are the fields of
 * `Services`; of the payload decoding only the XOR de-obfuscation is
 * modelled.  Values in a series are kept as opaque cells: formatting a
 * number and subtracting two of them are floating-point work, also given by
 * `Services`.
 */
module IndicatorsDom {
  import opened Wrappers
  import opened PyStr
  import opened SeqUtil

  datatype IndicatorTarget = IndicatorTarget(bucket: string, name: string, symbol: string, sourceUrl: string)

  const Cpi: string := "CPI"
  const Eia: string := "EIA"
  const Ust: string := "UST"
  const Ism: string := "ISM"
  const UstUrl: string := "https://tradingeconomics.com/united-states/government-bond-yield"

  /** `ALL_INDICATOR_TARGETS`: the CPI, EIA, UST and ISM targets in that order. */
  const AllIndicatorTargets: seq<IndicatorTarget> := [
    IndicatorTarget(Cpi, "CPI YoY", "cpi yoy", "https://tradingeconomics.com/united-states/inflation-cpi"),
    IndicatorTarget(Cpi, "CPI MoM", "unitedstainfratmom", "https://tradingeconomics.com/united-states/inflation-rate-mom"),
    IndicatorTarget(Cpi, "Core CPI YoY", "usacorecpirate", "https://tradingeconomics.com/united-states/core-inflation-rate"),
    IndicatorTarget(Cpi, "Core CPI MoM", "usacirm", "https://tradingeconomics.com/united-states/core-inflation-rate-mom"),
    IndicatorTarget(Eia, "Crude Oil Inventories", "unitedstacruoilstoch", "https://tradingeconomics.com/united-states/crude-oil-stocks-change"),
    IndicatorTarget(Eia, "Gasoline Inventories", "unitedstagasstocha", "https://tradingeconomics.com/united-states/gasoline-stocks-change"),
    IndicatorTarget(Eia, "Distillate Inventories", "unitedstadissto", "https://tradingeconomics.com/united-states/distillate-fuel-oil-stocks-change"),
    IndicatorTarget(Eia, "Natural Gas Storage", "unitedstanatgasstoch", "https://tradingeconomics.com/united-states/natural-gas-stocks-change"),
    IndicatorTarget(Ust, "US 3M Yield", "usgg3m:ind", UstUrl),
    IndicatorTarget(Ust, "US 2Y Yield", "usgg2yr:ind", UstUrl),
    IndicatorTarget(Ust, "US 5Y Yield", "usgg5yr:ind", UstUrl),
    IndicatorTarget(Ust, "US 10Y Yield", "usgg10yr:ind", UstUrl),
    IndicatorTarget(Ust, "US 30Y Yield", "usgg30y:ind", UstUrl),
    IndicatorTarget(Ism, "ISM Manufacturing PMI", "unitedstamanpmi", "https://tradingeconomics.com/united-states/manufacturing-pmi"),
    IndicatorTarget(Ism, "ISM Services PMI", "unitedstaserpmi", "https://tradingeconomics.com/united-states/services-pmi"),
    IndicatorTarget(Ism, "ISM Composite PMI", "unitedstacompmi", "https://tradingeconomics.com/united-states/composite-pmi")
  ]

  /** `config.TE_OBFUSCATION_KEY` */
  const ObfuscationKey: string := "tradingeconomics-charts-core-api-key"

  /** `s.encode()` for a string of code points below 256. */
  function Latin1(s: string): (b: seq<bv8>)
    requires forall i :: 0 <= i < |s| ==> s[i] as int < 256
    ensures |b| == |s|
  {
    seq(|s|, i requires 0 <= i < |s| => s[i] as int as bv8)
  }

  /**
   * The XOR step of `_decode_payload`: byte `i` of the payload against byte
   * `i mod |key|` of the key.  With an empty key a non-empty payload raises,
   * which the decoder turns into `None`.
   */
  function Xor(raw: seq<bv8>, key: seq<bv8>): (r: Option<seq<bv8>>)
    ensures r.None? <==> |key| == 0 && |raw| > 0
    ensures r.Some? ==> |r.value| == |raw|
    ensures r.Some? ==> forall i :: 0 <= i < |raw| ==> r.value[i] == raw[i] ^ key[i % |key|]
  {
    if |raw| == 0 then Some([])
    else if |key| == 0 then None
    else Some(seq(|raw|, i requires 0 <= i < |raw| => raw[i] ^ key[i % |key|]))
  }

  /** The de-obfuscation undoes itself: applying it twice with one key gives the payload back. */
  lemma XorInvolution(raw: seq<bv8>, key: seq<bv8>)
    requires |key| > 0
    ensures Xor(raw, key).Some? && Xor(Xor(raw, key).value, key) == Some(raw)
  {
    var once := Xor(raw, key).value;
    var twice := Xor(once, key).value;
    assert |twice| == |raw|;
    forall i | 0 <= i < |raw| ensures twice[i] == raw[i] {
      assert twice[i] == (raw[i] ^ key[i % |key|]) ^ key[i % |key|];
    }
    assert twice == raw;
  }

  /** One cell of a data point: a number, a string, or JSON `null`. */
  datatype Cell = Number(n: int) | Text(s: string) | Null

  /**
   * A non-empty `serie` object: its `frequency`, `data` (`None` when the key
   * is missing or not a list) and `unit`.
   */
  datatype Serie = Serie(frequency: Option<string>, data: Option<seq<seq<Cell>>>, unit: Option<string>)

  /** One element of the `series` list: its `serie`, `None` when missing or empty. */
  datatype SeriesEntry = SeriesEntry(serie: Option<Serie>)

  /** One element of the decoded list: its `series` list, `None` when missing. */
  datatype Payload = Payload(series: Option<seq<SeriesEntry>>)

  /** How a request ends: the response text, or the exception message. */
  datatype Response = Ok(text: string) | RequestFailed(message: string)

  /**
   * The library calls: the request, base64, inflate-plus-JSON, number
   * formatting, whether `float()` accepts a string, and the day difference.
   */
  datatype Services = Services(
    get: string -> Response,
    b64decode: string -> Option<seq<bv8>>,
    inflate: seq<bv8> -> Option<seq<Payload>>,
    formatValue: Cell -> Option<string>,
    floatLiteral: string -> bool,
    difference: (Cell, Cell) -> Option<string>)

  /** `_decode_payload(text)`: base64, XOR with the key, inflate and parse; `None` where any step raises. */
  function DecodePayload(text: string, svc: Services): Option<seq<Payload>> {
    match svc.b64decode(text)
    case None => None
    case Some(raw) =>
      assert forall i :: 0 <= i < |ObfuscationKey| ==> ObfuscationKey[i] as int < 256;
      match Xor(raw, Latin1(ObfuscationKey))
      case None => None
      case Some(xored) => svc.inflate(xored)
  }

  datatype FetchError = RequestError(message: string) | DecodeError | EmptySeries | MissingSerie

  /** The error string `_fetch_series` returns. */
  function ErrorText(e: FetchError): string {
    match e
    case RequestError(message) => "request-error: " + message
    case DecodeError => "decode-error"
    case EmptySeries => "empty-series"
    case MissingSerie => "missing-serie"
  }

  /** `_fetch_series(symbol)`: the series, or exactly one error. */
  function FetchSeries(symbol: string, svc: Services): (r: Result<Serie, FetchError>)
    ensures r.Failure? && r.error.RequestError? <==> svc.get(symbol).RequestFailed?
    ensures r.Failure? && r.error == DecodeError <==>
      svc.get(symbol).Ok? && (DecodePayload(svc.get(symbol).text, svc) == None || DecodePayload(svc.get(symbol).text, svc) == Some([]))
    ensures r == Failure(EmptySeries) <==> (
      svc.get(symbol).Ok? &&
      var d := DecodePayload(svc.get(symbol).text, svc);
      d.Some? && |d.value| > 0 && (d.value[0].series.None? || |d.value[0].series.value| == 0))
    ensures r == Failure(MissingSerie) <==> (
      svc.get(symbol).Ok? &&
      var d := DecodePayload(svc.get(symbol).text, svc);
      d.Some? && |d.value| > 0 && d.value[0].series.Some? && |d.value[0].series.value| > 0 &&
      d.value[0].series.value[0].serie.None?)
    ensures r.Success? <==> (
      svc.get(symbol).Ok? &&
      var d := DecodePayload(svc.get(symbol).text, svc);
      d.Some? && |d.value| > 0 && d.value[0].series.Some? && |d.value[0].series.value| > 0 &&
      d.value[0].series.value[0].serie.Some?)
    ensures r.Success? ==>
      DecodePayload(svc.get(symbol).text, svc).value[0].series.value[0].serie == Some(r.value)
  {
    match svc.get(symbol)
    case RequestFailed(message) => Failure(RequestError(message))
    case Ok(text) =>
      var decoded := DecodePayload(text, svc);
      if decoded.None? || |decoded.value| == 0 then Failure(DecodeError)
      else
        var seriesList := decoded.value[0].series;
        if seriesList.None? || |seriesList.value| == 0 then Failure(EmptySeries)
        else
          var serie := seriesList.value[0].serie;
          if serie.None? then Failure(MissingSerie) else Success(serie.value)
  }

  datatype Result<T, E> = Success(value: T) | Failure(error: E)

  /** `IndicatorRow` of te_calendar_scraper/scraper/models.py. */
  datatype IndicatorRow = IndicatorRow(
    bucket: string,
    name: string,
    latestValue: Option<string>,
    unit: Option<string>,
    dayChange: Option<string>,
    monthChange: Option<string>,
    yearChange: Option<string>,
    obsDate: Option<Cell>,
    sourceUrl: string,
    rawSourceNote: string)

  /**
   * `float(cell)` accepts the cell: a JSON number, or a string that Python
   * reads as a float literal (`svc.floatLiteral`).
   */
  predicate Numeric(c: Cell, svc: Services) {
    c.Number? || (c.Text? && svc.floatLiteral(c.s))
  }

  /** The series is daily and has at least two data points. */
  predicate Daily(serie: Serie) {
    Contains(Lower(serie.frequency.UnwrapOr("")), "day") && serie.data.Some? && |serie.data.value| >= 2
  }

  /**
   * `_compute_day_change(serie)`: `None` unless the series is daily with two
   * non-null last points; `data[-1][0]` on an empty point raises `IndexError`,
   * `float(...)` on a string that is no float literal raises `ValueError`.
   * The exception is named by its class.
   */
  function ComputeDayChange(serie: Serie, svc: Services): (r: Result<Option<string>, string>)
    ensures r.Failure? ==> Daily(serie) && (r.error == "IndexError" || r.error == "ValueError")
    ensures Daily(serie) ==> var d := serie.data.value;
      (r == Failure("IndexError") <==> |d[|d| - 1]| == 0 || |d[|d| - 2]| == 0)
    ensures Daily(serie) ==> var d := serie.data.value;
      (r == Failure("ValueError") <==>
         |d[|d| - 1]| > 0 && |d[|d| - 2]| > 0 && d[|d| - 1][0] != Null && d[|d| - 2][0] != Null &&
         !(Numeric(d[|d| - 1][0], svc) && Numeric(d[|d| - 2][0], svc)))
    ensures r.Success? && r.value.Some? ==> Daily(serie) && var d := serie.data.value;
      |d[|d| - 1]| > 0 && |d[|d| - 2]| > 0 &&
      Numeric(d[|d| - 1][0], svc) && Numeric(d[|d| - 2][0], svc) &&
      r.value == svc.difference(d[|d| - 1][0], d[|d| - 2][0])
  {
    var freq := Lower(serie.frequency.UnwrapOr(""));
    if !Contains(freq, "day") || serie.data.None? then Success(None)
    else
      var data := serie.data.value;
      if |data| < 2 then Success(None)
      else if |data[|data| - 1]| == 0 || |data[|data| - 2]| == 0 then Failure("IndexError")
      else
        var last := data[|data| - 1][0];
        var prev := data[|data| - 2][0];
        if last == Null || prev == Null then Success(None)
        else if !Numeric(last, svc) || !Numeric(prev, svc) then Failure("ValueError")
        else Success(svc.difference(last, prev))
  }

  /** `str(value)` of an optional string in an f-string. */
  function ShowOptional(s: Option<string>): string {
    if s.Some? then s.value else "None"
  }

  /** The error row: target fields copied, every value `None`, the note naming symbol and error. */
  function ErrorRow(target: IndicatorTarget, e: FetchError): IndicatorRow {
    IndicatorRow(target.bucket, target.name, None, None, None, None, None, None, target.sourceUrl,
                 "symbol=" + target.symbol + "; " + ErrorText(e))
  }

  /**
   * `_extract_latest_row(target)`: the error row when the fetch fails, else
   * the row built from the last data point; the exception of
   * `_compute_day_change` escapes.
   */
  function ExtractLatestRow(target: IndicatorTarget, svc: Services): (r: Result<IndicatorRow, string>)
    ensures r.Failure? <==>
      FetchSeries(target.symbol, svc).Success? && ComputeDayChange(FetchSeries(target.symbol, svc).value, svc).Failure?
    ensures r.Failure? ==> r.error == ComputeDayChange(FetchSeries(target.symbol, svc).value, svc).error
    ensures r.Success? ==> var row := r.value;
      row.bucket == target.bucket && row.name == target.name && row.sourceUrl == target.sourceUrl &&
      row.monthChange.None? && row.yearChange.None?
    ensures r.Success? && FetchSeries(target.symbol, svc).Failure? ==> var row := r.value;
      row.latestValue.None? && row.unit.None? && row.dayChange.None? && row.obsDate.None?
      && row.rawSourceNote == "symbol=" + target.symbol + "; " + ErrorText(FetchSeries(target.symbol, svc).error)
    ensures r.Success? && FetchSeries(target.symbol, svc).Success? ==>
      r.value.dayChange == ComputeDayChange(FetchSeries(target.symbol, svc).value, svc).value
    ensures r.Success? && r.value.obsDate.Some? ==> (FetchSeries(target.symbol, svc).Success? &&
      var d := FetchSeries(target.symbol, svc).value.data.UnwrapOr([]);
      |d| > 0 && |d[|d| - 1]| >= 4 && r.value.obsDate.value == d[|d| - 1][3])
    ensures r.Success? && FetchSeries(target.symbol, svc).Success? ==> (
      var serie := FetchSeries(target.symbol, svc).value;
      var d := serie.data.UnwrapOr([]);
      r.value.unit == serie.unit
      && (|d| > 0 && |d[|d| - 1]| >= 4 ==> r.value.obsDate.Some?)
      && (|d| > 0 && |d[|d| - 1]| > 0 ==> r.value.latestValue == svc.formatValue(d[|d| - 1][0]))
      && (|d| == 0 || |d[|d| - 1]| == 0 ==> r.value.latestValue.None?))
  {
    match FetchSeries(target.symbol, svc)
    case Failure(e) => Success(ErrorRow(target, e))
    case Success(serie) =>
      match ComputeDayChange(serie, svc)
      case Failure(exception) => Failure(exception)
      case Success(dayChange) =>
        var data := serie.data.UnwrapOr([]);
        var lastEntry := if |data| > 0 then data[|data| - 1] else [];
        var latest := if |lastEntry| > 0 then svc.formatValue(lastEntry[0]) else None;
        var obsDate := if |lastEntry| >= 4 then Some(lastEntry[3]) else None;
        var note := "symbol=" + target.symbol + "; points=" + NatStr(|data|) + "; frequency=" + ShowOptional(serie.frequency);
        Success(IndicatorRow(target.bucket, target.name, latest, serie.unit, dayChange,
                             None, None, obsDate, target.sourceUrl, note))
  }

  /**
   * `collect_indicators()` over a list of targets: one row per target, in
   * order; the first exception stops the loop and escapes.
   */
  method CollectIndicators(targets: seq<IndicatorTarget>, svc: Services) returns (r: Result<seq<IndicatorRow>, string>)
    ensures r.Success? <==> forall i :: 0 <= i < |targets| ==> ExtractLatestRow(targets[i], svc).Success?
    ensures r.Success? ==> |r.value| == |targets|
    ensures r.Success? ==>
      forall i {:trigger r.value[i]} :: 0 <= i < |targets| ==> r.value[i] == ExtractLatestRow(targets[i], svc).value
    ensures r.Failure? ==>
      exists k :: 0 <= k < |targets| && ExtractLatestRow(targets[k], svc).Failure? &&
        r.error == ExtractLatestRow(targets[k], svc).error &&
        forall j :: 0 <= j < k ==> ExtractLatestRow(targets[j], svc).Success?
  {
    var rows := [];
    var i := 0;
    while i < |targets|
      invariant 0 <= i <= |targets|
      invariant |rows| == i
      invariant forall j :: 0 <= j < i ==> ExtractLatestRow(targets[j], svc).Success?
      invariant forall j {:trigger rows[j]} :: 0 <= j < i ==> rows[j] == ExtractLatestRow(targets[j], svc).value
    {
      var row := ExtractLatestRow(targets[i], svc);
      if row.Failure? {
        return Failure(row.error);
      }
      rows := rows + [row.value];
      i := i + 1;
    }
    return Success(rows);
  }

  /** Sixteen rows come out, in target order, each naming its own target. */
  lemma CollectAllIndicatorsShape(rows: seq<IndicatorRow>, svc: Services)
    requires |rows| == |AllIndicatorTargets|
    requires forall i :: 0 <= i < |rows| ==> ExtractLatestRow(AllIndicatorTargets[i], svc) == Success(rows[i])
    ensures |rows| == 16
    ensures forall i :: 0 <= i < 16 ==>
      rows[i].name == AllIndicatorTargets[i].name && rows[i].bucket == AllIndicatorTargets[i].bucket
    ensures forall i :: 0 <= i < 4 ==> rows[i].bucket == Cpi
    ensures forall i :: 13 <= i < 16 ==> rows[i].bucket == Ism
  {
  }
}
