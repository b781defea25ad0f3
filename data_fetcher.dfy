/** The series shaping of data_fetcher.py (MacroDataFetcher).  Every HTTP
    response is an input (a Response), float(v) is the parameter parse, and
    the FRED key is the parameter apiKey (the class never changes it after
    construction, so no object is modelled). */
module DataFetcher {
  import opened Wrappers
  import opened Observations

  /** estimate_neutral_rate: a fixed r* of 2.5%. */
  const NeutralRate: real := 2.5

  /** The year-over-year transform caps its output at this many points. */
  const YoyCap: nat := 24

  /** Distance, in positions, between a reading and its year-ago reading. */
  const YoyLag: nat := 12

  // ===========================================================================
  // fetch_fred_series_history
  // ===========================================================================

  /** A value the history filter goes on to use: not None and not '.'. */
  predicate HasValue(o: RawObs) {
    !IsNone(o.value) && o.value.text != "."
  }

  /** An observation that makes it into the history. */
  predicate Kept(o: RawObs, parse: string -> Option<real>) {
    HasValue(o) && o.date.Some? && parse(o.value.text).Some?
  }

  function PointOf(o: RawObs, parse: string -> Option<real>): Point
    requires Kept(o, parse)
  {
    Point(o.date.value, parse(o.value.text).value)
  }

  /** One iteration of the filter loop, in the order the code evaluates:
      the None/'.' test, then obs['date'] (a KeyError escapes the inner
      handler), then float(v) (a ValueError or TypeError is skipped). */
  function FilterStep(o: RawObs, parse: string -> Option<real>): Step {
    if IsNone(o.value) || o.value.text == "." then Skip
    else if o.date.None? then Raise
    else match parse(o.value.text)
      case None => Skip
      case Some(x) => Emit(Point(o.date.value, x))
  }

  function FilterSteps(obs: seq<RawObs>, parse: string -> Option<real>): seq<Step> {
    seq(|obs|, i requires 0 <= i < |obs| => FilterStep(obs[i], parse))
  }

  /** The history defined as a value: empty without a key, on a failed
      request, and when an iteration raised; otherwise the scan's output.
      A body without 'observations' reads as an empty list. */
  function SeriesHistory(apiKey: string, response: Response,
                         parse: string -> Option<real>): seq<Point>
  {
    if apiKey == "" then []
    else match response
      case Failed => []
      case NoObservations => []
      case NullObservations => []  // `for obs in None`: TypeError, caught
      case Fetched(obs) =>
        match Run(FilterSteps(obs, parse))
        case None => []
        case Some(out) => out
  }

  /** fetch_fred_series_history: the observation-filter loop. */
  method FetchSeriesHistory(apiKey: string, response: Response,
                            parse: string -> Option<real>) returns (out: seq<Point>)
    ensures out == SeriesHistory(apiKey, response, parse)
  {
    if apiKey == "" {
      return [];
    }
    if !response.Fetched? {
      return [];
    }
    var observations := response.observations;
    ghost var steps := FilterSteps(observations, parse);
    out := [];
    for i := 0 to |observations|
      invariant Run(steps[..i]) == Some(out)
    {
      assert steps[..i + 1] == steps[..i] + [steps[i]];
      RunSnoc(steps[..i], steps[i]);
      var v := observations[i].value;
      if IsNone(v) || v.text == "." {
        continue;
      }
      if observations[i].date.None? {
        // obs['date'] raises KeyError; the outer handler returns []
        RunFailsIffRaise(steps);
        assert steps[i] == Raise;
        return [];
      }
      var x := parse(v.text);
      if x.None? {
        continue;
      }
      out := out + [Point(observations[i].date.value, x.value)];
    }
    assert steps[..|observations|] == steps;
  }

  // ===========================================================================
  // fetch_inflation_yoy_history
  // ===========================================================================

  /** Percentage change from prev to cur. */
  function YoyChange(cur: real, prev: real): real
    requires prev != 0.0
  {
    (cur - prev) / prev * 100.0
  }

  /** Rebasing prev by the change gives back cur. */
  lemma YoyChangeInverse(cur: real, prev: real)
    requires prev != 0.0
    ensures prev + prev * YoyChange(cur, prev) / 100.0 == cur
    ensures YoyChange(cur, prev) == 0.0 <==> cur == prev
  {
    var q := (cur - prev) / prev;
    assert q * prev == cur - prev;
    assert YoyChange(cur, prev) == q * 100.0;
  }

  /** `cur and prev and cur != '.' and prev != '.'`: a non-empty string
      other than '.'. */
  predicate Usable(v: RawValue) {
    v.Text? && v.text != "" && v.text != "."
  }

  /** Position i (i >= 12) pairs with position i - 12 and both readings are
      usable and parse. */
  predicate YoyPairParses(obs: seq<RawObs>, i: int, parse: string -> Option<real>)
    requires YoyLag <= i < |obs|
  {
    Usable(obs[i].value) && Usable(obs[i - YoyLag].value)
    && parse(obs[i].value.text).Some? && parse(obs[i - YoyLag].value.text).Some?
  }

  /** Position i contributes an output point. */
  predicate YoyEmits(obs: seq<RawObs>, i: int, parse: string -> Option<real>)
    requires YoyLag <= i < |obs|
  {
    YoyPairParses(obs, i, parse)
    && parse(obs[i - YoyLag].value.text).value != 0.0
    && obs[i].date.Some?
  }

  function YoyPoint(obs: seq<RawObs>, i: int, parse: string -> Option<real>): Point
    requires YoyLag <= i < |obs| && YoyEmits(obs, i, parse)
  {
    Point(obs[i].date.value,
          YoyChange(parse(obs[i].value.text).value, parse(obs[i - YoyLag].value.text).value))
  }

  /** One iteration of the YoY loop, in the code's order: the truthiness and
      '.' test, float(cur) and float(prev) (failures skipped), the division
      (ZeroDivisionError escapes the inner handler), then observations[i]['date']
      (a KeyError escapes too). */
  function YoyStep(obs: seq<RawObs>, i: int, parse: string -> Option<real>): Step
    requires YoyLag <= i < |obs|
  {
    var cur, prev := obs[i].value, obs[i - YoyLag].value;
    if !(Usable(cur) && Usable(prev)) then Skip
    else match (parse(cur.text), parse(prev.text))
      case (None, _) => Skip
      case (_, None) => Skip
      case (Some(c), Some(p)) =>
        if p == 0.0 then Raise
        else if obs[i].date.None? then Raise
        else Emit(Point(obs[i].date.value, YoyChange(c, p)))
  }

  /** What one YoY iteration does, case by case. */
  lemma YoyStepCases(obs: seq<RawObs>, i: int, parse: string -> Option<real>)
    requires YoyLag <= i < |obs|
    ensures YoyStep(obs, i, parse).Emit? <==> YoyEmits(obs, i, parse)
    ensures YoyStep(obs, i, parse).Emit? ==> YoyStep(obs, i, parse).point == YoyPoint(obs, i, parse)
    ensures YoyStep(obs, i, parse) == Raise <==>
              YoyPairParses(obs, i, parse)
              && (parse(obs[i - YoyLag].value.text).value == 0.0 || obs[i].date.None?)
  {
  }

  /** Number of iterations of `for i in range(12, len(observations))`. */
  function YoyIterations(n: nat): nat {
    if n > YoyLag then n - YoyLag else 0
  }

  function YoySteps(obs: seq<RawObs>, parse: string -> Option<real>): seq<Step> {
    seq(YoyIterations(|obs|), j requires 0 <= j < YoyIterations(|obs|) =>
      YoyStep(obs, j + YoyLag, parse))
  }

  /** `out[-n:] if len(out) > n else out`: the last min(n, |s|) elements. */
  function CapLast<T>(s: seq<T>, n: nat): (r: seq<T>)
    ensures |r| == if |s| > n then n else |s|
    ensures r == s[|s| - |r|..]
  {
    if |s| > n then s[|s| - n..] else s
  }

  /** The YoY history defined as a value. */
  function InflationYoyHistory(apiKey: string, response: Response,
                               parse: string -> Option<real>): seq<Point>
  {
    if apiKey == "" then []
    else match response
      case Failed => []
      case NoObservations => []
      case NullObservations => []  // len(None): TypeError, caught
      case Fetched(obs) =>
        match Run(YoySteps(obs, parse))
        case None => []
        case Some(out) => CapLast(out, YoyCap)
  }

  /** fetch_inflation_yoy_history: the YoY loop over an ascending CPI series
      and the 24-point cap. */
  method FetchInflationYoyHistory(apiKey: string, response: Response,
                                  parse: string -> Option<real>) returns (out: seq<Point>)
    ensures out == InflationYoyHistory(apiKey, response, parse)
  {
    if apiKey == "" {
      return [];
    }
    if !response.Fetched? {
      return [];
    }
    var observations := response.observations;
    ghost var steps := YoySteps(observations, parse);
    out := [];
    var i := YoyLag;
    while i < |observations|
      invariant YoyLag <= i && i - YoyLag <= |steps|
      invariant Run(steps[..i - YoyLag]) == Some(out)
    {
      var k := i - YoyLag;
      assert steps[..k + 1] == steps[..k] + [steps[k]];
      RunSnoc(steps[..k], steps[k]);
      assert steps[k] == YoyStep(observations, i, parse);
      var cur := observations[i].value;
      var prev := observations[i - YoyLag].value;
      if Usable(cur) && Usable(prev) {
        var c := parse(cur.text);
        var p := parse(prev.text);
        if c.Some? && p.Some? {
          if p.value == 0.0 || observations[i].date.None? {
            // ZeroDivisionError or KeyError: the outer handler returns []
            RunFailsIffRaise(steps);
            assert steps[k] == Raise;
            return [];
          }
          out := out + [Point(observations[i].date.value, YoyChange(c.value, p.value))];
        }
      }
      i := i + 1;
    }
    assert steps[..i - YoyLag] == steps;
    if |out| > YoyCap {
      out := out[|out| - YoyCap..];
    }
  }

  // ===========================================================================
  // fed stance
  // ===========================================================================

  /** The fed_stance comprehension of fetch_all_historical: same dates, each
      value lowered by the neutral rate. */
  function FedStanceHistory(fedFunds: seq<Point>): (r: seq<Point>)
    ensures |r| == |fedFunds|
    ensures forall i :: 0 <= i < |r| ==>
              r[i].date == fedFunds[i].date && r[i].value + NeutralRate == fedFunds[i].value
  {
    seq(|fedFunds|, i requires 0 <= i < |fedFunds| =>
      Point(fedFunds[i].date, fedFunds[i].value - NeutralRate))
  }

  /** The fed_stance entry of fetch_all_data: `fed_funds - neutral if
      fed_funds else None`, where a rate of exactly 0.0 is falsy. */
  function CurrentFedStance(fedFunds: Option<real>): (r: Option<real>)
    ensures r.None? <==> (fedFunds.None? || fedFunds.value == 0.0)
    ensures r.Some? ==> r.value + NeutralRate == fedFunds.value
  {
    if fedFunds.Some? && fedFunds.value != 0.0 then Some(fedFunds.value - NeutralRate)
    else None
  }

  // ===========================================================================
  // fetch_all_historical
  // ===========================================================================

  /** One provider response per series the dashboard reads. */
  datatype HistoricalResponses = HistoricalResponses(
    gdp: Response,            // A191RL1Q225SBEA
    cpi: Response,            // CPIAUCSL
    unemployment: Response,   // UNRATE
    manufacturing: Response,  // MANEMP
    realRate: Response,       // DFII10
    yieldSpread: Response,    // T10Y2Y
    fedFunds: Response)       // FEDFUNDS

  datatype Historical = Historical(
    gdpGrowth: seq<Point>, inflation: seq<Point>, unemployment: seq<Point>,
    ismPmi: seq<Point>, realRate: seq<Point>, yieldSpread: seq<Point>,
    fedFunds: seq<Point>, fedStance: seq<Point>)

  /** fetch_all_historical: seven histories and the derived fed stance. */
  method FetchAllHistorical(apiKey: string, responses: HistoricalResponses,
                            parse: string -> Option<real>) returns (h: Historical)
    ensures h.gdpGrowth == SeriesHistory(apiKey, responses.gdp, parse)
    ensures h.inflation == InflationYoyHistory(apiKey, responses.cpi, parse)
    ensures h.unemployment == SeriesHistory(apiKey, responses.unemployment, parse)
    ensures h.ismPmi == SeriesHistory(apiKey, responses.manufacturing, parse)
    ensures h.realRate == SeriesHistory(apiKey, responses.realRate, parse)
    ensures h.yieldSpread == SeriesHistory(apiKey, responses.yieldSpread, parse)
    ensures h.fedFunds == SeriesHistory(apiKey, responses.fedFunds, parse)
    ensures |h.fedStance| == |h.fedFunds|
    ensures forall i :: 0 <= i < |h.fedStance| ==>
              h.fedStance[i].date == h.fedFunds[i].date
              && h.fedStance[i].value == h.fedFunds[i].value - NeutralRate
  {
    var gdp := FetchSeriesHistory(apiKey, responses.gdp, parse);
    var inflation := FetchInflationYoyHistory(apiKey, responses.cpi, parse);
    var unemployment := FetchSeriesHistory(apiKey, responses.unemployment, parse);
    var ismPmi := FetchSeriesHistory(apiKey, responses.manufacturing, parse);
    var realRate := FetchSeriesHistory(apiKey, responses.realRate, parse);
    var yieldSpread := FetchSeriesHistory(apiKey, responses.yieldSpread, parse);
    var fedFunds := FetchSeriesHistory(apiKey, responses.fedFunds, parse);
    var fedStance := FedStanceHistory(fedFunds);
    h := Historical(gdp, inflation, unemployment, ismPmi, realRate, yieldSpread,
                    fedFunds, fedStance);
  }

  // ===========================================================================
  // fetch_fred_data, fetch_inflation_yoy, fetch_all_data
  // ===========================================================================

  /** float(obs['value']): KeyError without the key, TypeError on null,
      ValueError when the string does not parse. */
  function FloatOf(v: RawValue, parse: string -> Option<real>): (r: Outcome<real>)
    ensures r.Returns? <==> v.Text? && parse(v.text).Some?
    ensures r.Returns? ==> r.value == parse(v.text).value
  {
    match v
    case NoKey => Raises(KeyError)
    case Null => Raises(TypeError)
    case Text(s) =>
      match parse(s)
      case None => Raises(ValueError)
      case Some(x) => Returns(x)
  }

  /** fetch_fred_data on a newest-first response: the first observation, or
      None for an empty list.  Unlike the history functions nothing is
      caught: `data['observations']` raises KeyError on a body without it. */
  function FetchFredData(response: Response, parse: string -> Option<real>): (r: Outcome<Option<Point>>)
    ensures r == Returns(None) <==> response == Fetched([]) || response == NullObservations
    ensures r.Returns? && r.value.Some? <==>
              response.Fetched? && |response.observations| > 0
              && response.observations[0].date.Some?
              && FloatOf(response.observations[0].value, parse).Returns?
    ensures r.Returns? && r.value.Some? ==>
              Some(r.value.value.date) == response.observations[0].date
              && r.value.value.value == FloatOf(response.observations[0].value, parse).value
  {
    match response
    case Failed => Raises(RequestError)
    case NoObservations => Raises(KeyError)
    case NullObservations => Returns(None)  // `if data['observations']`: None is falsy
    case Fetched(obs) =>
      if obs == [] then Returns(None)
      else
        var value :- FloatOf(obs[0].value, parse);
        match obs[0].date
        case None => Raises(KeyError)
        case Some(d) => Returns(Some(Point(d, value)))
  }

  /** fetch_gdp_growth and the other single-series readers:
      `result['value'] if result else None`. */
  function LatestValue(response: Response, parse: string -> Option<real>): (r: Outcome<Option<real>>)
    ensures r.Returns? <==> FetchFredData(response, parse).Returns?
    ensures r.Raises? ==> r.error == FetchFredData(response, parse).error
    ensures r.Returns? ==>
              r.value == match FetchFredData(response, parse).value
                         case None => None
                         case Some(p) => Some(p.value)
  {
    var result :- FetchFredData(response, parse);
    Returns(if result.Some? then Some(result.value.value) else None)
  }

  /** fetch_inflation_yoy on a newest-first CPI response: None with fewer
      than 13 observations, otherwise the change from observation 12 to
      observation 0.  A zero year-ago value raises ZeroDivisionError. */
  function FetchInflationYoy(response: Response, parse: string -> Option<real>): (r: Outcome<Option<real>>)
    ensures r == Returns(None) <==> response.Fetched? && |response.observations| <= YoyLag
    ensures response.Failed? ==> r == Raises(RequestError)
    ensures response.NoObservations? ==> r == Raises(KeyError)
    ensures response.NullObservations? ==> r == Raises(TypeError)
    ensures response.Fetched? && |response.observations| > YoyLag
            && FloatOf(response.observations[0].value, parse).Returns?
            && FloatOf(response.observations[YoyLag].value, parse) == Returns(0.0) ==>
              r == Raises(ZeroDivisionError)
    ensures response.Fetched? && |response.observations| > YoyLag
            && FloatOf(response.observations[0].value, parse).Raises? ==>
              r == Raises(FloatOf(response.observations[0].value, parse).error)
    ensures response.Fetched? && |response.observations| > YoyLag
            && FloatOf(response.observations[0].value, parse).Returns?
            && FloatOf(response.observations[YoyLag].value, parse).Raises? ==>
              r == Raises(FloatOf(response.observations[YoyLag].value, parse).error)
    ensures r.Returns? && r.value.Some? <==>
              response.Fetched? && |response.observations| > YoyLag
              && FloatOf(response.observations[0].value, parse).Returns?
              && FloatOf(response.observations[YoyLag].value, parse).Returns?
              && FloatOf(response.observations[YoyLag].value, parse).value != 0.0
    ensures r.Returns? && r.value.Some? ==>
              r.value.value == YoyChange(FloatOf(response.observations[0].value, parse).value,
                                         FloatOf(response.observations[YoyLag].value, parse).value)
  {
    match response
    case Failed => Raises(RequestError)
    case NoObservations => Raises(KeyError)
    case NullObservations => Raises(TypeError)  // len(None)
    case Fetched(obs) =>
      if |obs| <= YoyLag then Returns(None)
      else
        var current :- FloatOf(obs[0].value, parse);
        var yearAgo :- FloatOf(obs[YoyLag].value, parse);
        if yearAgo == 0.0 then Raises(ZeroDivisionError)
        else Returns(Some(YoyChange(current, yearAgo)))
  }

  /** One provider response per current reading. */
  datatype CurrentResponses = CurrentResponses(
    gdp: Response,            // A191RL1Q225SBEA, newest first, limit 1
    cpi: Response,            // CPIAUCSL, newest first, limit 13
    realRate: Response,       // DFII10
    unemployment: Response,   // UNRATE
    manufacturing: Response,  // MANEMP
    yieldSpread: Response,    // T10Y2Y
    fedFunds: Response)       // FEDFUNDS

  /** The dictionary fetch_all_data returns (the timestamp is left out). */
  datatype Snapshot = Snapshot(
    gdpGrowth: Option<real>, inflation: Option<real>, realRate: Option<real>,
    unemployment: Option<real>, ismPmi: Option<real>, yieldSpread: Option<real>,
    fedFunds: Option<real>, neutralRate: real, fedStance: Option<real>)

  /** fetch_all_data: the fed funds rate is fetched first, then the readings
      in dictionary order; the first exception propagates. */
  function FetchAllData(responses: CurrentResponses, parse: string -> Option<real>): (r: Outcome<Snapshot>)
    ensures LatestValue(responses.fedFunds, parse).Raises? ==>
              r == Raises(LatestValue(responses.fedFunds, parse).error)
    ensures r.Returns? <==>
              LatestValue(responses.fedFunds, parse).Returns?
              && LatestValue(responses.gdp, parse).Returns?
              && FetchInflationYoy(responses.cpi, parse).Returns?
              && LatestValue(responses.realRate, parse).Returns?
              && LatestValue(responses.unemployment, parse).Returns?
              && LatestValue(responses.manufacturing, parse).Returns?
              && LatestValue(responses.yieldSpread, parse).Returns?
    ensures r.Returns? ==>
              r.value.fedFunds == LatestValue(responses.fedFunds, parse).value
              && r.value.gdpGrowth == LatestValue(responses.gdp, parse).value
              && r.value.inflation == FetchInflationYoy(responses.cpi, parse).value
              && r.value.realRate == LatestValue(responses.realRate, parse).value
              && r.value.unemployment == LatestValue(responses.unemployment, parse).value
              && r.value.ismPmi == LatestValue(responses.manufacturing, parse).value
              && r.value.yieldSpread == LatestValue(responses.yieldSpread, parse).value
              && r.value.neutralRate == NeutralRate
              && (r.value.fedStance.None? <==> r.value.fedFunds.None? || r.value.fedFunds.value == 0.0)
              && (r.value.fedStance.Some? ==> r.value.fedStance.value == r.value.fedFunds.value - NeutralRate)
  {
    var fedFunds :- LatestValue(responses.fedFunds, parse);
    var neutral := NeutralRate;
    var gdp :- LatestValue(responses.gdp, parse);
    var inflation :- FetchInflationYoy(responses.cpi, parse);
    var realRate :- LatestValue(responses.realRate, parse);
    var unemployment :- LatestValue(responses.unemployment, parse);
    var ismPmi :- LatestValue(responses.manufacturing, parse);
    var yieldSpread :- LatestValue(responses.yieldSpread, parse);
    Returns(Snapshot(gdp, inflation, realRate, unemployment, ismPmi, yieldSpread,
                     fedFunds, neutral, CurrentFedStance(fedFunds)))
  }

  // ===========================================================================
  // Properties of the series shaping
  // ===========================================================================

  /** With an empty key both history readers return [] whatever the provider
      would have sent. */
  lemma HistoriesEmptyWithoutKey(response: Response, parse: string -> Option<real>)
    ensures SeriesHistory("", response, parse) == []
    ensures InflationYoyHistory("", response, parse) == []
  {
  }

  /** The filter keeps, in input order, exactly the observations whose value is
      present, not '.', and parses (when no kept value lacks its date). */
  lemma HistoryIsFilteredSubsequence(apiKey: string, obs: seq<RawObs>, parse: string -> Option<real>)
    requires apiKey != ""
    requires forall i :: 0 <= i < |obs| && HasValue(obs[i]) ==> obs[i].date.Some?
    ensures var out := SeriesHistory(apiKey, Fetched(obs), parse);
            var ix := EmitPositions(FilterSteps(obs, parse));
            && |out| == |ix|
            && (forall j :: 0 <= j < |ix| ==>
                  0 <= ix[j] < |obs| && Kept(obs[ix[j]], parse) && out[j] == PointOf(obs[ix[j]], parse))
            && (forall j, k :: 0 <= j < k < |ix| ==> ix[j] < ix[k])
            && (forall i :: 0 <= i < |obs| && Kept(obs[i], parse) ==> i in ix)
  {
    var steps := FilterSteps(obs, parse);
    var ix := EmitPositions(steps);
    RunFailsIffRaise(steps);
    assert Raise !in steps by {
      forall i | 0 <= i < |steps| ensures steps[i] != Raise {
        assert steps[i] == FilterStep(obs[i], parse);
      }
    }
    RunOutput(steps);
    forall j | 0 <= j < |ix|
      ensures Kept(obs[ix[j]], parse) && steps[ix[j]].point == PointOf(obs[ix[j]], parse)
    {
      assert steps[ix[j]] == FilterStep(obs[ix[j]], parse);
    }
    forall i | 0 <= i < |obs| && Kept(obs[i], parse)
      ensures i in ix
    {
      assert steps[i] == FilterStep(obs[i], parse);
    }
  }

  /** A value-bearing observation without a date raises KeyError in the inner
      block; the outer handler then drops everything collected so far. */
  lemma MissingDateEmptiesHistory(apiKey: string, obs: seq<RawObs>, parse: string -> Option<real>, i: int)
    requires 0 <= i < |obs| && HasValue(obs[i]) && obs[i].date.None?
    ensures SeriesHistory(apiKey, Fetched(obs), parse) == []
  {
    var steps := FilterSteps(obs, parse);
    assert steps[i] == Raise;
    RunFailsIffRaise(steps);
  }

  /** Every history point comes from a kept input observation, and the history
      is never longer than the input. */
  lemma HistoryPointsComeFromInput(apiKey: string, obs: seq<RawObs>, parse: string -> Option<real>)
    ensures |SeriesHistory(apiKey, Fetched(obs), parse)| <= |obs|
    ensures forall p :: p in SeriesHistory(apiKey, Fetched(obs), parse) ==>
              exists i :: 0 <= i < |obs| && Kept(obs[i], parse) && PointOf(obs[i], parse) == p
  {
    var out := SeriesHistory(apiKey, Fetched(obs), parse);
    if out != [] {
      if exists i :: 0 <= i < |obs| && HasValue(obs[i]) && obs[i].date.None? {
        var i :| 0 <= i < |obs| && HasValue(obs[i]) && obs[i].date.None?;
        MissingDateEmptiesHistory(apiKey, obs, parse, i);
      } else {
        HistoryIsFilteredSubsequence(apiKey, obs, parse);
        var ix := EmitPositions(FilterSteps(obs, parse));
        forall p | p in out
          ensures exists i :: 0 <= i < |obs| && Kept(obs[i], parse) && PointOf(obs[i], parse) == p
        {
          var j :| 0 <= j < |out| && out[j] == p;
          assert Kept(obs[ix[j]], parse) && PointOf(obs[ix[j]], parse) == p;
        }
      }
    }
  }

  /** Three observations, the middle one missing ('.'), give two points. */
  lemma FilterExample(d1: string, d2: string, d3: string, parse: string -> Option<real>)
    requires parse("5.0") == Some(5.0) && parse("6.0") == Some(6.0)
    ensures SeriesHistory("key", Fetched([RawObs(Some(d1), Text("5.0")),
                                          RawObs(Some(d2), Text(".")),
                                          RawObs(Some(d3), Text("6.0"))]), parse)
         == [Point(d1, 5.0), Point(d3, 6.0)]
  {
    var obs := [RawObs(Some(d1), Text("5.0")), RawObs(Some(d2), Text(".")), RawObs(Some(d3), Text("6.0"))];
    var steps := FilterSteps(obs, parse);
    assert steps == [Emit(Point(d1, 5.0)), Skip, Emit(Point(d3, 6.0))];
    assert steps[..1] == [] + [steps[0]];
    RunSnoc([], steps[0]);
    assert steps[..2] == steps[..1] + [steps[1]];
    RunSnoc(steps[..1], steps[1]);
    assert steps == steps[..2] + [steps[2]];
    RunSnoc(steps[..2], steps[2]);
  }

  /** When no usable pair has a zero year-ago value or a missing date, no
      iteration of the YoY loop raises. */
  lemma YoyNoRaise(obs: seq<RawObs>, parse: string -> Option<real>)
    requires forall i :: YoyLag <= i < |obs| && YoyPairParses(obs, i, parse) ==>
               parse(obs[i - YoyLag].value.text).value != 0.0 && obs[i].date.Some?
    ensures Run(YoySteps(obs, parse)).Some?
  {
    var steps := YoySteps(obs, parse);
    assert Raise !in steps by {
      forall k | 0 <= k < |steps| ensures steps[k] != Raise {
        YoyStepCases(obs, k + YoyLag, parse);
      }
    }
    RunFailsIffRaise(steps);
  }

  /** When no position raises, the uncapped YoY list holds one point per
      emitting position i >= 12, in increasing position order, each dated by
      observations[i] and valued by the change from position i - 12 (by
      position, not by date); the result is its last min(24, length)
      points. */
  lemma YoyHistoryShape(apiKey: string, obs: seq<RawObs>, parse: string -> Option<real>)
    requires apiKey != ""
    requires forall i :: YoyLag <= i < |obs| && YoyPairParses(obs, i, parse) ==>
               parse(obs[i - YoyLag].value.text).value != 0.0 && obs[i].date.Some?
    ensures Run(YoySteps(obs, parse)).Some?
    ensures var out := Run(YoySteps(obs, parse)).value;
            var ix := EmitPositions(YoySteps(obs, parse));
            && |out| == |ix| <= YoyIterations(|obs|)
            && (forall j :: 0 <= j < |ix| ==>
                  YoyLag <= ix[j] + YoyLag < |obs| && YoyEmits(obs, ix[j] + YoyLag, parse)
                  && out[j] == YoyPoint(obs, ix[j] + YoyLag, parse))
            && (forall j, k :: 0 <= j < k < |ix| ==> ix[j] < ix[k])
            && (forall i :: YoyLag <= i < |obs| && YoyEmits(obs, i, parse) ==> i - YoyLag in ix)
            && InflationYoyHistory(apiKey, Fetched(obs), parse) == CapLast(out, YoyCap)
  {
    YoyNoRaise(obs, parse);
    YoyOutputShape(obs, parse);
  }

  /** The positional part of YoyHistoryShape, for any run that does not raise. */
  lemma YoyOutputShape(obs: seq<RawObs>, parse: string -> Option<real>)
    requires Run(YoySteps(obs, parse)).Some?
    ensures var out := Run(YoySteps(obs, parse)).value;
            var ix := EmitPositions(YoySteps(obs, parse));
            && |out| == |ix|
            && (forall j :: 0 <= j < |ix| ==>
                  YoyLag <= ix[j] + YoyLag < |obs| && YoyEmits(obs, ix[j] + YoyLag, parse)
                  && out[j] == YoyPoint(obs, ix[j] + YoyLag, parse))
            && (forall i :: YoyLag <= i < |obs| && YoyEmits(obs, i, parse) ==> i - YoyLag in ix)
  {
    var steps := YoySteps(obs, parse);
    var ix := EmitPositions(steps);
    RunOutput(steps);
    forall j | 0 <= j < |ix|
      ensures YoyEmits(obs, ix[j] + YoyLag, parse)
      ensures steps[ix[j]].point == YoyPoint(obs, ix[j] + YoyLag, parse)
    {
      YoyStepCases(obs, ix[j] + YoyLag, parse);
    }
    forall i | YoyLag <= i < |obs| && YoyEmits(obs, i, parse)
      ensures i - YoyLag in ix
    {
      YoyStepCases(obs, i, parse);
      assert steps[i - YoyLag].Emit?;
    }
  }

  /** The YoY history never has more than 24 points, nor more than one per
      observation beyond the first twelve; 12 or fewer observations give []. */
  lemma YoyHistoryBounded(apiKey: string, obs: seq<RawObs>, parse: string -> Option<real>)
    ensures |InflationYoyHistory(apiKey, Fetched(obs), parse)| <= YoyCap
    ensures |InflationYoyHistory(apiKey, Fetched(obs), parse)| <= YoyIterations(|obs|)
    ensures |obs| <= YoyLag ==> InflationYoyHistory(apiKey, Fetched(obs), parse) == []
  {
  }

  /** A zero year-ago reading (or a missing date) at any position raises past
      the inner handler, and the whole YoY history is []. */
  lemma YoyRaiseEmptiesHistory(apiKey: string, obs: seq<RawObs>, parse: string -> Option<real>, i: int)
    requires YoyLag <= i < |obs| && YoyPairParses(obs, i, parse)
    requires parse(obs[i - YoyLag].value.text).value == 0.0 || obs[i].date.None?
    ensures InflationYoyHistory(apiKey, Fetched(obs), parse) == []
  {
    var steps := YoySteps(obs, parse);
    assert steps[i - YoyLag] == YoyStep(obs, i, parse) == Raise;
    RunFailsIffRaise(steps);
  }

  /** Twelve flat readings of 100 followed by 110 give one point, +10%, dated
      by the last observation. */
  lemma YoyExample(obs: seq<RawObs>, parse: string -> Option<real>)
    requires |obs| == 13
    requires forall j :: 0 <= j < 12 ==> obs[j].value == Text("100")
    requires obs[12].value == Text("110") && obs[12].date.Some?
    requires parse("100") == Some(100.0) && parse("110") == Some(110.0)
    ensures InflationYoyHistory("key", Fetched(obs), parse) == [Point(obs[12].date.value, 10.0)]
  {
    var step := YoyStep(obs, 12, parse);
    assert obs[0].value == Text("100");
    assert YoyChange(110.0, 100.0) == 10.0;
    YoyStepCases(obs, 12, parse);
    assert step.Emit? && step.point == Point(obs[12].date.value, 10.0);
    assert YoySteps(obs, parse) == [] + [step];
    RunSnoc([], step);
  }

  // ---------------------------------------------------------------------------
  // The single-point readers against the history readers
  // ---------------------------------------------------------------------------

  /** fetch_fred_data's point is the one the history filter would keep for the
      same first observation (given that float('.') fails). */
  lemma LatestMatchesFilter(obs: seq<RawObs>, parse: string -> Option<real>, p: Point)
    requires parse(".") == None
    ensures FetchFredData(Fetched(obs), parse) == Returns(Some(p)) <==>
              obs != [] && FilterStep(obs[0], parse) == Emit(p)
  {
    if obs != [] && obs[0].value.Text? && obs[0].value.text == "." {
      assert FloatOf(obs[0].value, parse) == Raises(ValueError);
    }
  }

  /** On the same thirteen monthly readings, fetch_inflation_yoy over the
      newest-first list returns v exactly when the YoY history over the
      oldest-first list is the single point v (given that float fails on ''
      and '.'). */
  lemma CurrentYoyMatchesHistory(apiKey: string, asc: seq<RawObs>, desc: seq<RawObs>,
                                 parse: string -> Option<real>, v: real)
    requires apiKey != ""
    requires |asc| == 13 && |desc| == 13
    requires forall i :: 0 <= i < 13 ==> desc[i] == asc[12 - i]
    requires asc[12].date.Some?
    requires parse("") == None && parse(".") == None
    ensures FetchInflationYoy(Fetched(desc), parse) == Returns(Some(v)) <==>
              InflationYoyHistory(apiKey, Fetched(asc), parse) == [Point(asc[12].date.value, v)]
  {
    var step := YoyStep(asc, 12, parse);
    YoyStepCases(asc, 12, parse);
    assert YoySteps(asc, parse) == [] + [step];
    RunSnoc([], step);
    assert InflationYoyHistory(apiKey, Fetched(asc), parse) == if step.Emit? then [step.point] else [];
    assert desc[0] == asc[12] && desc[12] == asc[0];
    FloatOfUsable(asc[12].value, parse);
    FloatOfUsable(asc[0].value, parse);
  }

  /** When float fails on '' and '.', float(v) succeeds exactly on the values
      the YoY loop's truthiness and '.' test lets through and that parse. */
  lemma FloatOfUsable(v: RawValue, parse: string -> Option<real>)
    requires parse("") == None && parse(".") == None
    ensures FloatOf(v, parse).Returns? <==> Usable(v) && parse(v.text).Some?
  {
  }

  /** The two fed-stance mappings agree on every non-zero rate; at exactly
      0.0 the snapshot gives None while the history gives -2.5. */
  lemma StanceMappingsAgree(d: string, rate: real)
    ensures rate != 0.0 ==> CurrentFedStance(Some(rate)) == Some(FedStanceHistory([Point(d, rate)])[0].value)
    ensures rate == 0.0 ==> CurrentFedStance(Some(rate)) == None
                            && FedStanceHistory([Point(d, rate)])[0].value == -NeutralRate
  {
  }
}
