# Macro dashboard core in Dafny

This project models the three pieces of pure logic in a macro-economic
dashboard. Around them, everything else is API calls.

- **The regime scorer** (`Signals.calculate_macro_regime_score`). Seven
  readings go in. Six sub-scores are each clamped on their own, combined by a
  fixed weighted average, and the sum is rounded to one decimal. The model
  works over mathematical reals (module `Signals`, file `signals.dfy`).
- **The series shaping of `MacroDataFetcher`** (module `DataFetcher`, file
  `data_fetcher.dfy`):
  - the observation filter of `fetch_fred_series_history`;
  - the year-over-year loop and 24-point cap of `fetch_inflation_yoy_history`;
  - the fed-stance mapping in `fetch_all_historical` and `fetch_all_data`;
  - the single-point readers `fetch_fred_data` and `fetch_inflation_yoy`, and
    the constant `estimate_neutral_rate` (`NeutralRate`, 2.5).
- **The trade rule `calculate_signal`** of `app.py` (module `App`, file
  `app.dfy`).

Each provider response is an input value (`Observations.Response`). It is one
of four things: a failed request, a JSON body with no `observations` key, a
body whose `observations` is `null`, or a list of raw records. A raw record's `value` may be absent, `null` or a
string. Its `date` may be absent. Python's `float(v)` is the function
parameter `parse: string -> Option<real>`, where `None` is a `ValueError`. The
FRED key is the parameter `apiKey`. A Python exception is the `Raises` case
of `Wrappers.Outcome`.

Both history loops share one model. `Observations.Step` says what one
iteration does: skip, append a point, or raise an exception that escapes the
inner handler. `Observations.Run` runs the iterations in order and yields
`None` as soon as one raises. The outer `except Exception` then turns that
`None` into `[]`.

Each loop is a Dafny method with the loop the source has. It is proved equal
to a specification function: `SeriesHistory` or `InflationYoyHistory`. The
source's promises are then proved as lemmas about those functions.

Behaviour the model keeps exactly as the code has it:

- **No sorting.** The history filter keeps input order. It relies on the
  request's `sort_order: asc`.
- **A zero year-ago value is not skipped.** It raises `ZeroDivisionError`.
  The inner handler only catches `ValueError` and `TypeError`, so the
  exception escapes it, and the whole YoY history becomes `[]`.
- **A missing `date` key empties the list.** A value-bearing observation
  without `date` raises `KeyError`, and the list becomes `[]` the same way.
- **YoY pairs go by position.** Each reading is paired with the observation
  12 positions earlier, not with the one dated a year earlier.
- **`fed_stance` in the snapshot is `None` when the rate is exactly 0.0.**
  The code writes `fed_funds - neutral if fed_funds else None`, a truthiness
  test, so a 0.0 rate counts as missing. The history mapping has no such
  test and gives -2.5 there.
- **A worked reading.** The reading (4.4, 2.65, 4.1, 10, 1.92, 0.15, 2.0)
  scores 69.4. Its yield-curve sub-score is 50 + 0.15 × 0.5 = 50.075, so the
  composite is 69.44… (`Signals.ExampleReading`).

## Model

| member | source | states |
|---|---|---|
| `Signals.GrowthScore` | signals.py:14 | in [0,100]; 0 for growth ≤ 0, 100 for growth ≥ 6, strictly between for growth strictly between |
| `Signals.InflationScore` | signals.py:17-18 | in [0,100] although only the lower clamp is written; equals 100 exactly when inflation is 2.0 |
| `Signals.EmploymentScore` | signals.py:21-26 | in [0,100]; 100 exactly on the closed band [3.5, 4.5]; 80 below 3.5; 0 from 9.5 up |
| `Signals.ManufacturingScore` | signals.py:29 | in [0,100]; 50 at index 0; saturates at ±25 |
| `Signals.CurveScore` | signals.py:32 | in [0,100]; 50 at spread 0; saturates at ±100 |
| `Signals.FedScore` | signals.py:35 | in [0,100]; 100 exactly at stance 0; 0 whenever the stance's magnitude is at least 2.5 |
| `Signals.GrowthMonotone` | signals.py:14 | the growth score never falls as growth rises |
| `Signals.InflationSymmetric` | signals.py:17-18 | 2+d and 2−d give the same inflation score |
| `Signals.InflationUnimodal` | signals.py:17-18 | moving away from 2% in either direction never raises the score |
| `Signals.EmploymentStrictlyDecreasingAboveBand` | signals.py:25-26 | strictly decreasing on (4.5, 9.5] and below 100 there |
| `Signals.EmploymentBoundaries` | signals.py:21-26 | 3.5 and 4.5 score 100, 3.49 scores 80, 5.5 scores 80 |
| `Signals.ManufacturingMonotone` | signals.py:29 | non-decreasing in the manufacturing index |
| `Signals.CurveMonotone` | signals.py:32 | non-decreasing in the spread |
| `Signals.FedDependsOnlyOnMagnitude` | signals.py:35 | stances of equal magnitude give equal scores |
| `Signals.WeightedAverage` | signals.py:38-45 | the composite lies between the smallest and the largest sub-score; six equal sub-scores give that value (weights are non-negative and sum to 1) |
| `Signals.WeightsSumToOne` | signals.py:38-45 | 0.25+0.20+0.15+0.15+0.15+0.10 = 1 |
| `Signals.RegimeComposite` | signals.py:11-45 | the unrounded composite of the six sub-scores lies in [0,100] |
| `Signals.RoundHalfEven` | signals.py:47 | the whole number chosen is within 0.5 of its argument (exact ties go to the even one) |
| `Signals.RoundTenth` | signals.py:47 | round(x, 1): a whole number of tenths within 0.05 of x |
| `Signals.RoundTenthNearest` | signals.py:47 | no tenth is closer to x than the rounded value |
| `Signals.RoundTenthTiesToEven` | signals.py:47 | an exact tie goes to the even tenth |
| `Signals.RoundTenthMonotone` | signals.py:47 | rounding preserves ≤ |
| `Signals.RoundTenthOfTenth` | signals.py:47 | a tenth is left unchanged, so rounding is idempotent |
| `Signals.RoundTenthKeepsBounds` | signals.py:47 | a value in [0,100] rounds into [0,100] |
| `Signals.MacroRegimeScore` | signals.py:7-47 | the returned score is a tenth in [0,100], within 0.05 of the unrounded composite |
| `Signals.RealRateIgnored` | signals.py:7-9 | calls that differ only in real_rate return equal scores |
| `Signals.ScoreMonotone` | signals.py:14-47 | more growth, manufacturing or curve slope never lowers the rounded score |
| `Signals.ExampleReading` | signals.py:11-47 | the reading (4.4, 2.65, 4.1, 10, 1.92, 0.15, 2.0) has composite 166667/2400 and score 69.4 |
| `Observations.Run` | data_fetcher.py:66-75 | the appended list is never longer than the number of iterations |
| `Observations.RunFailsIffRaise` | data_fetcher.py:62-77 | the loop's result is lost exactly when some iteration raises past the inner handler |
| `Observations.EmitPositions` | data_fetcher.py:66-75 | the appending positions: in range, strictly increasing, and containing every position that appends |
| `Observations.RunOutput` | data_fetcher.py:66-75 | without a raise, output j is the point appended at the j-th appending position |
| `DataFetcher.FetchSeriesHistory` | data_fetcher.py:44-77 | the filter loop (skip None and '.', KeyError on a missing date aborts, unparsable values skipped) returns exactly `SeriesHistory` |
| `DataFetcher.HistoriesEmptyWithoutKey` | data_fetcher.py:50-51 | with an empty key both history readers return [] whatever the response (the YoY reader's test is at data_fetcher.py:81-82) |
| `DataFetcher.HistoryIsFilteredSubsequence` | data_fetcher.py:66-75 | the history is, in input order, exactly the observations whose value is present, not '.', and parses, each with its own date and parsed value |
| `DataFetcher.MissingDateEmptiesHistory` | data_fetcher.py:71-77 | a value-bearing observation without a date makes the whole history [] |
| `DataFetcher.HistoryPointsComeFromInput` | data_fetcher.py:66-75 | every output point is some kept input observation's date and value; the output is no longer than the input |
| `DataFetcher.FilterExample` | data_fetcher.py:66-75 | ("5.0", ".", "6.0") gives the first and third points |
| `DataFetcher.CapLast` | data_fetcher.py:107 | the capped list is the last min(n, length) elements |
| `DataFetcher.FetchInflationYoyHistory` | data_fetcher.py:79-109 | the YoY loop from position 12 and the 24-point cap return exactly `InflationYoyHistory` |
| `DataFetcher.YoyChangeInverse` | data_fetcher.py:103 | rebasing the year-ago value by the change gives back the current value; the change is 0 exactly when they are equal |
| `DataFetcher.YoyStepCases` | data_fetcher.py:99-106 | one YoY iteration appends exactly when both readings are usable and parse, the year-ago value is non-zero and the date is present; it raises exactly on a usable pair with a zero year-ago value or no date |
| `DataFetcher.YoyHistoryShape` | data_fetcher.py:96-107 | without a raise, one point per emitting position i ≥ 12, in position order, dated by observation i and valued by the change from position i−12; the result is the last min(24, length) of them |
| `DataFetcher.YoyHistoryBounded` | data_fetcher.py:98-107 | at most 24 points and at most n−12; 12 or fewer observations give [] |
| `DataFetcher.YoyRaiseEmptiesHistory` | data_fetcher.py:101-109 | a zero year-ago value, or a missing date, at any usable pair makes the whole YoY history [] |
| `DataFetcher.YoyExample` | data_fetcher.py:98-107 | twelve readings of 100 then 110 give one point of 10.0 |
| `DataFetcher.FedStanceHistory` | data_fetcher.py:124 | same length and dates as the fed-funds history; each value plus 2.5 is the fed-funds value |
| `DataFetcher.FetchAllHistorical` | data_fetcher.py:111-134 | each series is its reader's result for its own response; fed_stance has the fed-funds dates and values minus 2.5 |
| `DataFetcher.CurrentFedStance` | data_fetcher.py:253 | None exactly when fed funds is None or 0.0; otherwise fed funds minus 2.5 |
| `DataFetcher.StanceMappingsAgree` | data_fetcher.py:253 | the snapshot and history mappings agree on every non-zero rate and differ at 0.0 |
| `DataFetcher.FloatOf` | data_fetcher.py:39 | float(obs['value']) returns exactly when the value is a string that parses, and returns the parsed number |
| `DataFetcher.FetchFredData` | data_fetcher.py:13-42 | None exactly for an empty or `null` observation list; a point exactly when the first observation parses and is dated, built from that observation; otherwise an exception |
| `DataFetcher.LatestMatchesFilter` | data_fetcher.py:36-42 | the latest point is the one the history filter would keep for the same first observation |
| `DataFetcher.LatestValue` | data_fetcher.py:136-142 | the single-series readers (the same shape at data_fetcher.py:186-224) return the fetched point's value, None for none, and re-raise exactly the exception `fetch_fred_data` raised |
| `DataFetcher.FetchInflationYoy` | data_fetcher.py:159-184 | None exactly for a list of at most 12 observations; otherwise the change from observation 12 to observation 0 when both parse and the year-ago value is non-zero; it raises RequestError on a failed request, KeyError without `observations`, TypeError on a `null` list, float's exception when a reading does not parse, and ZeroDivisionError on a zero year-ago value |
| `DataFetcher.CurrentYoyMatchesHistory` | data_fetcher.py:178-184 | on the same 13 readings, newest-first, the single-point YoY equals the history's only point, oldest-first |
| `DataFetcher.FetchAllData` | data_fetcher.py:234-255 | a snapshot exactly when all seven reads return; a fed-funds exception comes first; the fields are the reads, the neutral rate is 2.5, and fed_stance follows the truthiness rule |
| `App.Classify` | app.py:67-78 | BUY exactly when growth > 2, inflation < 3 and real rate < 1; SELL exactly when growth < 0 or inflation > 4; no signal exactly when neither holds; each action carries its fixed reason |
| `App.BranchOrderIrrelevant` | app.py:67-76 | the BUY and SELL conditions never both hold, so testing SELL first gives the same result |
| `App.StrictThresholds` | app.py:67-76 | growth 2, inflation 3 or real rate 1 is not BUY; growth 0 is SELL only for inflation > 4, and inflation 4 only for growth < 0 |
| `App.CalculateSignal` | app.py:58-78 | with all three readings present it is `Classify`; a missing reading raises TypeError exactly when the short-circuit evaluation reaches it; negative growth is SELL even with the others missing; whenever it returns, BUY exactly when all three readings are present and meet the BUY test, SELL exactly when BUY does not hold and growth < 0 or a present inflation > 4, and no signal otherwise |

## Left out

- HTTP traffic is not modelled. The FRED requests, the notification POST and the language-model POST are left out, and each response is an input.
- Environment and clock reads are left out: `os.getenv`, `load_dotenv` and the `datetime.now()` date windows (data_fetcher.py:52-61, data_fetcher.py:89-90). The snapshot's `timestamp` field is dropped for the same reason.
- The request parameters `sort_order`, `limit` and `observation_start`/`observation_end` are not modelled. They shape what the provider sends, and that is already an input.
- `fetch_inflation` (data_fetcher.py:144-157) is not part of this model. Nothing in the modelled core calls it.
- Floating point is not modelled: values are exact reals. `float()` on strings such as `'nan'` and `'inf'` is covered only through the abstract `parse`.
- Signals.RoundTenth: rounds the exact real value with exact ties to even. Python's `round` works on the binary double, so values that are not exactly representable can round differently.
- A raw value is only absent, `null` or a string. JSON numbers or other types in `value` are not modelled.
- A raw `date` is only absent or a string. A `date` that is present but JSON `null` is not modelled: the code would then append a point dated `None` in both history loops (data_fetcher.py:72, data_fetcher.py:104) and `fetch_fred_data` would return a record dated `None` (data_fetcher.py:40).
- The regime score has no caller: nothing in the modelled files calls `calculate_macro_regime_score`, so the model says nothing about when it is computed.
- `database.py`, `notifier.py`, `gemini_analyzer.py`, `test_setup.py` and the Flask routes of `app.py` are left out. They are glue around external services.
