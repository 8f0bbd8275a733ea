# Flood forecasting service — a Dafny model

This project models the computational core of a small flood-monitoring web
service for river gauging stations (Hub'Eau "hydrométrie" data, Isère and
Savoie departments). It covers two parts of the service:

**The forecast service.** It covers `ForecastService`:
- the algorithm registry;
- the cleaning of raw observation records into a series of positive discharges;
- the three forecasting strategies (simple trend, seven-sample moving average with a damped trend, least-squares linear regression);
- the uncertainty band built from the coefficient of variation of the last 24 samples;
- the entry point `generate_forecast`, which ties these together.

**The pure parts of the data routes.** These are:
- the site filter of `get_sites`;
- the filter, relevance score, stable descending sort and truncation of `search_sites`;
- the litres-per-second to cubic-metres-per-second conversion applied to historical and real-time observations.

Floats are modelled as Dafny `real`, so all arithmetic is exact; the one
rounding modelled is the conversion's `round(…, 3)`, written out as
`Conversion.Round3`. Python
crashes that the code can reach are modelled as `Result` failures (`Series.Fault`):
- `data[-1]` on an empty list;
- `statistics.mean([])`;
- an unbound `variance` for a single sample.

`statistics.stdev` needs a square root, which Dafny's reals do not provide.
Every member that uses it takes a function `sqrt` constrained by
`Series.IsSqrt`. `Series.StdevUnique` and `Service.SqrtIrrelevant` show that
the results do not depend on which such function is passed.

Modules, one per file:

| module | file | models |
|---|---|---|
| `Results` | results.dfy | `Option` and `Result` |
| `Series` | series.dfy | horizon, windows, sum, mean, sample variance, stdev, the `0.95 ** i` decay |
| `Cleaner` | cleaner.dfy | `_clean_historical_data` |
| `SimpleTrend` | simple_trend.dfy | `_simple_trend_forecast` |
| `MovingAverage` | moving_average.dfy | `_moving_average_forecast` |
| `LinearRegression` | linear_regression.dfy | `_linear_regression_forecast` |
| `Bounds` | bounds.dfy | `_calculate_min_max_bounds` |
| `Algorithms` | algorithms.dfy | the registry: `__init__`, the getters, `set_algorithm` |
| `Service` | service.dfy | `generate_forecast` |
| `Text` | text.dfy | `lower`, `in`, `startswith` on strings |
| `Lists` | lists.dfy | filtering, `s[:limit]`, the stable `sort(reverse=True)` |
| `Sites` | sites.dfy | the site filters of `get_sites` and `search_sites` |
| `Conversion` | conversion.dfy | the ÷1000 unit conversion of the observation routes |

Behaviour of the code worth noting:
- **Choice of field.** The cleaner takes the first *truthy* field among `resultat_obs_elab`, `resultat_obs`, `valeur`. A field holding `0` or `""` falls through to the next.
- **Unparsable field.** A truthy field that does not parse drops the whole record. The next field is not tried.
- **Horizon.** `hours` may be zero or negative. Python's `range(hours)` and `[x] * hours` then give an empty forecast, which `Series.Horizon` models.
- **Negative limits.** A negative `limit` in the site routes slices from the end, as Python's `s[:limit]` does. `Lists.Take` models this.

## Model

| member | source | states |
|---|---|---|
| Series.Window | src/services/forecast_service.py:140 | the window is the last `min(cap, n)` samples of the series, a suffix of it |
| Series.Stdev | src/services/forecast_service.py:160 | the standard deviation is non-negative, its square is the sample variance (divisor n−1), and it is zero exactly when all samples are equal |
| Series.VarianceZeroIffFlat | src/services/forecast_service.py:159-161 | the sample variance is never negative and is zero if and only if the window is flat, which is when the `variance > 0` guard fails |
| Series.StdevUnique | src/services/forecast_service.py:160 | any two admissible square roots give the same standard deviation, so the model's square-root parameter is not a free choice |
| Series.DecayDecreasing | src/services/forecast_service.py:168 | the factor `0.95 ** i` strictly decreases with `i` |
| Cleaner.Clean | src/services/forecast_service.py:108-132 | every cleaned value is strictly positive and there is at most one per record |
| Cleaner.Normalise | src/services/forecast_service.py:123-127 | a value above 1000 is read as L/s and divided by 1000 (the result times 1000 gives the value back), a value up to 1000 is kept, and the result stays positive and never grows |
| Cleaner.CleanAppend | src/services/forecast_service.py:112-130 | cleaning works record by record: cleaning a concatenation is the concatenation of the cleanings, so order is kept |
| Cleaner.SkippedRecord | src/services/forecast_service.py:129-130 | a record that yields nothing (missing, non-positive or unparsable value) is skipped without affecting the records around it |
| Cleaner.CleanMembers | src/services/forecast_service.py:112-127 | a value is in the cleaned series if and only if some record yields it |
| Cleaner.FieldPriority | src/services/forecast_service.py:116-121 | `resultat_obs_elab` decides when truthy, otherwise `resultat_obs` when truthy, otherwise `valeur`, and a record with no truthy field yields nothing |
| Cleaner.SingleField | src/services/forecast_service.py:115-127 | a record with only `resultat_obs_elab` yields its normalised value exactly when that value parses and is positive |
| Cleaner.UnparsableDoesNotFallThrough | src/services/forecast_service.py:116-130 | an unparsable first field drops the record even when a later field holds a good value |
| Cleaner.NormaliseExamples | src/services/forecast_service.py:125-126 | 500 and 1000 are kept, 1000.1 becomes 1.0001 and 1500 becomes 1.5 |
| Cleaner.MixedBatchExample | src/services/forecast_service.py:108-132 | records whose `valeur` is 5, 0, −3, unparsable and 7 clean to exactly [5, 7], in order |
| SimpleTrend.Forecast | src/services/forecast_service.py:134-150 | fails (index out of range) exactly on an empty series, repeats the single sample of a one-sample series, and otherwise gives one non-negative value per hour of the horizon |
| SimpleTrend.StepsMonotone | src/services/forecast_service.py:146-148 | the clamped straight line is non-decreasing for a non-negative slope and non-increasing for a non-positive one |
| SimpleTrend.SlopeSign | src/services/forecast_service.py:140-141 | the trend has the sign of the last sample minus the first sample of the seven-sample window |
| SimpleTrend.LevelWindowPersists | src/services/forecast_service.py:140-148 | when the window starts and ends at the same level the forecast repeats the last sample |
| SimpleTrend.RisingWindowNeverFalls | src/services/forecast_service.py:140-148 | when the window ends no lower than it starts the forecast never decreases |
| SimpleTrend.FallingWindowNeverRises | src/services/forecast_service.py:140-148 | when the window ends no higher than it starts the forecast never increases |
| SimpleTrend.SteadyRiseUnderestimated | src/services/forecast_service.py:140-141 | for a window rising by `d` per sample, the trend is `d·(w−1)/w`, not `d`, because it divides by the window length and not the number of steps |
| MovingAverage.Forecast | src/services/forecast_service.py:152-172 | fails exactly on an empty series (mean of nothing) or on one sample with a positive horizon (unbound `variance`); otherwise gives one non-negative value per hour |
| MovingAverage.TrendTimesStdev | src/services/forecast_service.py:159-169 | the trend factor multiplied back by the standard deviation is the last sample minus the window mean, including when the deviation is zero |
| MovingAverage.StdevCancels | src/services/forecast_service.py:152-172 | for two or more samples the forecast equals the mean plus the damped gap between the last sample and the mean, clamped at 0, with no standard deviation involved |
| MovingAverage.FirstStepIsLastSample | src/services/forecast_service.py:166-170 | the first forecast hour is the last sample itself (when it is non-negative) |
| MovingAverage.FlatWindowIsConstant | src/services/forecast_service.py:152-172 | a flat window forecasts its own level, which is both the mean and the last sample, at every hour |
| MovingAverage.DampFades | src/services/forecast_service.py:168-169 | the damped gap keeps its sign and never exceeds the undamped one |
| MovingAverage.BetweenMeanAndLast | src/services/forecast_service.py:152-172 | for positive data every forecast value lies between the window mean and the last sample, and moves monotonically from the latter towards the former |
| MovingAverage.ForecastUnique | src/services/forecast_service.py:160 | the forecast does not depend on which admissible square root is used |
| LinearRegression.Forecast | src/services/forecast_service.py:174-204 | fails exactly on an empty series, repeats a single sample, and otherwise gives one value per hour of the horizon |
| LinearRegression.FitLine | src/services/forecast_service.py:185-195 | the fitted line passes through the centroid (mean index, mean value) |
| LinearRegression.DenominatorPositive | src/services/forecast_service.py:189-191 | for two or more samples the sum of squared index deviations is strictly positive |
| LinearRegression.FallbackUnreachable | src/services/forecast_service.py:191-192 | with two or more samples the zero-denominator fallback is never taken: the forecast is the fitted line extended past the data |
| LinearRegression.NonNegative | src/services/forecast_service.py:198-202 | every extrapolated value is clamped at zero |
| LinearRegression.NumeratorOnLine | src/services/forecast_service.py:184-188 | for samples on a line of slope `a`, the sum of products of deviations is `a` times the sum of squared index deviations |
| LinearRegression.FitsLine | src/services/forecast_service.py:185-195 | data lying exactly on a line `a·k + b` is fitted by that very line |
| LinearRegression.ExtendsLine | src/services/forecast_service.py:174-204 | data on a line is continued along that line (clamped at zero) at indices n, n+1, … |
| LinearRegression.ConstantPersists | src/services/forecast_service.py:174-204 | a constant non-negative series forecasts the same constant at every hour |
| LinearRegression.ResidualsSumToZero | src/services/forecast_service.py:185-195 | the residuals of the fit sum to zero (first normal equation of least squares) |
| LinearRegression.ResidualsUncorrelated | src/services/forecast_service.py:185-195 | the residuals are uncorrelated with the index (second normal equation), so the fit is the least-squares line |
| LinearRegression.SevenSampleExample | src/services/forecast_service.py:174-204 | the series 10, 12, 11, 13, 12, 14, 13 gives slope 1/2 and intercept 149/14, and the three-hour forecast 99/7, 205/14, 106/7 |
| Bounds.Cv | src/services/forecast_service.py:215-224 | the coefficient of variation is non-negative, is 0.2 when the mean of the last 24 samples is not positive, and otherwise times that mean gives their standard deviation |
| Bounds.Calculate | src/services/forecast_service.py:206-244 | one lower and one upper bound per forecast value, and with two or more historical samples every lower bound is non-negative |
| Bounds.Brackets | src/services/forecast_service.py:230-236 | every non-negative forecast value lies between its lower and upper bound |
| Bounds.ShortHistory | src/services/forecast_service.py:208-212 | with fewer than two historical samples the band is 80 % to 120 % of the forecast value |
| Bounds.Symmetric | src/services/forecast_service.py:234-236 | when the lower bound is not clamped, the band is symmetric around the forecast value |
| Bounds.VariationGrows | src/services/forecast_service.py:232-234 | the variation strictly grows with the forecast hour (5 % more uncertainty per hour) |
| Bounds.CvPositive | src/services/forecast_service.py:215-222 | when the last 24 samples are not all equal the coefficient of variation is strictly positive |
| Bounds.Widens | src/services/forecast_service.py:230-236 | for an unchanged positive forecast value and a non-flat history, a later hour has a strictly higher upper bound, a lower bound no higher, and a strictly wider band |
| Bounds.FlatHistoryCollapses | src/services/forecast_service.py:215-236 | a flat positive history gives zero variation, so both bounds equal the forecast value |
| Bounds.CalculateUnique | src/services/forecast_service.py:218 | the band does not depend on which admissible square root is used |
| Algorithms.Names | src/services/forecast_service.py:32 | the names listed in the error message are the registry's keys, one per algorithm, in declaration order |
| Algorithms.Available | src/services/forecast_service.py:21-23 | the mapping returned by `get_available_algorithms` sends each algorithm's name to its label and has no other key |
| Algorithms.Current | src/services/forecast_service.py:25-27 | the current name is always a registered name and names the current algorithm |
| Algorithms.Lookup | src/services/forecast_service.py:31 | a name is found if and only if it is registered, and the algorithm found carries that name |
| Algorithms.SetAlgorithm | src/services/forecast_service.py:29-33 | the selection succeeds if and only if the name is registered, and then makes it current; otherwise it raises the invalid-algorithm error listing the registered names and leaves the registry unchanged |
| Algorithms.NamesRoundTrip | src/services/forecast_service.py:15-19 | every algorithm's name is registered and looks up to that algorithm |
| Algorithms.NamesAndLabelsDistinct | src/services/forecast_service.py:15-19 | different algorithms have different names and different labels |
| Algorithms.SelectByName | src/services/forecast_service.py:29-33 | selecting an algorithm by its name succeeds and makes it current, and selecting it again changes nothing |
| Algorithms.DeclaredNames | src/services/forecast_service.py:13-19 | the registered names are `simple`, `moving_average`, `linear_regression`, and a fresh service starts on `moving_average` |
| Service.Run | src/services/forecast_service.py:66-74 | a strategy run on two or more clean samples never fails and gives one non-negative value per hour of the horizon |
| Service.Points | src/services/forecast_service.py:83-91 | each forecast point pairs the i-th value with the i-th lower and upper bound and carries the algorithm label |
| Service.Produce | src/services/forecast_service.py:50-100 | no records gives the "no historical data" error, fewer than two clean samples gives "insufficient data", and otherwise the report names the algorithm, counts one point per hour, records the number of samples used, and every point has `0 ≤ min ≤ value ≤ max` |
| Service.Select | src/services/forecast_service.py:47-48 | a missing or empty override leaves the registry alone; any other override is applied through `set_algorithm` |
| Service.GenerateForecast | src/services/forecast_service.py:47-106 | the call raises if and only if a non-empty override names no algorithm, and then the registry is unchanged; a valid override becomes and stays current; otherwise the result is the forecast of the current algorithm |
| Service.NoInternalError | src/services/forecast_service.py:102-106 | the catch-all handler never fires: no strategy fault reaches the response |
| Service.PointsFollowStrategy | src/services/forecast_service.py:66-91 | each reported point is the strategy's value on the cleaned series with that value's band |
| Service.OverridePersists | src/services/forecast_service.py:47-54 | a valid override is applied and kept even when the data is then empty and no forecast is made |
| Service.SqrtIrrelevant | src/services/forecast_service.py:160 | the whole response is the same for every admissible square root |
| Text.Lower | src/routes/flood_data.py:110 | lower-casing keeps the length and maps each upper-case ASCII letter to its lower-case letter and every other character to itself |
| Text.LowerIdempotent | src/routes/flood_data.py:128-130 | lower-casing twice is lower-casing once, and leaves no upper-case letter |
| Text.StartsWithContains | src/routes/flood_data.py:132-133 | a name that starts with the term also contains it, so the prefix bonus only applies to names that matched |
| Text.EmptyEverywhere | src/routes/flood_data.py:119-122 | the empty term occurs in, and starts, every string |
| Lists.Filter | src/routes/flood_data.py:111-123 | the filter keeps only elements that pass the test, and never more than it was given |
| Lists.FilterAppend | src/routes/flood_data.py:111-123 | the filter goes element by element and keeps the input order: filtering a concatenation concatenates the filtered parts |
| Lists.FilterMultiset | src/routes/flood_data.py:111-123 | every element that passes the test is kept as often as it occurs, and no other element is kept |
| Lists.Take | src/routes/flood_data.py:144 | `s[:limit]` is a prefix of length `min(limit, n)`, or `n + limit` (at least 0) for a negative limit |
| Lists.SortDesc | src/routes/flood_data.py:143 | the sort is a permutation of its input |
| Lists.SortDescSorted | src/routes/flood_data.py:143 | the sort orders by non-increasing key |
| Lists.SortDescStable | src/routes/flood_data.py:143 | the sort is stable: elements of equal key keep their relative order |
| Lists.SortDescOfSorted | src/routes/flood_data.py:143 | sorting an already sorted list leaves it unchanged |
| Sites.Read | src/routes/flood_data.py:114-117 | a missing or null field reads as the empty string, a string field as its lower-cased text |
| Sites.RelevanceScore | src/routes/flood_data.py:126-141 | the score lies between 0 and 135 |
| Sites.ScoreDecodes | src/routes/flood_data.py:126-141 | the score determines the reasons: its 100 or 50 part says whether the name starts with or contains the term, its 25 part whether the river does, and its 10 part whether the commune does |
| Sites.CodeOnlyMatch | src/routes/flood_data.py:119-141 | a site that matches only by its code is kept but scores zero |
| Sites.SearchSites | src/routes/flood_data.py:110-144 | the result is the prefix of the ranked matches of exactly the length `s[:limit]` gives (`min(limit, n)` for a non-negative limit, `n + limit` floored at 0 for a negative one), each one a given site that matches the lower-cased term |
| Sites.RankedMembers | src/routes/flood_data.py:111-143 | every ranked site is a given site that matches |
| Sites.RankedKeepsMatches | src/routes/flood_data.py:111-143 | every matching site is ranked as often as it was given, and no other site is ranked |
| Sites.SearchOrdered | src/routes/flood_data.py:143-144 | search results come in non-increasing relevance |
| Sites.RankedStable | src/routes/flood_data.py:143 | sites of equal relevance keep the order the upstream API gave them |
| Sites.NothingCut | src/routes/flood_data.py:144 | a limit of at least the number of sites returns every match |
| Sites.EmptySearchKeepsOrder | src/routes/flood_data.py:110-144 | an empty term matches every site with the same score, so the result is the first `limit` sites in upstream order |
| Sites.GetSites | src/routes/flood_data.py:52-64 | the result is the prefix of the listing (all sites for an empty term, otherwise the listed ones in upstream order) of exactly the length `s[:limit]` gives; for a non-empty term every site returned has the term in its name, commune or code |
| Sites.GetSitesKeepsListed | src/routes/flood_data.py:52-64 | with a limit of at least the number of sites and a non-empty term, every listed site is returned as often as upstream sent it, and no other site |
| Sites.GetSitesEmptyTerm | src/routes/flood_data.py:52-64 | an empty term skips the filter, and the result is the first `limit` sites |
| Sites.GetSitesIgnoresRiver | src/routes/flood_data.py:56-59 | the site listing does not look at the river name |
| Sites.SearchExtendsList | src/routes/flood_data.py:119-122 | the search matches exactly the sites the listing matches plus those whose river contains the term |
| Sites.ReadAsWritten | src/routes/flood_data.py:57-59 | reading a field as written fails exactly on a null field, and otherwise agrees with the null-safe read |
| Sites.ListedAsWritten | src/routes/flood_data.py:57-59 | when the as-written test succeeds and says yes, the site is listed by the corrected test |
| Sites.FilterAsWritten | src/routes/flood_data.py:52-61 | when the as-written filter succeeds it keeps only listed given sites, and when it fails some site's test crashed |
| Sites.GetSitesAsWritten | src/routes/flood_data.py:52-64 | with an empty term the as-written listing never fails and returns the first `limit` sites |
| Sites.AsWrittenAgreesWithoutNulls | src/routes/flood_data.py:52-61 | on sites with no null field the as-written filter succeeds and equals the corrected one |
| Sites.NullNameAborts | src/routes/flood_data.py:57 | a site with a null name and the term "gre" makes the as-written listing fail, while the corrected listing returns that site |
| Conversion.Thousandths | src/routes/flood_data.py:189 | `round(…, 3)` counted in thousandths: within half a thousandth of the exact value |
| Conversion.ThousandthsNearest | src/routes/flood_data.py:189 | no other count of thousandths is nearer to the exact value than the rounded one |
| Conversion.ThousandthsTie | src/routes/flood_data.py:189 | a value exactly halfway between two thousandths is rounded to the even one, as Python's `round` does |
| Conversion.ThousandthsExact | src/routes/flood_data.py:189 | a value that is already a whole number of thousandths is kept as it is |
| Conversion.Convert | src/routes/flood_data.py:185-192 | a truthy parsable discharge is divided by 1000 and rounded to three decimals, the unit becomes m³/s, and a result of 0.0 is stored as a falsy value; any other record is returned unchanged |
| Conversion.ConvertAll | src/routes/flood_data.py:240-247 | every record is converted on its own and the list keeps its length |
| Conversion.ConvertInverse | src/routes/flood_data.py:188-190 | multiplying the converted value by 1000 gives back the value read to within 0.5 L/s, and exactly for a whole number of L/s; the other discharge fields are untouched |
| Conversion.ConvertShrinks | src/routes/flood_data.py:243-244 | a positive reading keeps a value exactly when it exceeds 0.5 L/s, and that value is positive and strictly smaller; below that it rounds to a falsy 0.0 |
| Conversion.ConvertTwice | src/routes/flood_data.py:185-192 | the conversion is not idempotent: a second pass changes every value the first pass kept, and the unit stays m³/s |
| Conversion.ConvertExamples | src/routes/flood_data.py:185-192 | 2500 L/s becomes 2.5 m³/s, 1234.5678 L/s becomes 1.235, 0.4 L/s becomes a falsy 0.0 with the unit set, 1234 L/s converted twice becomes 0.001, and an unparsable reading is left alone |

## Left out

- **Timestamps.** `datetime.now()`, `timedelta` and `isoformat` are not modelled. Each point's time is the i-th hour after the call, which the model leaves implicit in the point's position.
- **Rounding of forecasts.** `round(…, 3)` on forecast values and their bounds is not modelled. The rounding of converted discharges is (`Conversion.Round3`), on the exact value of the quotient.
  - Service.Points: values and bounds are exact reals, not rounded to three decimals, because rounding would hide the exact relations the other contracts state.
- **Floating point.** Overflow, NaN, infinities and the rounding error of float arithmetic (in `value_ls / 1000.0`, say) are out of scope: the model uses exact reals. So is the `int` 0 that `max(0, x)` returns instead of a float.
- **Square root.** `math`'s square root inside `statistics.stdev` is a parameter constrained by `Series.IsSqrt`. `Service.SqrtIrrelevant` shows that no result depends on it.
- **Field values.** Python's truth test and `float()` parsing are abstracted into four kinds of field value (absent, falsy, unparsable, number). The parser itself is not modelled.
- **Site fields.** Non-string site fields (a number in `code_site`, say) are not modelled. A field is missing, null or a string.
- **Lower-casing.** `str.lower` is modelled on ASCII letters only. Other Unicode case mappings are not.
- **Unknown current algorithm.** The fallback branch at forecast_service.py:73-74 cannot be represented. The current algorithm is one of the three registered values, and `set_algorithm` never stores anything else.
- **Coefficient-of-variation default.** The `else: cv = 0.2` branch at forecast_service.py:223-224 is dead code, because the band code only gets there with two or more samples. `Bounds.Cv` requires two samples.
- **Concurrency.** The service is one process-wide object (flood_data.py:17) and `generate_forecast` reads `self.current_algorithm` again for the labels at forecast_service.py:90 and :95. Under concurrent requests another request's `set_algorithm` could land in between, and the label could name a different algorithm than the one that ran at forecast_service.py:67-74. The model passes the registry as a value through one call at a time, so `Service.Produce` uses one algorithm `a` throughout; its agreement of label and strategy holds only for calls that do not overlap.
- **Mutable registry.** `get_available_algorithms` returns the service's own dictionary, so a caller could mutate it. The model returns a value and does not model that aliasing.
- **Messages.** The error messages are represented by their constructors, not by the French strings. `periode_prevision` is kept as the integer `hours` rather than the text `"{hours} heures"`.
- **HTTP layer.** Flask routing, `request.args` parsing (`int(limit)`, `all_departments`), the Hub'Eau `requests.get` calls, `raise_for_status`, JSON envelopes and HTTP status codes are all out of scope. The routes' other response fields (`total_available`, the `period` dates) are too. The model takes the list the API returned as input.
- **Other routes.** `health_check`, `get_forecast` and the two algorithm routes (flood_data.py:19-27 and 266 onwards) are HTTP wrappers around the service. They fetch data, parse parameters and map outcomes to status codes, and are not part of this model. The service they call is.

## Findings

| source | as written | input that shows it | evidently intended | confidence | as-written member | corrected member |
|---|---|---|---|---|---|---|
| src/routes/flood_data.py:57-59 | the site listing reads each field with `site.get(k, '').lower()`; a field that is present but null is not replaced by `''`, so `.lower()` raises and the whole request answers with an internal error | a site whose `libelle_site` is null (commune "Grenoble", code "W1410010") and the search term "gre" | treat a null field as the empty string, as the dedicated search does at flood_data.py:114-117 | medium, not executed | Sites.GetSitesAsWritten (shown by Sites.NullNameAborts) | Sites.GetSites (agrees wherever no field is null: Sites.AsWrittenAgreesWithoutNulls) |
