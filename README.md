# YATCX parser: the derived-metrics engine in Dafny

This project models the session accessor `TcxParser` of the YATCX parser, a
reader for Garmin TCX activity files. It also models the three helper
transforms that `TcxParser` relies on, and proves properties of them.

A session reads per-trackpoint series the first time they are asked for and
keeps each one in a private cache field: powers, speeds, distances, altitudes
and heart rate. Cadences are read afresh on every access and never cached.
When the `recovery` setting is on, it fills NaN gaps by linear interpolation
in the powers, speeds, distances, altitudes, cadences, elevations and grades;
heart rate is never gap-filled. From the cached series it derives:
- moves, elevations and grades;
- total elevation;
- distance and time spent above a configured altitude threshold;
- whether the file carries power data;
- a moving mean of the power.

The model has these modules:
- `Values` (`values.dfy`): samples as `NaN | Num(r)`. Comparisons with NaN are false and arithmetic on NaN gives NaN, as with IEEE floats in numpy. Also the NaN count and the numpy-style sum.
- `GapFill` (`gap_fill.dfy`): `interpolate_nans`. The specification function `Interpolated` is the reference. The method `InterpolateNans` fills an array in place and is proved to compute `Interpolated`.
- `GradeTransform` (`grade_transform.dfy`): `calculate_grade_arcsin`. It overwrites index 0 of the caller's array; the arcsin is a parameter.
- `TreeFlattener` (`tree_flattener.dfy`): `elem2dict`, as a recursive specification `Flatten` and a loop method `Elem2Dict` proved equal to it.
- `Series` (`series.dfy`): the series and summaries as functions of the series they are computed from: moves, elevations, raw grades, altitude split, high-altitude time, total elevation, power presence and the windowed mean.
- `Parser` (`tcx_parser.dfy`): the class `TcxParser` with one `Option` cache field per metric, the configuration object `Params` that a session shares with its caller, and the constructor logic `Open`. Each accessor method states the value it returns and the new cache state as functions of the old state.
- `Scenarios` (`scenarios.dfy`): worked examples on small inputs.

The XML document is not modelled. Its query results are the fields of `Parser.Document`:
- the numeric children of each `TPX` and `HeartRateBpm` node;
- the distance, altitude and cadence values;
- the first lap distance;
- the activity element tree.

### Where the code and its description differ

In each of these cases the model follows the code:
- **A failing access leaves a cache entry behind.** `elevations` and `grades` store `[]` before reading their inputs. After a failed first access, such as an activity without altitudes, a later access returns `[]` and does not raise again. A `grades` list shorter than two samples fails in the grade transform, but the cache keeps the gap-filled pre-transform list, so a second access returns that list. This is captured by `ElevationsCacheNext` and `GradesOutcome`.
- **A repeated text tag fails.** When `elem2dict` sees a tag that repeats among siblings and whose first value is text, it raises AttributeError: a `str` has no `.copy()`. It does not build a list of the texts (`TreeFlattener.RepeatedTextTagFails`). Repeated element-valued tags do become lists (`Scenarios.RepeatedElementTagExample`).
- **The last move can be NaN.** The last move is `d[-1] - d[-1]`, which is 0 only when the last distance is a number after the optional gap filling. It is NaN when recovery is off and the last distance is NaN, and also when recovery is on and every distance is NaN, because gap filling leaves an all-NaN series as it is.
- **An omitted `recovery` argument overrides the configuration.** The constructor writes its `recovery` argument into the configuration mapping unconditionally (src/yatcx_parser.py:14-15). A caller who passes a mapping with recovery off and no `recovery` argument gets the default `True`: the session gap-fills, and the caller's mapping now says recovery is on (`Parser.OmittedRecoveryOverrides`). Because the default mapping is one shared object, a later session built with recovery off also switches it off for the earlier ones (`Parser.SharedDefaultsLeak`).
- **Grades outside the arcsin domain become NaN.** Numpy's `arcsin` returns NaN for arguments outside [-1, 1]; it does not raise. The model leaves the arcsin abstract and proves instead that every grade that reaches it lies in [0, 1].

## Model

| member | source | states |
|---|---|---|
| Values.NaNCountIsLength | src/yatcx_parser.py:59 | the NaN count equals the length exactly when every sample is NaN |
| Values.SumIsNum | src/yatcx_parser.py:115-117 | a numpy-style sum is a number exactly when no summand is NaN |
| Values.SumBounds | src/yatcx_parser.py:74 | a sum of n samples in [lo, hi] lies in [n·lo, n·hi] |
| Values.SumNonNegative | src/yatcx_parser.py:136 | a sum of non-negative numbers is a non-negative number |
| Values.SumPointwise | src/yatcx_parser.py:109-117 | summing two NaN-free series pointwise and summing each separately agree |
| GapFill.PrevValid | src/exfunc.py:38-40 | finds the nearest non-NaN index before k, with only NaN between; None when everything before k is NaN |
| GapFill.NextValid | src/exfunc.py:38-40 | finds the nearest non-NaN index at or after k, with only NaN between; None when everything from k on is NaN |
| GapFill.FillAt | src/exfunc.py:38-40 | a valid sample keeps its value; the filled value is NaN exactly when every sample is NaN, so one valid sample leaves no NaN |
| GapFill.Interpolated | src/exfunc.py:36-41 | length is preserved; every non-NaN sample is unchanged at its position; an all-NaN or empty input comes back unchanged |
| GapFill.InterpolateNans | src/exfunc.py:36-41 | the array filled in place at the NaN positions equals `Interpolated` of the input |
| GapFill.LerpBetween | src/exfunc.py:40 | a linearly interpolated value lies between the two values it interpolates |
| GapFill.InteriorFill | src/exfunc.py:40 | a NaN at k with nearest valid neighbours i < k < j gets s[i] + (s[j] − s[i])·(k − i)/(j − i), which lies between s[i] and s[j] |
| GapFill.LeadingRun | src/exfunc.py:40 | a leading NaN run takes the first valid value |
| GapFill.TrailingRun | src/exfunc.py:40 | a trailing NaN run takes the last valid value |
| GapFill.KeepsBounds | src/exfunc.py:40 | samples bounded by [lo, hi] are filled with values in [lo, hi] |
| GapFill.Idempotent | src/exfunc.py:36-41 | gap filling twice gives the same as gap filling once |
| GradeTransform.MapScaledArcsin | src/exfunc.py:48 | the elementwise arcsin keeps the length |
| GradeTransform.EdgeCorrected | src/exfunc.py:47 | after `grades[0] = grades[1]` the length is unchanged, element 0 equals element 1, and all other elements are as before |
| GradeTransform.GradeArcsin | src/exfunc.py:44-48 | the output has the input's length, out[0] == out[1], and out[i] is the scaled arcsin of grades[i] for i ≥ 1 |
| GradeTransform.CalculateGradeArcsin | src/exfunc.py:44-48 | fewer than two samples give IndexError with the array untouched; otherwise the caller's array has element 0 overwritten by element 1 and the result is `GradeArcsin` |
| TreeFlattener.IndexOf | src/exfunc.py:17 | gives the position of the first '}' in a tag |
| TreeFlattener.UntilBrace | src/exfunc.py:17 | gives the longest brace-free prefix, i.e. the second field of `split('}')` |
| TreeFlattener.Key | src/exfunc.py:17 | a key never contains '}'; a tag without '}' is its own key, and a namespaced tag gives a shorter key |
| TreeFlattener.HasContent | src/exfunc.py:20 | a missing, empty or all-whitespace text has no content |
| TreeFlattener.KeyStripsNamespace | src/exfunc.py:16-17 | the key of `{ns}local` is `local`, and a tag without '}' is its own key |
| TreeFlattener.ChildValue | src/exfunc.py:19-23 | a child contributes its text or its flattening, never a list; on failure the error is AttributeError |
| TreeFlattener.Entries | src/exfunc.py:15-23 | the first k children give k (key, value) pairs in document order; this fails exactly when some child's flattening fails |
| TreeFlattener.Occurrences | src/exfunc.py:24-32 | gives the values stored under a key in document order; no lists appear among them when no child value is a list |
| TreeFlattener.Insert | src/exfunc.py:24-32 | inserting a pair fails, with AttributeError, exactly when the key already holds text; a new key is stored as it is, an existing key becomes a list, and every other key keeps its value |
| TreeFlattener.Collect | src/exfunc.py:24-32 | inserting the pairs in order fails only with AttributeError |
| TreeFlattener.Flatten | src/exfunc.py:8-33 | flattening fails only with AttributeError |
| TreeFlattener.OccurrencesSnoc | src/exfunc.py:15 | one more child adds its value to its own key's occurrences only |
| TreeFlattener.CollectSnoc | src/exfunc.py:24-32 | one more pair is inserted into the dict collected so far |
| TreeFlattener.CollectGroupsAt | src/exfunc.py:24-32 | on success a key is present exactly when it occurs; a single occurrence is stored as a scalar, and several as the list of occurrences in document order |
| TreeFlattener.CollectGroups | src/exfunc.py:24-32 | the same for every key at once |
| TreeFlattener.RepeatedTextFails | src/exfunc.py:29 | a key that repeats and whose first value is text makes the insertion fail |
| TreeFlattener.FailingKey | src/exfunc.py:26-30 | a failed insertion has a witness key that repeats with text as its first value |
| TreeFlattener.CollectFails | src/exfunc.py:24-32 | insertion fails exactly when some key repeats with text as its first value |
| TreeFlattener.CollectFailureSticks | src/exfunc.py:29 | once an insertion has failed, the whole loop fails with AttributeError |
| TreeFlattener.FlattenGroupsSiblings | src/exfunc.py:8-33 | when every child's value exists, every child key is in the result and each key maps to its value alone or to the list of its values; the result fails exactly on a repeated text-valued tag |
| TreeFlattener.OccursAt | src/exfunc.py:15-17 | every child's key occurs |
| TreeFlattener.RepeatedTextTagFails | src/exfunc.py:29 | `<Lap>a</Lap><Lap>b</Lap>` raises AttributeError |
| TreeFlattener.Elem2Dict | src/exfunc.py:8-33 | the loop that copies or appends into the dict computes `Flatten` |
| TreeFlattener.ElementValue | src/exfunc.py:19-23 | a child's value is its text when that has non-whitespace content, its flattening otherwise: `ChildValue` |
| TreeFlattener.CollectStep | src/exfunc.py:15-32 | one loop step: the next child's pair is inserted into the dict built so far |
| TreeFlattener.ChildFailureFails | src/exfunc.py:23 | a child whose flattening raises makes the node raise AttributeError |
| TreeFlattener.InsertFailureFails | src/exfunc.py:29 | an insertion that raises among the first children makes the whole node raise AttributeError |
| TreeFlattener.EntriesStep | src/exfunc.py:15-23 | one more child extends the collected pairs by its (key, value) |
| TreeFlattener.EntriesPrefix | src/exfunc.py:15 | the pairs of the first j children are a prefix of the pairs of the first k |
| Series.ReadXpathProperty | src/yatcx_parser.py:196-199 | one sample per node: the node's named value where present, NaN where absent |
| Series.Recovered | src/yatcx_parser.py:69-70 | the optional gap filling keeps the length |
| Series.MovesOf | src/yatcx_parser.py:104-106 | moves have the length of the distances, moves[i] = d[i+1] − d[i] before the end, and the last move is 0 (NaN when the last distance is NaN) |
| Series.ElevationsOf | src/yatcx_parser.py:121-129 | elevations have the length of the altitudes, contain no NaN and are all ≥ 0, the last one is 0, and element i is the rise a[i+1] − a[i] when it is positive and 0 otherwise |
| Series.RecoveredNaNFree | src/yatcx_parser.py:130-131 | gap filling leaves a NaN-free series unchanged, so elevations are unchanged by recovery |
| Series.RawGrades | src/yatcx_parser.py:79-88 | the pre-transform grade list has length min(\|elevations\|, \|moves\|) |
| Series.GradeOf | src/yatcx_parser.py:81-88 | a valid grade comes from a positive move, satisfies grade · move = elevation, and is at most 1; a positive move with an elevation no larger than it always gives a valid grade |
| Series.RawGradesRange | src/yatcx_parser.py:79-88 | a raw grade is NaN exactly when its move is not positive or its slope exceeds 1; otherwise it is elevation/move and lies in [0, 1] |
| Series.GradesInArcsinDomain | src/yatcx_parser.py:79-92 | after the optional gap filling, every valid grade fed to the arcsin lies in [0, 1] |
| Series.AboveMask | src/yatcx_parser.py:115-117 | the high-altitude mask pairs moves with altitudes up to the shorter length |
| Series.BelowMask | src/yatcx_parser.py:109-117 | its complement has the same length |
| Series.HighAltitudeDistanceOf | src/yatcx_parser.py:112-118 | the high-altitude distance is a number exactly when every move made at or above the threshold is a number |
| Series.LowAltitudeDistanceOf | src/yatcx_parser.py:109-110 | low-altitude distance plus high-altitude distance is the total distance |
| Series.SumOfMoves | src/yatcx_parser.py:104-106 | the moves of a NaN-free distance series add up to last − first |
| Series.SumOfMovesPrefix | src/yatcx_parser.py:104-106 | the first k moves add up to d[k] − d[0] |
| Series.LowAltitudeDistanceIsBelowMoves | src/yatcx_parser.py:108-118 | when the total distance is last − first distance, the low-altitude distance is the sum of the moves made below the threshold |
| Series.HighAltitudeTimeOf | src/yatcx_parser.py:176-178 | the count of samples at or above the threshold is at most the number of non-NaN samples (NaN is never counted) |
| Series.HighAltitudeTimeExtremes | src/yatcx_parser.py:176-178 | the count is the length exactly when every sample reaches the threshold, and 0 exactly when none does |
| Series.TotalElevationOf | src/yatcx_parser.py:134-136 | the total elevation is always a number ≥ 0, because NaN and non-positive samples count as 0 |
| Series.TotalElevationIsSum | src/yatcx_parser.py:134-136 | total elevation is the plain sum of the elevations, and is a number ≥ 0 |
| Series.HasPowersOf | src/yatcx_parser.py:56-61 | `has_powers` (the NaN count differs from the length) holds exactly when some power sample is a number, so it is false exactly when every sample is NaN |
| Series.Reverse | src/yatcx_parser.py:74 | the kernel reversal of a convolution keeps the length |
| Series.ConvolveValid | src/yatcx_parser.py:74 | a 'valid' convolution has n − w + 1 outputs |
| Series.MeanPowerIntervalOf | src/yatcx_parser.py:73-74 | the windowed mean has len(powers) − w + 1 samples |
| Series.DotOnes | src/yatcx_parser.py:74 | a window convolved with ones is its sum |
| Series.MeanPowerWindow | src/yatcx_parser.py:73-74 | element k is the sum of powers[k..k+w) divided by w |
| Series.MeanPowerBounds | src/yatcx_parser.py:73-74 | when all powers lie in [lo, hi], every windowed mean is a number in [lo, hi] |
| Series.MeanPowerNaNWindow | src/yatcx_parser.py:74 | a window holding a NaN has a NaN mean |
| Parser.Params.constructor | src/config.py:10-13 | sets the configuration to the given threshold and recovery flag |
| Parser.Params.Default | src/config.py:10-13 | the defaults are a 1500 m threshold with recovery on |
| Parser.PositiveRises | src/yatcx_parser.py:124-129 | the append loop of `elevations` builds `ElevationsOf` the altitudes |
| Parser.SlopeRatios | src/yatcx_parser.py:80-88 | the append loop of `grades` builds the raw grade list |
| Parser.GradesOutcome | src/yatcx_parser.py:76-93 | an error from the elevations or moves passes through with `[]` cached; otherwise the grades succeed exactly when min(\|e\|, \|m\|) ≥ 2, the result then is the cached list with min(\|e\|, \|m\|) samples and out[0] == out[1], and a shorter list fails with IndexError and a cached list of fewer than two samples |
| Parser.GradesOfSession | src/yatcx_parser.py:76-93 | for series of one document, `grades` succeeds exactly when both have two or more samples; the output then has min(\|a\|, \|d\|) samples, out[0] == out[1], later samples are the scaled arcsin of the gap-filled grade, and every valid grade lies in [0, 1] |
| Parser.TcxParser.Init | src/yatcx_parser.py:16-29 | a new session has every cache empty |
| Parser.TcxParser.Open | src/yatcx_parser.py:14-35 | writes `recovery` into the caller's mapping; a missing activity gives AttributeError; with `pre_read` the powers, distances, speeds, altitudes and high-altitude distance are cached, and a document without distances gives IndexError |
| Parser.TcxParser.PreRead | src/yatcx_parser.py:30-35 | the pre-read fills exactly those caches with the recovered series and the high-altitude distance |
| Parser.TcxParser.Features | src/yatcx_parser.py:36-40 | `features` is the activity flattened |
| Parser.TcxParser.Powers | src/yatcx_parser.py:63-71 | returns the cached powers, or reads and caches the Watts series (gap-filled with recovery); a cached value is returned as it is |
| Parser.TcxParser.Speeds | src/yatcx_parser.py:150-159 | the same for the Speed series |
| Parser.TcxParser.Distances | src/yatcx_parser.py:95-102 | the same for the trackpoint distances |
| Parser.TcxParser.Altitudes | src/yatcx_parser.py:161-168 | the same for the trackpoint altitudes |
| Parser.TcxParser.HeartRate | src/yatcx_parser.py:138-144 | the same for heart rate, which is never gap-filled |
| Parser.TcxParser.Cadences | src/yatcx_parser.py:170-174 | cadences are read afresh on every call, gap-filled with recovery, and nothing is cached |
| Parser.TcxParser.Moves | src/yatcx_parser.py:104-106 | moves are recomputed from the cached distances; no distances gives IndexError |
| Parser.TcxParser.Elevations | src/yatcx_parser.py:120-132 | returns the cached elevations or computes, recovers and caches them; no altitudes gives IndexError and leaves [] cached |
| Parser.TcxParser.Grades | src/yatcx_parser.py:76-93 | returns and caches `GradesOutcome` of the current elevations and moves; a cached value is returned with nothing changed |
| Parser.TcxParser.GradesFrom | src/yatcx_parser.py:80-92 | pairs the elevations with the moves, gap-fills, transforms, and leaves in the cache the list stored at the step that finished or failed |
| Parser.TcxParser.Transformed | src/yatcx_parser.py:92 | the transform of the cached grades: IndexError for fewer than two samples, `GradeArcsin` otherwise |
| Parser.TcxParser.HighAltitudeDistance | src/yatcx_parser.py:112-118 | sums the moves at altitudes ≥ the threshold and caches the sum; no distances gives IndexError and leaves the high-altitude cache empty |
| Parser.TcxParser.LowAltitudeDistance | src/yatcx_parser.py:108-110 | the lap distance minus the high-altitude distance |
| Parser.TcxParser.HighAltitudeTime | src/yatcx_parser.py:176-178 | counts the cached altitudes at or above the threshold |
| Parser.TcxParser.TotalElevation | src/yatcx_parser.py:134-136 | sums the positive elevations |
| Parser.TcxParser.HasPowers | src/yatcx_parser.py:56-61 | true exactly when some power sample is not NaN |
| Parser.TcxParser.MeanPowerInterval | src/yatcx_parser.py:73-74 | reads the powers; an interval below 1 gives ValueError, otherwise the windowed mean |
| Parser.SharedDefaultsLeak | src/yatcx_parser.py:14-15 | two sessions built on the shared default mapping share it; creating the second with recovery off turns recovery off for the first |
| Parser.OmittedRecoveryOverrides | src/yatcx_parser.py:14-15 | a configuration with recovery off, opened with the default `recovery=True`, ends up with recovery on, its threshold unchanged, and shared with the session |
| Scenarios.MovesExample | src/yatcx_parser.py:106 | distances [0, 10, 25, 25] give moves [10, 15, 0, 0] |
| Scenarios.HighAltitudeTimeExample | src/yatcx_parser.py:178 | altitudes [100, 1600, 1600, 100] give a high-altitude time of 2 at threshold 1500 |
| Scenarios.InterpolateExample | src/exfunc.py:36-41 | [NaN, 100, NaN, 200] is filled to [100, 100, 150, 200] |
| Scenarios.MeanPowerExample | src/yatcx_parser.py:74 | a window of 2 over [10, 20, 30] gives [15, 25] |
| Scenarios.RepeatedElementTagExample | src/exfunc.py:24-32 | two element-valued `Lap` children become a list of their two dicts |

## Left out

- Parsing and querying: the lxml parsing and the xpath queries are not modelled. Their results are the fields of `Parser.Document`, and `float(...)` of a node's text is already a `Val`. A text that does not parse as a float, which raises ValueError in the source, is not modelled.
- Arcsin: numpy's `arcsin` is transcendental floating point and is a parameter of the grade transform, `arcsin: real -> Val`. Only its elementwise shape and the 15.915 scale are modelled.
- Floating point: numbers are exact reals, so rounding, infinities and float overflow are not modelled.
- Parser.TcxParser.Open: the Python constructor's defaults (`pre_read=False`, `params=default_params`, `recovery=True`) have no Dafny counterpart, so every caller passes all three explicitly; an omitted argument is modelled by passing its default value, and the shared `default_params` mapping by passing one `Params` object created with `Params.Default` to every such call.
- Parser.TcxParser.MeanPowerInterval: requires an interval no longer than the power series. Numpy's `convolve` swaps its operands for a longer window, and that case is not modelled.
- Series.MeanPowerIntervalOf: defined only for 1 ≤ w ≤ n for the same reason. A non-integer interval is not modelled.
- `date` and `datetime` (src/yatcx_parser.py:42-54) call the library's `strptime` and are not modelled.
- `total_distance` (src/yatcx_parser.py:180-182) is not modelled as a query and is the given lap distance. An activity without laps, where `[0]` raises IndexError, is not modelled.
- `mean_heart_rate`, `calories`, `total_time` and `get_path` (src/yatcx_parser.py:146-148, 184-194) are single xpath lookups and are not modelled.
- Configuration keys: a configuration mapping without the 'high_altitude' key, which raises KeyError in the source, cannot be expressed, because `Params` always has both fields.
- Parser.TcxParser.Grades: the transform works on a fresh array holding the cached list, not on the cached list object itself. The two agree on every result, because the source either reassigns the cache or raises before writing.
- Concurrency: sessions are single-threaded objects; concurrent access is not modelled.
- Comments and processing instructions: these children of an XML element are not modelled. An element's children are only elements.
- Packaging: `setup.py` is packaging only and is not part of this model. `src/config.py` contributes only its default values, which are written as constants in `Params.Default`.
