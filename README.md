# Soil-health backend, modelled in Dafny

This project models the Python backend of a soil-health monitoring system.
Sensors report seven soil parameters: nitrogen, phosphorus, potassium, CO2,
temperature, moisture and pH. The modelled parts are:

- `app.py`: a Flask service. Its rules score a reading with a 1-100 health index and a status, flag anomalies and list critical factors. It writes every analysis to a CSV file and to MySQL. It serves the latest reading, the history and statistics from MySQL, or from the CSV file when MySQL is down.
- `app_old.py`: an older service that asks a machine-learning analyzer (`soil_health_ml.py`) instead.
- `config.py`: reference tables.
- `monitoring.py`: in-memory monitoring stores.
- Three MQTT processes:
  - `sensor_generator.py` simulates a sensor and sends either over MQTT or straight to the API.
  - `mqtt_sensor_publisher.py` is a stand-alone publisher.
  - `mqtt_sensor_subscriber.py` forwards published readings to the API.

How the model is built:

- **Pure rules** are Dafny functions, with lemmas about them.
- **Classes** that update fields (the analyzer, the monitors, the subscriber, the generator, the publisher, and the service's own store state) are Dafny classes. Their methods say what they change.
- **Loops** of the source are methods with loop invariants. Each is proved against a specification function.
- **Outside the program:**
  - Files are sequences of lines, and a CSV cell is kept symbolically (`CellText`).
  - The MQTT broker, HTTP calls, MySQL and the clock are outside the program. Their answers are parameters of the operations that use them.
  - Fitted sklearn objects are function values.

Files:

| file | contents |
|---|---|
| `wrappers.dfy` | `Option` and `Result` |
| `soil.dfy` | parameters, readings, JSON values, `float()` / `int()`, the health-status chain |
| `pyseq.dfy` | Python's `xs[-n:]`, sum and mean |
| `config.dfy` | `config.py` tables and `get_config` |
| `rule_analysis.dfy` | `app.py`'s three rule-based analyses |
| `csv_text.dfy` | CSV cells and rows, `str.strip`, `str.split`, `float()` on text |
| `csv_queries.dfy` | the CSV fallback of `/latest`, `/history`, `/stats` |
| `backend.dfy` | `app.py`'s store state: `/analyze` and the read endpoints |
| `soil_health_ml.dfy` | `SoilHealthAnalyzer` |
| `legacy_api.dfy` | `app_old.py` endpoints and `init_model` |
| `monitoring.dfy` | `PerformanceMonitor`, `HealthCheckRegistry`, `AlertManager` |
| `mqtt_subscriber.dfy` | `MQTTSensorSubscriber` |
| `sensor_sim.dfy` | the random walk both sensor simulators share |
| `sensor_generator.dfy` | `SensorDataGenerator`, and what the backend makes of its CSV lines |
| `mqtt_publisher.dfy` | `MQTTSensorPublisher` |

## Model

| member | source | states |
|---|---|---|
| Soil.AllParamsListsEveryParam | backend/app.py:354 | every parameter is one of the seven listed |
| Soil.RequiredFieldsAreFieldNames | backend/app.py:354 | `required_fields` lists the seven JSON keys in parameter order |
| Soil.Reading.With | backend/app.py:362-370 | replacing one parameter changes that one only |
| Soil.ReadingExtensional | backend/app.py:362-370 | readings agreeing on every parameter are equal |
| Soil.ToFloat | backend/app.py:363-369 | float() succeeds exactly on numbers, booleans (1.0 or 0.0) and parseable strings; ValueError exactly on unparseable strings |
| Soil.FirstMissing | backend/app.py:355 | None iff every required key is present, else an absent key |
| Soil.FirstConversionError | backend/app.py:362-370 | None iff every field converts, else the error of a field that fails |
| Soil.ConvertReading | backend/app.py:362-370 | succeeds iff every field converts, each parameter then being its float(); a failure carries a field's error |
| Soil.IndexOf | backend/app.py:354 | the position of a parameter in the table |
| Soil.StatusForMonotone | backend/app.py:257-266 | a higher index never gives a worse status |
| Soil.Trunc | backend/app.py:253 | int() truncates toward zero |
| Soil.ClampInt | backend/app.py:254 | max(lo, min(hi, x)) lies in [lo, hi] and keeps values inside |
| Soil.ClampReal | backend/sensor_generator.py:234-241 | the clamp lies in [lo, hi], keeps inside values, and maps values below to lo and above to hi |
| Soil.AsRaw | backend/app.py:362-370 | a reading sent as JSON numbers has every required field |
| Soil.ConvertAsRaw | backend/app.py:362-370 | converting a reading sent as numbers gives the reading back |
| Config.ParamNamesAreFieldNames | backend/config.py:78-135 | the seven key names of the table are exactly the parameters' JSON keys |
| Config.OptimalRangesKeys | backend/config.py:78-135 | OPTIMAL_RANGES has exactly the seven parameter keys |
| Config.RangeOf | backend/config.py:78-135 | the entry of each parameter exists in the table |
| Config.RangesNested | backend/config.py:78-135 | critical_min < min < max < critical_max for every parameter |
| Config.Band | backend/config.py:138-144 | every status has its entry in HEALTH_STATUS_THRESHOLDS |
| Config.HealthBandsPartition | backend/config.py:138-144 | every index 0..100 lies in exactly the band of the status chain's answer |
| Config.HealthBandsOrdered | backend/config.py:138-144 | a better status has a band wholly above a worse one |
| Config.SeverityBandsOrdered | backend/config.py:147-151 | Low, Medium and High bands are ordered and disjoint |
| Config.SeverityBandsLeaveGaps | backend/config.py:147-151 | scores strictly between 0.33 and 0.34, or 0.66 and 0.67, fall in no band |
| Config.GetConfig | backend/config.py:70-74 | an explicit name, else FLASK_ENV, else 'development' is looked up; unknown names give the default; production iff the chosen name is 'production' |
| PySeq.TailStart | backend/monitoring.py:91 | the start of `xs[-n:]` is within the list |
| PySeq.TailSlicePositive | backend/monitoring.py:91 | `xs[-n:]` for n > 0 is the last min(n, len) elements in order |
| PySeq.TailSliceZero | backend/app.py:556 | `xs[-0:]` is the whole list |
| PySeq.TailSliceNegative | backend/app.py:556 | `xs[-n:]` for n < 0 drops the first abs(n) elements |
| PySeq.TailSliceAppend | backend/monitoring.py:84-91 | appending then trimming is a bounded window ending with the new element, same as trimming first |
| PySeq.SumAppend | backend/monitoring.py:94 | sum of an extended list |
| PySeq.SumBounds | backend/monitoring.py:94 | bounds on the elements bound the sum |
| PySeq.MeanBounds | backend/monitoring.py:94 | the mean lies between the element bounds |
| PySeq.SumIntAppend | backend/app.py:671 | sum of an extended integer list |
| RuleAnalysis.Lower | backend/app.py:233 | str.lower maps each character |
| RuleAnalysis.ParamScoreBounds | backend/app.py:236-248 | a parameter score lies in [0, 100] and is 100 exactly at the band centre |
| RuleAnalysis.WeightedScoreBounds | backend/app.py:250 | a score in [0, 100] times a positive weight stays within 100 times the weight |
| RuleAnalysis.WeightedScore | backend/app.py:250 | the weighted score a row adds lies between 0 and 100 times its weight |
| RuleAnalysis.WeightsWellFormedPrefixes | backend/app.py:221-229 | every prefix of the weight table has positive weights and proper bands |
| RuleAnalysis.TotalsBounds | backend/app.py:232-251 | the accumulated score is at most 100 per unit of weight, and the weight is never negative |
| RuleAnalysis.TotalsWeightZero | backend/app.py:232-251 | the accumulated weight is 0 iff no table key is in the dict |
| RuleAnalysis.TotalsStep | backend/app.py:232-251 | one visited row adds its weighted score and weight exactly when its key is present |
| RuleAnalysis.RawHealthIndexInRange | backend/app.py:253-254 | the raw index lies in 0..100, so the clamp only lifts 0 to 1 |
| RuleAnalysis.NoMatchGivesFifty | backend/app.py:253 | with no table key present the index is 50, Fair |
| RuleAnalysis.LookupKeysOfTableNames | backend/app.py:233 | the keys looked up are 'n', 'p', 'k', 'co2', 'temperature', 'moisture', 'ph' |
| RuleAnalysis.NpkRowsScoreNothing | backend/app.py:232-251 | the N, P and K rows add neither score nor weight on the dict analyze_soil builds |
| RuleAnalysis.OnlyFourParametersScored | backend/app.py:232-251 | on analyze_soil's dict only CO2, Temperature, Moisture and pH are scored, total weight 3.7 |
| RuleAnalysis.IndexIgnoresNpk | backend/app.py:232-254 | readings differing only in N, P, K get the same index |
| RuleAnalysis.ScoreValue | backend/app.py:236-248 | the loop body's score is the specified parameter score |
| RuleAnalysis.VisitRow | backend/app.py:233-251 | a row whose key is present adds its weighted score and its weight; any other row adds nothing |
| RuleAnalysis.AccumulateScores | backend/app.py:232-251 | the loop computes the specified totals |
| RuleAnalysis.CalculateHealthIndex | backend/app.py:218-268 | the index is the clamped truncated weighted mean in 1..100, and the status is that of the index |
| RuleAnalysis.RangesPositivePrefix | backend/app.py:273-281 | prefixes of a range table keep positive bounds |
| RuleAnalysis.AnomalyRangesPositive | backend/app.py:273-281 | every expected band has positive bounds |
| RuleAnalysis.AnomalyCountPositive | backend/app.py:287-296 | some row is counted iff some looked-up value is out of its band |
| RuleAnalysis.PeakDeviationBounds | backend/app.py:287-298 | the peak deviation lies in [0, 1] and is positive iff a row was counted |
| RuleAnalysis.AnomalyResultMeaning | backend/app.py:270-304 | flagged iff some value is out of its band; score in [0, 1/7], positive iff flagged |
| RuleAnalysis.ScanRanges | backend/app.py:287-298 | the loop's flag, count and peak match the specification |
| RuleAnalysis.DetectAnomalies | backend/app.py:270-304 | returns the specified flag and averaged score |
| RuleAnalysis.CriticalNamesFilterTable | backend/app.py:320-325 | the list is the names of exactly the critical rows, at increasing table positions |
| RuleAnalysis.CriticalNamesMeaning | backend/app.py:306-327 | a name is listed iff its row is critical, never twice, in table order |
| RuleAnalysis.CriticalFactorsSkipNpk | backend/app.py:320-325 | Nitrogen, Phosphorus and Potassium are never listed for analyze_soil's dict |
| RuleAnalysis.NothingCriticalNothingListed | backend/app.py:320-325 | no critical row gives an empty list |
| RuleAnalysis.CollectCriticalFactors | backend/app.py:320-325 | the loop builds the specified list |
| RuleAnalysis.IdentifyCriticalFactors | backend/app.py:306-327 | the specified list, at most one name per table row |
| RuleAnalysis.CriticalPositionsBound | backend/app.py:320-325 | at most one position per row |
| RuleAnalysis.HealthyReadingScores | backend/app.py:236-248 | the healthy test reading scores 100, 60, 50 and 60 on CO2, Temperature, Moisture and pH |
| RuleAnalysis.HealthyReadingIndex | backend/app.py:218-268 | the healthy test reading gets index 65, Good |
| RuleAnalysis.HealthyReadingUnflagged | backend/app.py:270-327 | the healthy test reading has no anomaly and no critical factor |
| RuleAnalysis.UnhealthyReadingIndex | backend/app.py:218-268 | the unhealthy test reading gets index 68, Good |
| RuleAnalysis.UnhealthyReadingCriticalFactors | backend/app.py:306-327 | its critical factors are Temperature, Moisture, pH (nitrogen is never looked up) |
| RuleAnalysis.UnhealthyReadingAnomaly | backend/app.py:270-304 | it is anomalous with score 0.2 / 7 |
| RuleAnalysis.TablesAgreeWithConfig | backend/app.py:221-229 | the weight and factor tables use OPTIMAL_RANGES' min/max; the anomaly ranges its critical bounds except pH's lower bound 5.0 |
| CsvText.ParseIntLiteral | backend/app.py:659 | a successful int() parse needs non-empty text |
| CsvText.BlankCellDoesNotParse | backend/app.py:481-484 | an empty cell fails int(), float() and JSON parsing |
| CsvText.IntCellRoundTrip | backend/app.py:481 | an integer written to a cell reads back by int() and float() |
| CsvText.NegativeLiteral | backend/app.py:659 | a minus sign negates the digits' value |
| CsvText.DictRow | backend/app.py:476 | a DictReader row has exactly the header's keys |
| CsvText.DictRowKeys | backend/app.py:476 | the row built from a header prefix has exactly that prefix's keys |
| CsvText.DictRowAt | backend/app.py:476 | under distinct column names, each key maps to the cell at its position |
| CsvText.AppColumnsDistinct | backend/app.py:137-139 | the column names are distinct |
| CsvText.HeaderLine | backend/app.py:144-145 | the header line holds the column names in order |
| CsvText.Strip | backend/mqtt_sensor_publisher.py:88 | strip leaves no whitespace at either end |
| CsvText.Split | backend/mqtt_sensor_publisher.py:89 | split gives at least one piece |
| CsvText.SplitJoin | backend/mqtt_sensor_publisher.py:89 | the pieces hold no separator and join back to the text |
| CsvText.SplitAppendFree | backend/mqtt_sensor_publisher.py:89 | text without the separator only lengthens the last piece |
| CsvText.SplitOfJoin | backend/mqtt_sensor_publisher.py:89 | separator-free pieces, joined, split back into themselves |
| CsvText.FirstIndex | backend/mqtt_sensor_publisher.py:93-99 | the first occurrence of a character |
| CsvText.FloatLiteralPositive | backend/mqtt_sensor_publisher.py:93-99 | float("22.5") is 22.5 |
| CsvText.FloatLiteralNegative | backend/mqtt_sensor_publisher.py:93-99 | float(" -7.25") is -7.25 |
| CsvText.FloatLiteralRejects | backend/mqtt_sensor_publisher.py:93-102 | float("") and float("Good") raise |
| CsvText.FloatLiteralCell | backend/app.py:483-493 | a text cell reads as float() reads its text: "22.5" is 22.5 |
| CsvText.IntLiteralCellWithBlank | backend/app.py:481 | int() ignores blanks around the digits: " 5" is 5 |
| CsvText.JsonStringListBracket | backend/app.py:485 | text opening with a bracket is read as one array, with nothing but whitespace after it |
| CsvText.StringTokenOfQuoted | backend/app.py:485 | a quoted plain string is read as that string, leaving the text after the closing quote |
| CsvText.ArrayItemsLast | backend/app.py:485 | a string followed by the closing bracket is the last item |
| CsvText.ArrayItemsComma | backend/app.py:485 | a string followed by a comma is an item, then the items after the comma |
| CsvText.ArrayItemsNext | backend/app.py:160 | json.dumps's `", "` separator reads as the next item |
| CsvText.ArrayItemsSkip | backend/app.py:485 | whitespace before an item does not change how the items read |
| CsvText.BracketClosesNoItem | backend/app.py:485 | after a comma a closing bracket is not an item |
| CsvText.ArrayItemsOfDumped | backend/app.py:160 | the items json.dumps wrote read back as those items, leaving what follows the bracket |
| CsvText.EmptyArrayReads | backend/app.py:485 | `[]`, the default of a missing critical_factors column, reads as no factor |
| CsvText.DumpedArrayReads | backend/app.py:160 | the text json.dumps writes for a non-empty list of plain strings reads as that list |
| CsvText.JsonListRoundTrip | backend/app.py:160 | json.loads(json.dumps(items)) == items for plain ASCII strings, and a critical-factors cell means the same as its text |
| CsvText.EmptyJsonListWithBlanks | backend/app.py:485 | whitespace around an empty array is allowed |
| CsvText.TrailingCommaRejected | backend/app.py:485 | a trailing comma makes json.loads raise |
| CsvText.OneFactorList | backend/app.py:485 | `["pH"]` reads as the one factor pH |
| CsvQueries.DataLines | backend/app.py:476 | the lines DictReader reads, in order: exactly the lines that are not blank |
| CsvQueries.DataLinesAppend | backend/app.py:476 | an appended line becomes the last data line unless it is blank |
| CsvQueries.DataLinesConcat | backend/app.py:476 | the data lines of a file are those of its parts, one after the other |
| CsvQueries.DataLinesWithoutBlanks | backend/app.py:476 | a file without blank lines is all data lines |
| CsvQueries.Reader | backend/app.py:476 | one row per line that is not blank, each read under the header |
| CsvQueries.LastDataLine | backend/app.py:476-478 | a file ending in a non-blank line has that line as its last row |
| CsvQueries.FloatsOf | backend/app.py:487-493 | one value per column when all convert |
| CsvQueries.FloatsOfAll | backend/app.py:487-493 | when every column converts, the values in column order |
| CsvQueries.FloatsOfFailsAt | backend/app.py:487-493 | one column whose float() raises makes the whole conversion raise |
| CsvQueries.CsvLatestMeaning | backend/app.py:472-503 | 404 iff no file or no non-blank line; otherwise, for the last non-blank line, 200 iff every conversion of it succeeds, carrying that line's reading and critical factors, and 500 iff one raises |
| CsvQueries.NewestFirstEntries | backend/app.py:558-579 | at most one entry per row, each the parse of a row |
| CsvQueries.NewestFirstSkipsUnparsed | backend/app.py:559-579 | a row that raises during conversion adds no entry, wherever it sits |
| CsvQueries.NewestFirstReverses | backend/app.py:558-579 | when every row parses, the entries are the rows newest first |
| CsvQueries.HistoryEntriesFromTail | backend/app.py:552-570 | with a positive limit at most `limit` entries, each parsed from one of the last `limit` rows |
| CsvQueries.CsvHistoryBounds | backend/app.py:550-588 | 404 iff no file; a positive limit gives at most limit entries, each from the last limit non-blank lines |
| CsvQueries.CsvHistoryLimitZero | backend/app.py:556 | limit=0 returns every parseable line, not none |
| CsvQueries.StatsCountsOrdered | backend/app.py:652-666 | anomalies <= parsed indices <= rows |
| CsvQueries.DistributionCountsParsedRows | backend/app.py:657-666 | each status count is the number of parsed rows with that status |
| CsvQueries.CsvStatsMeaning | backend/app.py:636-690 | zeros without file or non-blank lines; the total counts every non-blank line, parseable or not; percentage in [0, 100] |
| CsvQueries.BlankLineDropped | backend/app.py:476 | a blank line anywhere is not a data line |
| CsvQueries.SameDataLinesSameRows | backend/app.py:476 | files with the same data lines read as the same rows |
| CsvQueries.BlankLineIgnored | backend/app.py:472-690 | a blank line anywhere leaves the CSV answers of /latest, /history and /stats unchanged |
| CsvQueries.Percentage | backend/app.py:631 | count / total * 100 lies in [0, 100] |
| Backend.RawValues | backend/app.py:149-155 | the seven request values in column order |
| Backend.AppLine | backend/app.py:147-161 | a full line of the 13 columns |
| Backend.AnalyzeResponseMeaning | backend/app.py:335-421 | 400 with the field list iff a key is missing; 400 iff the first failing field is an unparseable string; 200 with the rule analyses iff all convert |
| Backend.FirstConversionErrorIsFirst | backend/app.py:362-370 | the reported error is the first failing field's |
| Backend.Newest | backend/app.py:432-440 | a row with the largest timestamp |
| Backend.MysqlLatestOf | backend/app.py:430-471 | an empty table is a MySQL-mode 404; otherwise the newest row |
| Backend.SoilBackend.constructor | backend/app.py:68-128 | the starting availability, no file, no rows |
| Backend.SoilBackend.GetMysqlConnection | backend/app.py:55-66 | records whether the connection succeeded |
| Backend.SoilBackend.SaveToCsv | backend/app.py:131-165 | a header only for a new file, then the line; a failed append changes nothing |
| Backend.SoilBackend.SaveToMysql | backend/app.py:167-216 | a row with a fresh id iff connected and inserted |
| Backend.SoilBackend.AnalyzeSoil | backend/app.py:335-421 | the response is the specified one whatever the stores did; a rejected request writes nothing; an accepted one writes CSV then MySQL: a successful append adds its line (with the header for a new file), a successful insert adds the row with the next id, the converted reading and the analysis, and advances the counter |
| Backend.SoilBackend.LatestFromCsv | backend/app.py:472-499 | the specified CSV answer |
| Backend.SoilBackend.GetLatestReading | backend/app.py:424-503 | MySQL when it connects, the CSV file otherwise |
| Backend.SoilBackend.HistoryFromCsv | backend/app.py:550-588 | the loop gives the specified history |
| Backend.TallyRow | backend/app.py:657-669 | one row extends the indices, anomaly count and status distribution exactly as the specification of the whole loop does |
| Backend.SoilBackend.StatsFromCsv | backend/app.py:636-690 | the loop gives the specified statistics |
| Backend.AppRowAt | backend/app.py:137-161 | under app.py's header or the generator's, each column of a full line holds the cell at its position |
| Backend.AppLineReadsBack | backend/app.py:476-484 | a line app.py wrote reads back to the written index, status, flag, score and time, under either header |
| Backend.AppLineFactorsReadBack | backend/app.py:485 | the written critical factors read back under app.py's header; under the generator's header, which lacks the column, none are read |
| Backend.AppLineSensorsReadBack | backend/app.py:486-494 | with no boolean field, the sensor cells read back as the converted request values in column order |
| Backend.AppLineIsLatest | backend/app.py:472-499 | while the line an accepted /analyze appended is last, the CSV branch of /latest answers 200 with that reading and its analysis (no factors under the generator's header) |
| Backend.SensorColumn | backend/app.py:136-138 | column 1 + i of the header is the i-th required field |
| Backend.RawValueAt | backend/app.py:149-155 | the request values in column order: the i-th is the i-th field's value |
| Backend.AppLineSensorCell | backend/app.py:146-154 | each sensor column of the written line holds the request's own value for that field |
| Backend.BooleanFieldLineDoesNotParse | backend/app.py:363-381 | a JSON boolean in a sensor field passes float() on /analyze, but the line written for it does not parse back |
| Backend.BooleanFieldLatestIsError | backend/app.py:477-503 | when that line is last, the CSV branch of /latest answers 500 |
| Backend.BooleanFieldHistorySkips | backend/app.py:559-579 | /history skips that line wherever it sits |
| SoilHealthMl.LabelBandsAreConfigRanges | backend/soil_health_ml.py:101-141 | the label bands are OPTIMAL_RANGES' optimal and critical ranges |
| SoilHealthMl.LabelScoreCounts | backend/soil_health_ml.py:95-143 | the score is 0.15 per optimal parameter plus 0.08 per wider-band one |
| SoilHealthMl.LabelScoreBounds | backend/soil_health_ml.py:95-143 | the score lies in [0, 1.05] |
| SoilHealthMl.HealthLabelMeaning | backend/soil_health_ml.py:79-82 | label 1 iff 15 per optimal plus 8 per wider-band parameter exceeds 60 |
| SoilHealthMl.SampleReadingLabel | backend/soil_health_ml.py:95-143 | the test reading scores 1.05, label 1 |
| SoilHealthMl.CalculateHealthLabel | backend/soil_health_ml.py:95-143 | the seven checks compute the specified score |
| SoilHealthMl.HealthLabels | backend/soil_health_ml.py:79-82 | one label per row, in order |
| SoilHealthMl.IndexOfProbabilityBounds | backend/soil_health_ml.py:170 | the index lies in [0, 100], is 0 below 0.01, is 100 only at probability 1 |
| SoilHealthMl.NoModelDefault | backend/soil_health_ml.py:167-170 | the default probability gives 50, Fair |
| SoilHealthMl.CriticalEntriesSound | backend/soil_health_ml.py:233-260 | each entry is a parameter outside its critical bounds with its value; entries follow table order with no parameter twice |
| SoilHealthMl.CriticalEntriesComplete | backend/soil_health_ml.py:233-260 | every parameter outside its critical bounds has its entry |
| SoilHealthMl.CriticalEntriesMeaning | backend/soil_health_ml.py:233-260 | one entry per parameter outside its critical bounds, with its value, in table order |
| SoilHealthMl.SampleReadingHasNoCriticalFactor | backend/soil_health_ml.py:233-260 | the test reading has none |
| SoilHealthMl.ReadingAnalysisMeaning | backend/soil_health_ml.py:208-231 | fails iff scaling is asked without a fitted scaler; else the status is its index's, the factors the reading's |
| SoilHealthMl.SoilHealthAnalyzer.constructor | backend/soil_health_ml.py:23-28 | no model, unfitted scaler |
| SoilHealthMl.SoilHealthAnalyzer.CalculateSoilHealthIndex | backend/soil_health_ml.py:145-183 | the specified index with its status; 50 Fair without a model |
| SoilHealthMl.SoilHealthAnalyzer.DetectAnomalies | backend/soil_health_ml.py:185-206 | (False, 0.0) without a forest, before any scaling; otherwise flagged iff the forest predicts an outlier (-1) |
| SoilHealthMl.SoilHealthAnalyzer.IdentifyCriticalFactors | backend/soil_health_ml.py:233-260 | the specified entries |
| SoilHealthMl.SoilHealthAnalyzer.AnalyzeReading | backend/soil_health_ml.py:208-231 | the specified analysis of the current models |
| SoilHealthMl.SoilHealthAnalyzer.TrainOnCsv | backend/soil_health_ml.py:262-278 | no data changes nothing; otherwise all three are fitted |
| SoilHealthMl.SoilHealthAnalyzer.LoadModel | backend/soil_health_ml.py:292-304 | files load in order up to the first missing one, keeping what was loaded |
| SoilHealthMl.FreshAnalyzerNeedsScaler | backend/soil_health_ml.py:145-206 | a fresh analyzer fails with scaling and defaults without it |
| LegacyApi.MissingFieldIsBadRequest | backend/app_old.py:72-78 | every endpoint answers 400 with the field list iff a key is missing |
| LegacyApi.ConversionErrorHandling | backend/app_old.py:87-91 | /analyze: 400 on ValueError, 500 on TypeError; other endpoints 500 |
| LegacyApi.UnfittedScaler | backend/app_old.py:52-211 | an unfitted scaler is 400 in /analyze, 500 elsewhere, except /anomaly without a forest; critical factors still 200 |
| LegacyApi.ValidReadingSucceeds | backend/app_old.py:52-171 | a valid reading with a fitted scaler gets the index with its status on 1-100; without an isolation forest also the analysis and the score with its severity; with one, /analyze and /anomaly answer 500, as the numpy anomaly flag does not serialize |
| LegacyApi.SeverityMeaning | backend/app_old.py:166 | above 0.7 High, above 0.4 Medium, else Low; monotone |
| LegacyApi.SeverityDiffersFromConfig | backend/app_old.py:166 | 0.68 is High in config, Medium here; 0.35 Medium there, Low here |
| LegacyApi.CriticalFactorsMeaning | backend/app_old.py:200-207 | the count is the list's length; "Healthy" iff nothing is outside its critical bounds |
| LegacyApi.OptimalRangesWellFormed | backend/app_old.py:219-229 | every published range has min < max and agrees with config |
| LegacyApi.CollectMeaning | backend/app_old.py:254-263 | collecting results succeeds iff each does, values in order; else the first failure |
| LegacyApi.CollectFailureStays | backend/app_old.py:254-263 | a failure among the first k results is the answer for all of them |
| LegacyApi.BatchUpToMeaning | backend/app_old.py:254-263 | a prefix succeeds iff each reading does, with one analysis each in order; else the first failure's answer |
| LegacyApi.BatchMeaning | backend/app_old.py:232-272 | 200 iff readings is a list, all succeed and the analyses serialize (no isolation forest, or an empty list), in order with their count; all succeeding with a forest and a non-empty list is a 500; a 400 names the first failing index; no list is a 400 |
| LegacyApi.BatchAnalyze | backend/app_old.py:254-268 | the loop gives the specified response |
| LegacyApi.BatchFailureStays | backend/app_old.py:254-263 | once a prefix fails, the whole batch fails the same way |
| LegacyApi.InitModel | backend/app_old.py:24-39 | ready iff the models load or training data exists; loaded models win over training; when neither, only the files read before the first missing one replace the models |
| Monitoring.PerformanceMonitor.constructor | backend/monitoring.py:71-79 | all counters zero, empty window |
| Monitoring.PerformanceMonitor.RecordRequest | backend/monitoring.py:81-98 | one more request (and error on failure); the window is the last 1000 times ending with this one; the average is the window's mean |
| Monitoring.PerformanceMonitor.RecordAnomaly | backend/monitoring.py:100-103 | one more anomaly, nothing else |
| Monitoring.PerformanceMonitor.ErrorRate | backend/monitoring.py:109-110 | a percentage in [0, 100], 0 before any request |
| Monitoring.PerformanceMonitor.GetMetrics | backend/monitoring.py:105-111 | errors <= requests, rate in [0, 100], the window is the recent history |
| Monitoring.PerformanceMonitor.ResetMetrics | backend/monitoring.py:113-121 | everything back to zero |
| Monitoring.ErrorPercentage | backend/monitoring.py:109 | errors / total * 100 in [0, 100] |
| Monitoring.WindowIsRecentHistory | backend/monitoring.py:89-94 | the window is the last min(n, 1000) times, its average within their bounds |
| Monitoring.HealthCheckRegistry.constructor | backend/monitoring.py:145-152 | the three starting checks, not healthy |
| Monitoring.HealthCheckRegistry.UpdateCheck | backend/monitoring.py:154-159 | unknown names change nothing; known ones set the status and stamp the time; "last_check" only stamps |
| Monitoring.HealthCheckRegistry.IsHealthy | backend/monitoring.py:161-163 | healthy iff all three checks hold |
| Monitoring.HealthCheckRegistry.GetStatus | backend/monitoring.py:165-170 | "Healthy" iff healthy, with the checks and the time |
| Monitoring.WithSeverity | backend/monitoring.py:205-206 | the filter never grows the list |
| Monitoring.WithSeverityMeaning | backend/monitoring.py:205-206 | keeps exactly the alerts of the severity, each as many times as the list holds it, and no other |
| Monitoring.WithSeverityConcat | backend/monitoring.py:205-206 | filtering two lists joined is joining their filtered lists, so the filter keeps the order |
| Monitoring.WithSeverityAppend | backend/monitoring.py:205-206 | filtering an extended list extends the filtered one exactly when the new alert matches |
| Monitoring.AlertManager.constructor | backend/monitoring.py:176-179 | no alerts, capacity 1000 |
| Monitoring.AlertManager.CreateAlert | backend/monitoring.py:181-199 | the alert built from its arguments becomes the newest of the last 1000 |
| Monitoring.AlertManager.SelectedAlerts | backend/monitoring.py:201-206 | an alert is selected iff it is held and no severity, an empty one or its own was asked for |
| Monitoring.AlertManager.GetAlerts | backend/monitoring.py:201-208 | Python's `[-limit:]` of the selected alerts, for every limit; for a positive limit, exactly the last min(limit, n) of the selected alerts in order; at most limit alerts, all held, of the given severity |
| Monitoring.AlertManager.ClearAlerts | backend/monitoring.py:210-213 | no alerts left, and the manager's invariant still holds |
| MqttSubscriber.AuditRow | backend/mqtt_sensor_subscriber.py:166-191 | the envelope's time or receipt time, its publisher or 'unknown', the seven values, four blank cells |
| MqttSubscriber.SuccessRate | backend/mqtt_sensor_subscriber.py:257-259 | none before the first message, else processed / received as a percentage |
| MqttSubscriber.MqttSensorSubscriber.constructor | backend/mqtt_sensor_subscriber.py:39-78 | nothing counted; a missing audit file gets its header |
| MqttSubscriber.MqttSensorSubscriber.OnConnect | backend/mqtt_sensor_subscriber.py:80-91 | connected and subscribed iff rc is 0 |
| MqttSubscriber.MqttSensorSubscriber.OnDisconnect | backend/mqtt_sensor_subscriber.py:93-97 | not connected |
| MqttSubscriber.MqttSensorSubscriber.OnMessage | backend/mqtt_sensor_subscriber.py:99-144 | each message counted once as processed or failed; complete readings forwarded; audit row only on success |
| MqttSubscriber.MqttSensorSubscriber.SaveToCsv | backend/mqtt_sensor_subscriber.py:166-191 | the row appended, creating the file; a failure changes nothing |
| MqttSubscriber.MqttSensorSubscriber.Stop | backend/mqtt_sensor_subscriber.py:266-270 | not running |
| MqttSubscriber.InvalidReadingNotForwarded | backend/mqtt_sensor_subscriber.py:112-118 | a reading missing a field is invalid |
| MqttSubscriber.MissingReadingsKeyIsInvalid | backend/mqtt_sensor_subscriber.py:108-118 | an envelope without sensor_readings is invalid |
| SensorSim.Next | backend/sensor_generator.py:220-246 | every parameter is stepped from its last value |
| SensorSim.NextValueBounds | backend/sensor_generator.py:224-244 | a step moves within its variation, a spike within 30; clamped parameters end inside their clamp; N, P, K are not clamped |
| SensorSim.NitrogenCanGoNegative | backend/sensor_generator.py:224-244 | nitrogen can step below zero |
| SensorSim.WalkStaysClamped | backend/sensor_generator.py:224-244 | after any number of steps a clamped parameter is inside its clamp, and an unclamped one moves at most the spike bound per step |
| SensorSim.GenerateFrom | backend/sensor_generator.py:220-246 | the loop computes the specified next reading |
| SensorGenerator.HistoricalReading | backend/sensor_generator.py:100-145 | no answer or an empty one keeps BASE_READINGS; any failed conversion keeps them; otherwise each field converted or defaulted |
| SensorGenerator.GeneratorLine | backend/sensor_generator.py:272-294 | 12 cells: time, the seven values, and blanks without analysis |
| SensorGenerator.SensorDataGenerator.constructor | backend/sensor_generator.py:58-98 | MQTT in use iff asked and connected in time; a new file gets the 12-column header |
| SensorGenerator.SensorDataGenerator.InitMqtt | backend/sensor_generator.py:147-174 | MQTT stays in use only when connected within the wait |
| SensorGenerator.SensorDataGenerator.OnMqttConnect | backend/sensor_generator.py:176-183 | connected iff rc is 0 |
| SensorGenerator.SensorDataGenerator.OnMqttDisconnect | backend/sensor_generator.py:185-189 | not connected |
| SensorGenerator.SensorDataGenerator.PublishViaMqtt | backend/sensor_generator.py:195-218 | refused without client or connection; else published iff rc is success |
| SensorGenerator.SensorDataGenerator.GenerateReading | backend/sensor_generator.py:220-246 | the next reading becomes the last one |
| SensorGenerator.SensorDataGenerator.SaveToCsv | backend/sensor_generator.py:272-294 | one line appended unless the append fails |
| SensorGenerator.SensorDataGenerator.Tick | backend/sensor_generator.py:320-345 | MQTT path iff in use and connected, else the API; a line only after success, blank analysis on the MQTT path |
| SensorGenerator.SensorDataGenerator.Start | backend/sensor_generator.py:296-318 | running; MQTT mode iff in use and connected |
| SensorGenerator.SensorDataGenerator.Stop | backend/sensor_generator.py:359-362 | not running |
| SensorGenerator.RunEnvelopes | backend/sensor_generator.py:329-332 | at most one message per tick; none on the API path |
| SensorGenerator.RunPosts | backend/sensor_generator.py:332-335 | nothing posted on the MQTT path |
| SensorGenerator.RunLines | backend/sensor_generator.py:337-342 | at most one line per tick |
| SensorGenerator.RunTicks | backend/sensor_generator.py:320-357 | one count per tick; the last reading is the walk through every tick's draws; the messages, posts and lines are exactly those of the ticks in order, each tick's from its own reading and outcomes; MQTT never re-enabled |
| SensorGenerator.RunSendsAtMostOnePerTick | backend/sensor_generator.py:328-342 | at most one message or post per tick; on the MQTT path no more lines than messages |
| SensorGenerator.ApiRunPostsEveryReading | backend/sensor_generator.py:332-335 | on the API path every reading is posted, in tick order |
| SensorGenerator.MqttRunLinesHaveNoIndex | backend/sensor_generator.py:338-340 | no line a run writes on the MQTT path has a health index |
| SensorGenerator.HeadersDistinct | backend/sensor_generator.py:92-95 | both headers have distinct names, health_index at column 8 |
| SensorGenerator.MqttLineHasNoIndex | backend/sensor_generator.py:339-341 | an MQTT-path line has no health index int() accepts |
| SensorGenerator.MqttLineInCsvQueries | backend/app.py:472-499 | such a last line makes /latest's CSV branch fail, and /stats skips it while counting it |
| MqttPublisher.ReadingOfFields | backend/mqtt_sensor_publisher.py:88-102 | a reading iff 8+ fields and fields 1-7 convert, each parameter its field's value |
| MqttPublisher.HistoricalSeed | backend/mqtt_sensor_publisher.py:79-105 | unchanged without a file, with one line or less, or with an unreadable last line; else the last line's reading |
| MqttPublisher.LineOfReading | backend/mqtt_sensor_publisher.py:88-99 | fields 1-7 holding a reading's values read as that reading |
| MqttPublisher.JoinedLineFields | backend/mqtt_sensor_publisher.py:88-89 | a stripped joined line splits back into its fields |
| MqttPublisher.WrittenLineSeeds | backend/mqtt_sensor_publisher.py:79-105 | a last line written as comma-free fields seeds exactly the written reading |
| MqttPublisher.ShortLineKeepsSeed | backend/mqtt_sensor_publisher.py:90 | a line with fewer than eight fields keeps the seed |
| MqttPublisher.MqttSensorPublisher.constructor | backend/mqtt_sensor_publisher.py:60-77 | not running or connected, seeded from the file |
| MqttPublisher.MqttSensorPublisher.LoadHistoricalData | backend/mqtt_sensor_publisher.py:79-105 | the specified seed |
| MqttPublisher.MqttSensorPublisher.OnConnect | backend/mqtt_sensor_publisher.py:107-114 | connected iff rc is 0 |
| MqttPublisher.MqttSensorPublisher.OnDisconnect | backend/mqtt_sensor_publisher.py:116-120 | not connected |
| MqttPublisher.MqttSensorPublisher.Connect | backend/mqtt_sensor_publisher.py:126-148 | true iff connected within the wait; false when connect raises |
| MqttPublisher.MqttSensorPublisher.GenerateReading | backend/mqtt_sensor_publisher.py:159-185 | the next reading becomes the last one |
| MqttPublisher.MqttSensorPublisher.PublishReading | backend/mqtt_sensor_publisher.py:187-214 | published and true iff rc is success |
| MqttPublisher.MqttSensorPublisher.Tick | backend/mqtt_sensor_publisher.py:239-262 | one more count, the next reading, published only when connected |
| MqttPublisher.MqttSensorPublisher.Start | backend/mqtt_sensor_publisher.py:216-237 | running even when it gives up; started iff connect succeeds |
| MqttPublisher.MqttSensorPublisher.Stop | backend/mqtt_sensor_publisher.py:274-278 | not running |
| MqttPublisher.RunMessages | backend/mqtt_sensor_publisher.py:239-262 | at most one message per tick; none while disconnected |
| MqttPublisher.RunTicks | backend/mqtt_sensor_publisher.py:239-272 | one count per tick; the last reading is the walk through every tick's draws; the messages are exactly those of the ticks in order, each carrying its tick's reading |
| MqttPublisher.AcceptedRunPublishesEveryReading | backend/mqtt_sensor_publisher.py:239-262 | when connected and every publish is accepted, message j carries tick j's time and reading |

## Left out

- Logging, `print`, log formatting (`JSONFormatter`, `setup_logging`, `timing_decorator`, `get_logger`): output only.
- Threads, sleeps, timeouts and the `interval` between ticks: a tick is one call, and a wait that ends is an input (`MqttInit`, `ConnectOutcome`).
- `round(x, 2)` on generated values and statistics, and IEEE floating point: values are exact reals.
- `datetime.now().isoformat()`: a timestamp is an integer clock reading given as a parameter.
- The three clock reads of one `/analyze` call are taken as one `now`.
- SensorGenerator.SensorDataGenerator.Tick: the clock reads of one tick are taken as one `now`: the reading's timestamp (sensor_generator.py:202), the CSV line's timestamp (277) and `last_update_time` (346).
- Random draws are inputs (`Draw`); their distribution is not modelled.
- The MySQL branches of `/history` and `/stats`, and `init_database`: they live in the database and are outside the program.
- Backend.Newest: the row MySQL picks among equal timestamps is not specified; the model picks the first.
- Where the text of a value comes from is kept symbolically. `RawText` is the str() of a JSON value: float() reads a number or a string back as float() of the value itself, and rejects a boolean ('True', 'False'), None, a list or a dict. int() on it is not modelled. A `Literal` cell is text and is read as Python reads it: int() takes a signed run of decimal digits with blanks around it, float() reads it as `FloatLiteral` does, and json.loads accepts an array of strings.
- CsvText.JsonListOf: on text, only an array of strings without escape sequences is read; other JSON that json.loads accepts (a number, an object, `null`, a string with a backslash escape) counts as an error here. No modelled writer puts such text in a critical-factors cell.
- `float()` and `int()` on text: exponents, `inf`, `nan` and underscore digit separators are not modelled.
- `str.strip`, and the blanks int() and float() ignore, are the ASCII characters `str.isspace()` holds for: space, tab, line feed, vertical tab, form feed, carriage return, and the separators U+001C to U+001F. Whitespace beyond ASCII, such as U+00A0 and U+2028, is not modelled.
- CsvQueries.CsvStatsMeaning: a line that ends right after its `health_index` cell is counted under the status key None. Flask's `jsonify` sorts the keys of `status_distribution`, and None beside a string key raises TypeError, which app.py:692-694 turns into a 500. The model answers 200 there. No modelled writer produces such a line.
- The message text of each critical factor in `soil_health_ml.py`: only the parameter and its value are kept.
- `save_model`, `generate_synthetic_training_data`, `prepare_features` and the sklearn fitting: the fitted objects are inputs.
- A request body that is not a JSON object, in `app_old.py` and in `app.py`'s `analyze_soil` (app.py:351-370), and a batch item that is not one: the model takes maps. In the source a list or string body passes or fails `field in data` by membership or substring, and null or a number raises TypeError, which becomes a 500.
- The `/health` endpoints, the 404/500 handlers, `check_mysql_status` and `start_sensor_generator`: each is a constant answer or a process launch.
- SensorGenerator.SensorDataGenerator.Tick: a failed send (a status other than 200, or a request error) becomes None; these failures collapse into one optional answer. A failure that is not a request error (an unreadable body) also skips the time stamp in the source.
- SensorGenerator.HistoricalReading: the up-to-three attempts against `/latest` collapse into one answer, the first non-empty one.
- The subscriber's `connect`, `disconnect`, `start` and monitor loop, beyond the success rate it prints: broker plumbing.
- MqttPublisher.MqttSensorPublisher.Stop: `disconnect()` and whether the client then reports a disconnection are not modelled; `connected` is left as it was.
- The `on_publish` callbacks do nothing and are not modelled.
