# Baccarat prediction report, modelled in Dafny

The dashboard builds a report of predictions for one calendar date. The report
has one row for every minute of the day, 1440 rows in all. Each row holds:

- a game ID `YYYYMMDD-HHMM`;
- a time label `HH:MM`;
- four flags: a third card for the player and for the banker, and a win for each side;
- two suit labels, one per side.

The flags and suits come from one of two sources:

- **Model-backed mode**: a trained model bundle. It has six predictors and two
  suit encoders, and every row queries it with the same constant feature vector
  `[5.5, 5.5, 2.5, 2.5]`.
- **Simulation mode**: used when the bundle could not be loaded. The values are
  random draws.

The chart shows the per-hour mean of each side's win flag. Rows are grouped by
the first two characters of the time label. The summary metrics show each side's
overall mean.

The Dafny files:

- `wrappers.dfy`: the `Option` datatype.
- `digits.dfy` (module `Digits`): decimal digit strings. It covers a number's
  value, the shortest rendering, zero padding to a width (`02d`, `%Y`, `%m`,
  `%d`) and Python's lexicographic string order `<`. It proves that on digit
  strings of equal width, numeric order and string order coincide, in both
  directions.
- `schedule.dfy` (module `Schedule`): the calendar date, the split of a minute of
  the day into hour and minute, the game ID and the time label. It also has their
  parsers, with round-trip and ordering lemmas.
- `predictions.dfy` (module `Predictions`): the bundle, the row record, the suit
  rule, and the generator. The generator is a method with a `for` loop over the
  1440 minutes, so the report is built by appending rows, as the source does.
  The random draws of simulation mode are a parameter of the generator, one
  outcome per minute. The generator requires only that each drawn flag is 0 or 1
  and each drawn suit is one of the four symbols.
- `trends.dfy` (module `Trends`): the `groupby`/`mean` table and the overall
  means. They are exact ratios of integers (`real`), not floats.

The model treats the predictors and encoders as opaque, deterministic
functions (`Features -> int`, `int -> string`) stored in a `Bundle` datatype.
`Option<Bundle>` stands for the result of loading the archive. A predicted third
card counts as drawn when its label is non-zero, which is Python's truthiness for
the integer labels the predictors return.

The simulation's four suit strings are kept exactly as the source spells them.
That spelling pairs the club symbol with "Pique" and the spade symbol with
"Trèfle".

## Model

| member | source | states |
|---|---|---|
| `Schedule.SlotTime` | baccarat_app.py:54-55 | hour and minute of a slot satisfy `hour * 60 + min == minute`, `min < 60`, and `hour < 24` for every minute of the day |
| `Schedule.SlotTimeUnique` | baccarat_app.py:54-55 | the split is the only one: any `hour, min` with `min < 60` and `hour * 60 + min == minute` is the split |
| `Schedule.DateStampRoundTrip` | baccarat_app.py:56 | for a valid date, `strftime('%Y%m%d')` is eight digits that parse back to the same date |
| `Schedule.GameIdRoundTrip` | baccarat_app.py:56 | a game ID is 13 characters and parses back to its date, hour and minute |
| `Schedule.ParseGameIdInverse` | baccarat_app.py:56 | every string the game-ID parser accepts can be rebuilt from what the parser returns |
| `Schedule.TimeLabelRoundTrip` | baccarat_app.py:61 | a time label is 5 characters and parses back to its hour and minute |
| `Schedule.ParseTimeLabelInverse` | baccarat_app.py:61 | every string the label parser accepts can be rebuilt from what the parser returns |
| `Schedule.SlotIdsIncrease` | baccarat_app.py:53-56 | for slots `i < j` of one day, ID `i` is less than ID `j` in Python string order |
| `Schedule.SlotLabelsIncrease` | baccarat_app.py:53-61 | for slots `i < j` of one day, label `i` is less than label `j` in Python string order |
| `Schedule.SlotIdShape` | baccarat_app.py:56 | every ID of a valid date is 13 characters: the date stamp, then `-` |
| `Schedule.GameIdExample` | baccarat_app.py:53-56 | minute 65 of 2024-06-01 has ID `20240601-0105` |
| `Schedule.TimeLabelExamples` | baccarat_app.py:53-61 | minutes 0, 90 and 1439 have labels `00:00`, `01:30` and `23:59` |
| `Schedule.DateStamp` | baccarat_app.py:56 | definition of `strftime('%Y%m%d')`; no contract (its properties are `Schedule.DateStampRoundTrip`) |
| `Schedule.GameId` | baccarat_app.py:56 | definition of the ID f-string from date, hour and minute; no contract |
| `Schedule.SlotId` | baccarat_app.py:53-56 | definition: the ID of minute `i` of the day; no contract |
| `Schedule.TimeLabel` | baccarat_app.py:61 | definition of the `HH:MM` f-string; no contract |
| `Schedule.SlotLabel` | baccarat_app.py:53-61 | definition: the label of minute `i` of the day; no contract |
| `Digits.ZeroPad` | baccarat_app.py:56-61 | definition of `02d` and `%Y`/`%m`/`%d` zero padding; no contract (its properties are `Digits.ZeroPadDenotes`) |
| `Digits.ZeroPadDenotes` | baccarat_app.py:56 | `0<w>d` padding yields digits denoting the number, exactly `w` wide when the number has at most `w` digits |
| `Digits.OrderAgrees` | baccarat_app.py:116-121 | on digit strings of equal width, `Value(a) < Value(b)` holds exactly when `a < b` in Python string order |
| `Predictions.SuitLabel` | baccarat_app.py:69-79 | definition of one side's suit rule; no contract (its properties are `Predictions.SuitRule` and `Predictions.SuitSentinelIff`) |
| `Predictions.ModelOutcome` | baccarat_app.py:58-79 | definition of the model-backed columns of a row; no contract |
| `Predictions.IsSimulated` | baccarat_app.py:85-90 | definition of the simulation's value sets: four 0/1 flags and two of the four suit symbols; no contract |
| `Predictions.PredictOutcome` | baccarat_app.py:58-79 | one model-backed iteration's six predictor queries and suit branches yield exactly `ModelOutcome`, whose suit rule `Predictions.SuitRule` states |
| `Predictions.GeneratePredictions` | baccarat_app.py:46-95 | 1440 rows; row `i` has the ID and label of minute `i`; with a bundle, every row's outcome is the model outcome; without one, row `i`'s outcome is minute `i`'s draw, so every flag is 0/1 and every suit is one of the four symbols |
| `Predictions.SuitRule` | baccarat_app.py:69-79 | in model-backed mode a suit is `Aucune` when its side's third-card flag is 0, and otherwise is the encoder's decoding of that side's suit prediction |
| `Predictions.SuitSentinelIff` | baccarat_app.py:69-79 | if neither side's predicted suit code decodes to `Aucune`, then a suit is `Aucune` exactly when its third-card flag is 0 |
| `Predictions.ReportIdsIncrease` | baccarat_app.py:53-93 | in a report, IDs and time labels strictly increase in row order |
| `Predictions.ReportIdsDistinct` | baccarat_app.py:53-93 | no two rows of a report share a game ID |
| `Predictions.ReportFixedWidth` | baccarat_app.py:56-61 | every ID is 13 characters and starts with the report date's stamp; every label is 5 characters |
| `Predictions.ReportRowsDecode` | baccarat_app.py:53-61 | row `i`'s ID parses to the report date and minute `i`'s clock time, and so does its label |
| `Predictions.ModelReportDetermined` | baccarat_app.py:51-79 | in model-backed mode, the date and the bundle determine the whole report |
| `Predictions.GenerateTwice` | baccarat_app.py:46-95 | two model-backed generations for the same date and bundle return equal reports, whatever the random draws |
| `Predictions.SimulatedSuitNeverSentinel` | baccarat_app.py:89-90 | a simulated suit is never `Aucune` |
| `Predictions.SimulationIgnoresSuitRule` | baccarat_app.py:82-90 | there are draws for which the generator's simulated report pairs a 0 third-card flag with a real suit in its first row |
| `Trends.HourKey` | baccarat_app.py:116 | definition of `Heure.str[:2]`, the group key of a row; no contract |
| `Trends.GroupMean` | baccarat_app.py:116-119 | definition of one group's mean; no contract (its value for a report is `Trends.HourlyMean`) |
| `Trends.HourlyWins` | baccarat_app.py:116-119 | definition of the `groupby` table as a map; no contract (its shape is `Trends.HourlyTableShape`) |
| `Trends.OverallMean` | baccarat_app.py:126-130 | definition of a column mean, `None` for an empty table; no contract (its properties are `Trends.OverallMeanBounds`) |
| `Trends.GroupNotEmpty` | baccarat_app.py:116 | every key that occurs in a report names a non-empty group |
| `Trends.ReportKeys` | baccarat_app.py:116 | the keys of a report are exactly the 24 two-digit hours |
| `Trends.HourGroup` | baccarat_app.py:116-119 | the group of hour `h` has 60 rows, and its win total is that of rows `60h` to `60h + 59` |
| `Trends.HourlyTableShape` | baccarat_app.py:116-119 | the hourly table has 24 entries, keyed `00` through `23` |
| `Trends.HourKeysIncrease` | baccarat_app.py:116-121 | the hour keys increase in string order, the order `groupby` sorts them in |
| `Trends.HourlyMean` | baccarat_app.py:116-119 | each side's hourly mean is the win total of that hour's 60 rows over 60 |
| `Trends.HourlyMeanBounds` | baccarat_app.py:116-119 | with 0/1 flags, an hourly mean is the number of 1-flags over 60, and lies in [0, 1] |
| `Trends.HourlyMeanAllOnes` | baccarat_app.py:116-119 | an hour whose 60 win flags are all 1 has mean exactly 1 |
| `Trends.TotalWinsCountsOnes` | baccarat_app.py:116-130 | over 0/1 flags, a win total is the number of 1-flags |
| `Trends.OverallMeanBounds` | baccarat_app.py:126-130 | the overall mean exists exactly for a non-empty report, and with 0/1 flags lies in [0, 1] |
| `Trends.SimulatedReportBinary` | baccarat_app.py:85-88 | a simulated report's win flags are all 0 or 1 |

## Left out

- The Streamlit page is left out because it is user interface. This covers the page setup, title, status messages, date picker, spinner, button, preview table, line chart, metric widgets and footer.
- Loading the model archive is file I/O and foreign deserialisation, so it is left out. This covers `gzip.open`, `joblib.load` and the error message on failure. The model sees only the result, as `Option<Bundle>`.
- A bundle that loads but is empty is left out. The source treats it as unavailable, through dict truthiness in `if models and encoders`. The model's `Some` bundle always has all six predictors and both encoders.
- A missing predictor or encoder key is left out. In the source it raises `KeyError` and aborts generation.
- A predictor or encoder that raises is left out, for example a label encoder given a code it has never seen. In the source this aborts the whole generation. The model's predictors and decoders are total functions.
- What the predictors and encoders compute is left out: they are trained artifacts. They appear only as uninterpreted function parameters.
- The `predict([...])[0]` and `inverse_transform([...])[0]` batch wrapping is a library calling convention. The model applies the functions to one value.
- The probability weights of the simulation's draws are left out, because randomness is not verified here. The draws are a parameter whose values lie in the listed sets.
- CSV export and the download file name are left out: they are a pandas library call and I/O.
- Percentage formatting of the overall means is left out: it is float formatting.
- The clock-based default date (`datetime.now()` plus one day) is left out. The date is an input of the generator.
- `Schedule.DateStamp`: `%Y` is modelled as four zero-padded digits. For years below 1000 the C library behind `strftime` may print fewer digits, which the model does not capture.
- `Trends.HourlyWins`: the `groupby` result is modelled as a map from hour key to the two means. The row order of the pandas table is stated separately by `Trends.HourKeysIncrease`.
- Predicted labels are modelled as unbounded integers, not as numpy scalars. The bounds on means assume 0/1 win flags. That holds in simulation mode; in model-backed mode it is an assumption about the binary classifiers.
