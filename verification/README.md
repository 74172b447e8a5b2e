# Rainfall dashboard core, in Dafny

This project models the three pieces of sequential logic inside a Streamlit
dashboard for daily weather at Cilacap. The dashboard explores a weather
dataset, compares rainfall-category classifiers and forecasts rainfall
categories for the next few days:

- **Rainfall categorisation** (`rr_categorization` on the data page). A raw RR
  value (daily rainfall, mm) becomes one of six label strings: "No Rain",
  "Hujan Ringan", "Hujan Sedang", "Hujan Lebat", "Hujan Sangat Lebat", or
  "Tidak Diketahui" when `float()` raises. Each band is open below and closed
  above. The model follows the code's comparison chain with IEEE comparison
  semantics. So a negative amount, NaN (a missing reading) and either infinity
  match no band and fall through to "Hujan Sangat Lebat". The sentinel
  cleaning step (`8888`, `9999`, `-` become NaN) and the numeric coercion sit
  next to it.
- **Multi-day forecast rollout** (prediction page). A loop runs over six
  parallel history series (TN, TX, TAVG, RH_AVG, SS, RR). Each step reads 12
  features from the last entries, including the mean of the last up to three
  RR values. It then runs the opaque scale → predict → decode chain, records
  `(today + i + 1, label)`, and appends a copy of each series' last value.
  In real arithmetic, under this persistence policy every step sees today's
  features. The rollout therefore repeats today's prediction on every day, and
  `Forecast.Predict` proves exactly that (see "## Left out" on double rounding). The summary display looks up an icon and a tip per
  label and reads `hist['TAVG'][i+1]`.
- **Best-model selection** (evaluation page). It builds one metrics record per
  model in load order, picks the arg-max by weighted F1 with Python `max`
  semantics (the first of several tied models wins), and looks up the
  explanation text with a default.

Modules: `Wrappers` (Option/Result), `Dicts` (`dict.get` with a default and
insertion-ordered dictionaries), `Values` (Python floats and spreadsheet
cells), `Rainfall`, `Cleaning`, `Forecast`, `ForecastDisplay`, `Evaluation`.

The horizon slider is modelled as the subset type `Forecast.Horizon`
(1 to 7, default 3). `Forecast.Predict` takes its horizon in that type.

Where the program's own descriptions and its code differ, the model follows the code:

- Home.py's category list gives "Hujan Sangat Lebat" as ">100 mm". In
  `rr_categorization`, negative amounts and NaN also reach that branch.
- The `_lag1` feature names suggest the previous day's values. Prediksi.py
  (lines 57-61) reads them from the same last entry as the same-day features,
  so each equals its same-day twin (`Forecast.FeaturesOf`).

Two observations the proofs make explicit:

- Cleaning never changes the derived category (`Cleaning.CleaningDoesNotChangeCategory`).
  8888 and 9999 are above 100 anyway, and coercion already turns "-" into NaN.
  After coercion, "Tidak Diketahui" is unreachable on the data page, and every
  missing reading is counted as "Hujan Sangat Lebat" (`Cleaning.CategoryOfCellNeverUnknown`).
- The icon and tip tables are keyed by "Tidak Hujan", but the data page calls
  dry days "No Rain". The tables also have no entry for "Hujan Sangat Lebat".
  Labels with those names get the cloud icon and no tip (`ForecastDisplay.TablesMissTwoCategories`).

## Model

| member | source | states |
|---|---|---|
| Values.ToFloat | pages/Data.py:21-24 | `float(rr)` passes a number through unchanged and hands text to the string conversion, whose failure is the exception |
| Rainfall.Classify | pages/Data.py:25-34 | the result is never "Tidak Diketahui"; it is No Rain iff the value is exactly 0, Ringan iff 0 < rr ≤ 20, Sedang iff 20 < rr ≤ 50, Lebat iff 50 < rr ≤ 100, and Sangat Lebat iff the value is not a finite number in [0, 100] (so also for negatives, NaN and infinities) |
| Rainfall.RrCategorization | pages/Data.py:19-34 | the result is one of the six label strings; it is "Tidak Diketahui" exactly when the conversion to float fails, and otherwise the name of the value's band |
| Rainfall.NameInjective | pages/Data.py:19-34 | the six categories have six distinct names, so a returned string identifies its category |
| Rainfall.ClassifyMatchesThresholds | pages/Data.py:25-34 | for every rr ≥ 0, the comparison chain agrees with an independent definition: the category ranked by how many of the thresholds 0, 20, 50, 100 lie strictly below rr |
| Rainfall.ClassifyMonotone | pages/Data.py:25-34 | for 0 ≤ x ≤ y, y's category is at least as heavy as x's |
| Rainfall.BandsPartition | pages/Data.py:25-34 | the five band tests cover [0, ∞) with no gap and no overlap: exactly one holds of each non-negative amount, it is the band of the category the chain returns, and the result is Sangat Lebat exactly above 100 |
| Rainfall.Boundaries | pages/Data.py:25-32 | each band's upper bound is inclusive: 0 → No Rain, 20 → Ringan, 20.0001 → Sedang, 50 → Sedang, 100 → Lebat, 100.0001 → Sangat Lebat |
| Rainfall.FallThroughIsVeryHeavy | pages/Data.py:33-34 | negative amounts, NaN and both infinities fall through to Sangat Lebat, so over all reals the category is not monotone |
| Cleaning.Clean | pages/Data.py:60 | a cell changes exactly when it is one of '8888', '9999', '-', 8888, 9999, and it then becomes NaN; no sentinel survives |
| Cleaning.CleanColumn | pages/Data.py:60 | cleaning a column keeps its length, changes exactly the sentinel cells, and leaves no sentinel |
| Cleaning.CleanColumnIdempotent | pages/Data.py:60 | cleaning an already cleaned column changes nothing |
| Cleaning.ToNumeric | pages/Data.py:61-63 | coercion keeps every value that converts and turns every other cell into NaN |
| Cleaning.CategoryOfCell | pages/Data.py:60-70 | the category the page derives for an RR cell is one of the six label strings |
| Cleaning.CategoryOfCellNeverUnknown | pages/Data.py:60-70 | after cleaning and coercion the category is never "Tidak Diketahui", and sentinels and missing readings become "Hujan Sangat Lebat" |
| Cleaning.CleaningDoesNotChangeCategory | pages/Data.py:60-70 | when the sentinel strings parse as Python parses them, categorising with or without the cleaning step gives the same label for every cell |
| Forecast.Start | pages/Prediksi.py:53 | the initial history has a last entry in every series |
| Forecast.StartIsPersistent | pages/Prediksi.py:53 | every series starts with length 1, holding today's reading |
| Forecast.LastThree | pages/Prediksi.py:62 | `xs[-3:]` holds the last min(3, len) entries of the series |
| Forecast.MeanOfConstant | pages/Prediksi.py:62 | the mean of copies of one value is that value |
| Forecast.Features.Vector | pages/Prediksi.py:56-66 | the frame handed to the scaler has twelve columns in the order the feature dict lists them, TN, TX, TAVG, RH_AVG, SS, RR_lag1, TAVG_lag1, RH_AVG_lag1, SS_lag1, TX_lag1, TN_lag1, RR_rolling_mean_3d_lag1, and each holds the feature of that name |
| Forecast.FeaturesOf | pages/Prediksi.py:56-62 | each lag-1 feature equals the current last value of its series, as does its same-day twin; the rolling feature is the mean of the last min(3, len) RR values |
| Forecast.FeaturesOfPersistent | pages/Prediksi.py:56-62 | a history of any length that holds only today's readings yields today's features, with the rolling RR mean equal to today's rr |
| Forecast.Persist | pages/Prediksi.py:72-73 | appending keeps the series as a prefix, adds exactly one entry, and the new last value equals the previous last value |
| Forecast.Advance | pages/Prediksi.py:72-73 | a step leaves every series with a last entry |
| Forecast.AdvancePersistent | pages/Prediksi.py:72-73 | a step keeps every entry of every series equal to today's reading and adds exactly one entry to each series |
| Forecast.Decode | pages/Prediksi.py:68 | `inverse_transform` succeeds exactly for a code in the fitted range, returns one of the fitted classes, and otherwise reports that code |
| Forecast.Infer | pages/Prediksi.py:65-68 | the chain succeeds exactly when the scaler and the model accept their inputs and the code is in range, and a predicted label is always one of the encoder's classes |
| Forecast.Predict | pages/Prediksi.py:50-76 | the rollout fails (with no partial result) exactly when today's prediction fails, reporting its error; otherwise it returns exactly n_days entries, entry i dated today + i + 1 and carrying today's prediction, and a history whose series have length n_days + 1, every entry equal to today's reading |
| Forecast.ForecastDatesConsecutive | pages/Prediksi.py:69-70 | the dates of a completed run are consecutive and strictly increasing, and every label is one of the encoder's classes |
| ForecastDisplay.Icon | pages/Prediksi.py:85 | a known label gets its entry in the icon table, and the icon is the cloud exactly for labels the table does not contain |
| ForecastDisplay.Tip | pages/Prediksi.py:86 | a known label gets its entry in the tip table, and the tip is empty exactly for labels the table does not contain |
| ForecastDisplay.Rows | pages/Prediksi.py:84-87 | one row per forecast entry, in order, with its date and label, the TAVG of history entry i + 1, and the icon and tip looked up for its label with their defaults |
| ForecastDisplay.CompletedRunDisplays | pages/Prediksi.py:84-87 | for every completed run, `hist['TAVG'][i+1]` is in bounds for every entry index i, and row i shows today's TAVG and the date today + i + 1 |
| ForecastDisplay.TablesMissTwoCategories | pages/Prediksi.py:36-47 | "No Rain" and "Hujan Sangat Lebat" get the cloud icon and no tip, while the other three rain categories have both |
| Dicts.Put | pages/Evaluasi_Model.py:38 | assigning a key makes it map to the new value; an existing key keeps its place, and a new key goes at the end |
| Dicts.PutKeepsOthers | pages/Evaluasi_Model.py:38 | assigning one key leaves every other key's lookup unchanged |
| Evaluation.ComputeMetrics | pages/Evaluasi_Model.py:35-44 | the metrics map has exactly one entry per model, in the models' insertion order, and each entry holds that model's scores |
| Evaluation.BestModel | pages/Evaluasi_Model.py:49 | there is no best model (Python `max` raises) exactly when the map is empty; otherwise the selected key's F1 is at least every model's F1, and every earlier model's F1 is strictly lower, so ties go to the first model |
| Evaluation.FirstMaxUnique | pages/Evaluasi_Model.py:49 | at most one position is the first maximum, so the selection is fully determined |
| Evaluation.ComparePage | pages/Evaluasi_Model.py:13-49 | with the four loaded models, the metrics keys are those models in load order, and the selected best model is one of them with no higher F1 anywhere |
| Evaluation.Explanation | pages/Evaluasi_Model.py:69-91 | the explanation is empty exactly for a name with no text in the table |
| Evaluation.EveryModelExplained | pages/Evaluasi_Model.py:58-91 | every model the selector offers has its own non-empty explanation |

## Left out

- Streamlit widgets, `session_state`, HTML rendering, and the static text of Home.py. These are presentation only.
- Plotly charts and the folium map. These are external rendering libraries.
- Artifact loading with joblib and the Excel/CSV reads, including the `FileNotFoundError` path that stops the page. These are file I/O. `Evaluation.ComparePage` starts from the four loaded models.
- The scaler and classifier internals. They are abstract function parameters that may reject their input. The label encoder is modelled as its fitted class list.
- sklearn's accuracy, precision, recall, F1 and confusion matrix. These are foreign calls, so the metrics are inputs. The confusion-matrix lookup is only displayed and is not modelled.
- Conversion of text to numbers, by Python's `float` or `pd.to_numeric`. It is the parameter `parse`, because its grammar belongs to the Python runtime.
- Python objects other than text and numbers passed to `float()`, such as booleans and None. Spreadsheet cells are text or numbers.
- IEEE rounding. Finite floats are exact reals, so the three-day mean of three equal values is that value. In doubles, `(r + r + r) / 3` can differ from `r` by one unit in the last place.
- Forecast.FeaturesOfPersistent: every step's features equal today's in real arithmetic. This is not claimed under double rounding, from the third step on.
- Forecast.Predict: the constant forecast rests on the equality above and holds for real arithmetic. Dates are day numbers. `datetime.today()` is the parameter `today`, and the `%d-%m-%Y` formatting is a library call.
- The cleaning step runs over every column of the table, followed by `infer_objects`. The model covers one column, which is the same map cell by cell.
- The date parsing, monthly means and yearly sums of the data page. These are pandas aggregation work.
