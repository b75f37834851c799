# Steel-sample stress engine — a Dafny model

This project models the stress engine of the materials-testing web application: the calibration library (`excelexport/calclation.py`) and the stress calculator that stores its results (`excelexport/stress_calculator.py`). It also models the deterministic logic around the engine in `excelexport/views.py`, `excelexport/views_csv.py` and `excelexport/models.py`.

Each of the four load-cell divisions (10, 25, 50 and 100 kgf) has its own cubic calibration curve. The curve turns a machine reading into a load, and that load is divided by the sample's cross-section area to give a stress. The cross-section area comes from the sample's mass and length. Each machine reading is `main + scale * counter`. A successful calculation appends one `StressCalculation` record to the store. The web view first validates the form. The two inspection reports (on screen and CSV) show the oldest 15 records with per-field Min, Max and AVG.

All quantities are Dafny `real`. The calibration constants are exact decimal literals of the source's E-notation values.

Modules, one per source file plus two shared ones:

| module | file | models |
|---|---|---|
| `Calibration` | calibration.dfy | `calclation.py`: the four curves, the zero-area failure, and the derivation, integer counters and if/elif selection of `main` |
| `StressCalculator` | stress_calculator.dfy | `stress_calculator.py`: the `division_functions` table, the error-to-message mapping, and the class `StressStore`, whose method appends one record |
| `Models` | models.dfy | `models.py`: the record types and the `@property` quantities |
| `Views` | views.dfy | `views.py`: required-field and numeric validation, `is_valid_queryparam`, the GDP title defaults, the on-screen report loops |
| `ViewsCsv` | views_csv.dfy | `views_csv.py`: the CSV rows, the `numeric_data` collection loop, the Min/Max/AVG row loops |
| `Report` | report.dfy | what both reports share: the 15-record window, the header, the 13-cell row, the per-field readings, the summary cells |
| `Statistics` | statistics.dfy | `min`, `max`, `sum/len`, and the value a `.Nf`-formatted number reads back as |
| `NumberText` | number_text.dfy | Python's `str()` of an `int` and of a `float`, which decides the text of the division label |
| `Wrappers` | wrappers.dfy | `Option` and `Result` |

Inputs that are I/O in the source become parameters:
- Python's `float()` on a string is a function parameter `parse` of the view model.
- The creation time the database assigns is a parameter `now`.
- Each report receives the record store and the latest inspection report as arguments.

## Model

| member | source | states |
|---|---|---|
| Calibration.DivisionStress | excelexport/calclation.py:1-87 | every division function succeeds exactly when the area is non-zero and otherwise fails with ZeroDivisionError; yield and tensile stress times the area equal 1000 times that division's cubic at the respective reading, in (yield, tensile) order |
| Calibration.DivisionCoefficients | excelexport/calclation.py:3-72 | each division uses exactly its own literal A, B, C, D (10: lines 25-28, 25: lines 3-6, 50: lines 47-50, 100: lines 69-72), stated in the source's mantissa/exponent form |
| Calibration.CubicIsHorner | excelexport/calclation.py:11-12 | the source's expanded cubic `A + B*x + C*x*x + D*x*x*x` equals the independent nested form |
| Calibration.ZeroReadingStress | excelexport/calclation.py:11-15 | at a zero reading both stresses are `1000*A/area` for that division's A |
| Calibration.EqualReadingsEqualStresses | excelexport/calclation.py:11-15 | yield and tensile share one polynomial, so equal readings give equal stresses |
| Calibration.SwapReadings | excelexport/calclation.py:11-15 | swapping the two readings swaps the two stresses |
| Calibration.MachineReading | excelexport/calclation.py:108-109 | the combined reading exceeds the main-scale reading by exactly scale times counter |
| Calibration.Derive | excelexport/calclation.py:104-109 | a zero length is the only failure; mass per metre times length gives back the mass; the area times 0.00785 gives back mass per metre; the area is zero exactly when the mass is; both readings are `main + scale*counter` |
| Calibration.SelectByChain | excelexport/calclation.py:122-133 | a chosen division's full scale equals the requested scale |
| Calibration.SelectionRoundTrip | excelexport/calclation.py:122-129 | every division is selected by its own scale value |
| Calibration.SelectionRejects | excelexport/calclation.py:130-133 | the chain selects nothing exactly for values outside {10, 25, 50, 100} |
| Calibration.DriverRun | excelexport/calclation.py:99-138 | the console driver stops with a division error on zero length, then with the scale error on an unsupported scale, then with a division error on zero mass; it computes exactly when all three checks pass; the geometry and readings are those `Derive` gives (mass / length, then / 0.00785, with integer counters); the stresses are those of the selected division over that derived area |
| Calibration.TotalLoadIsNotMachineReading | excelexport/models.py:132-134 | the models' total yield load equals the calculator's machine reading only when the counter is zero or the scale is one |
| Models.TemperatureDifference | excelexport/models.py:87-89 | positive exactly when the outlet is warmer, zero exactly when the temperatures are equal, inlet plus difference gives the outlet |
| Models.PressureDrop | excelexport/models.py:92-94 | non-negative exactly when the inlet pressure is at least the outlet pressure; outlet plus drop gives the inlet |
| Models.TotalYieldLoad | excelexport/models.py:132-134 | total minus counter part gives the main-scale yield load (no scale multiplier) |
| Models.TotalTensileLoad | excelexport/models.py:137-139 | total minus counter part gives the main-scale tensile load (no scale multiplier) |
| Models.YieldLoadDifference | excelexport/models.py:142-144 | never negative, zero exactly when main and counter are equal, and one of the two signed differences |
| Models.TensileLoadDifference | excelexport/models.py:147-149 | never negative, zero exactly when main and counter are equal, and one of the two signed differences |
| Models.YieldTotalBoundsDifference | excelexport/models.py:132-144 | for non-negative readings the difference never exceeds the total, and total plus difference is twice the larger reading |
| Models.TensileTotalBoundsDifference | excelexport/models.py:137-149 | for non-negative readings the difference never exceeds the total, and total plus difference is twice the larger reading |
| NumberText.NatText | excelexport/stress_calculator.py:65 | the decimal text of a whole number is a non-empty digit string without a leading zero |
| NumberText.NatTextRoundTrip | excelexport/stress_calculator.py:65 | reading the written digits back gives the number again |
| NumberText.WholeFloatText | excelexport/stress_calculator.py:65 | in Python's positional range (below 10^16, which covers every supported scale), a whole-valued float prints as the equal int's text followed by ".0"; the exponent form above it is not modelled |
| StressCalculator.TableMatchesChain | excelexport/stress_calculator.py:34-39 | the `division_functions` table and the driver's if/elif chain accept the same scales and choose the same curve |
| StressCalculator.LabelsOfIntAndFloatScales | excelexport/stress_calculator.py:65 | an int scale 25 is labelled "Division 25kgf", a float scale 50 "Division 50.0kgf", and the float and int labels of 50 differ |
| StressCalculator.CalculateStress | excelexport/stress_calculator.py:24-91 | errors come in source order: zero length gives the division-by-zero message whatever the scale; then an unknown scale gives the invalid-scale message carrying the scale's text; then zero mass gives the division-by-zero message. It succeeds exactly when length and mass are non-zero and the scale is 10, 25, 50 or 100; on success mass per metre, area, readings and label are the derived ones |
| StressCalculator.CalculatedStressesFitCurve | excelexport/stress_calculator.py:34-49 | on success the scale is a key of the table, and both stresses are those of the curve it keys, over a non-zero area |
| StressCalculator.ZeroLengthWinsOverScale | excelexport/stress_calculator.py:26-42 | with zero length the outcome is the same failure for every scale |
| StressCalculator.ScaleCheckPrecedesZeroArea | excelexport/stress_calculator.py:27-49 | a zero mass with an unknown scale reports the scale error, not the division error |
| StressCalculator.FiftyUsesFiftyCurve | excelexport/stress_calculator.py:37-49 | scale 50 with non-zero mass and length succeeds with the stresses of the 50 kgf curve |
| StressCalculator.StoredRecordMatchesValues | excelexport/stress_calculator.py:53-84 | the stored record's seven computed fields are exactly the returned `calculated_values`, and it carries the creation time |
| StressCalculator.StressStore.CalculateAndStoreStress | excelexport/stress_calculator.py:10-91 | on failure it returns the error and the store is unchanged; on success exactly one record is appended, and it is returned with its values; every stored record stays consistent with some calibration curve |
| Statistics.Min | excelexport/views_csv.py:111 | the minimum is an element of the list and no larger than any element |
| Statistics.Max | excelexport/views_csv.py:122 | the maximum is an element of the list and no smaller than any element |
| Statistics.SumBetween | excelexport/views_csv.py:133 | a sum of n values between lo and hi lies between n*lo and n*hi |
| Statistics.MeanBetween | excelexport/views_csv.py:133 | the average of values between lo and hi lies between them |
| Statistics.MinMeanMax | excelexport/views_csv.py:110-135 | min <= average <= max for any non-empty list |
| Statistics.RoundHalfEven | excelexport/views.py:444-451 | the result is within half a unit of its argument, and a tie goes to the even neighbour |
| Statistics.RoundedIsClose | excelexport/views.py:466-469 | a value read back from its `.Nf` text differs from the value by at most half a unit in the last printed place |
| Report.OldestRecords | excelexport/views_csv.py:10-12 | at most 15 records, and they are the first ones of the store, in order |
| Report.HeaderOf | excelexport/views_csv.py:15-25 | three blanks without an inspection report; otherwise section, batch number and date of the latest one |
| Report.Reading | excelexport/views_csv.py:87-104 | a quantity is used exactly when it is present (a linked sample for mass and length) and non-zero, and then it is that quantity |
| Report.InspectionRow | excelexport/views_csv.py:54-68 | every data row has 13 cells |
| Report.RowCells | excelexport/views_csv.py:54-68 | a row starts with its serial number, then the heat number or a blank without a sample, then the creation time or a blank without one; a numeric cell is blank exactly when its quantity is missing or zero, and otherwise holds that quantity with the column's decimals; elongation and bend test are blank |
| Report.Rows | excelexport/views_csv.py:51-69 | one 13-cell row per record, with serial numbers 1..n in order |
| Report.CollectReadings | excelexport/views_csv.py:87-104 | a field never collects more values than there are records, and never a zero |
| Report.ReadingIndices | excelexport/views_csv.py:87-104 | the positions of the records that have a non-zero reading for the field: each such position appears, in strictly increasing order |
| Report.CollectReadingsInOrder | excelexport/views_csv.py:87-104 | the collected values are exactly the readings of those records, one per record and in record order |
| Report.CollectReadingsSound | excelexport/views_csv.py:87-104 | every collected value is the reading of some record |
| Report.CollectReadingsEmpty | excelexport/views_csv.py:87-113 | a field collects nothing exactly when every record's reading for it is missing or zero |
| Report.CollectReadingsComplete | excelexport/views_csv.py:87-104 | every record's present, non-zero reading is among the field's collected values |
| Report.Summarize | excelexport/views_csv.py:106-137 | the min, max and avg cells are all blank exactly when there are no values; otherwise they have two decimals, min and max are among the values and bound every value, avg is `sum/len` of the values, and min <= avg <= max |
| Views.MissingFields | excelexport/views.py:60 | no field is missing exactly when every value is truthy; every falsy field is named; every named field is falsy |
| Views.MissingFieldsAppend | excelexport/views.py:60 | one more field at the end adds its name at the end exactly when its value is falsy, which fixes the names' order as that of `required_fields` |
| Views.MassAndLengthMissing | excelexport/views.py:50-60 | with a zero mass, an empty length and the other five fields truthy, the missing names are exactly "mass" then "length" |
| Views.MassAndLengthText | excelexport/views.py:64 | the names are joined with ", " after the fixed prefix |
| Views.MassAndLengthMissingMessage | excelexport/views.py:50-65 | with a zero mass, an empty length and the other five fields truthy, the 400 message is exactly "Missing required fields for calculations: mass, length" |
| Views.ZeroIsMissing | excelexport/views.py:50-65 | a mass of 0, "" or None is reported missing, and the form fails with the missing-fields message before any conversion |
| Views.ConvertAll | excelexport/views.py:67-75 | the conversions succeed exactly when every value converts, and the results are the converted values in order |
| Views.ConvertAllFirstFailure | excelexport/views.py:67-80 | the error reported is that of the first value `float()` rejects |
| Views.CheckForm | excelexport/views.py:50-80 | missing fields give the missing-fields error; a form whose fields are all truthy and all convert passes; success implies every field is truthy, and the seven inputs are the fields' `float()` values |
| Views.NumericFailureIsFirst | excelexport/views.py:67-80 | with every field present, the 400 message is "Invalid numeric values: " followed by the error of the first field `float()` rejects |
| Views.SampleOf | excelexport/views.py:82-90 | a sample record is made exactly when both sample number and heat number are present and non-empty, and it holds those two numbers and the converted mass and length |
| Views.StringZeroLengthReachesCalculator | excelexport/views.py:60-110 | a length of "0" is truthy, passes validation and fails in the calculator with the division-by-zero message |
| Views.ViewLabelShowsFloat | excelexport/views.py:71 | through the view a successful scale is one of the four, its label uses the float's text, and scale 50 reads "Division 50.0kgf" |
| Views.AdvancedMaterialsTesting | excelexport/views.py:50-111 | a validation error or a calculator error is a 400 with that message and leaves the store unchanged; otherwise a 200, with exactly the calculator's record appended |
| Views.IsValidQueryParam | excelexport/views.py:234-235 | true exactly when the parameter is present and non-empty |
| Views.GdpExcelTitles | excelexport/views.py:352-381 | a valid year and name are kept; otherwise the year is "2013 - 2016" and the name "All Countries"; the sheet title equals the heading |
| Views.ParsedColumnIsRoundedReadings | excelexport/views.py:464-471 | the on-screen statistics read exactly the CSV export's collected values, each rounded to its column's decimals |
| Views.SummaryData | excelexport/views.py:458-480 | no statistics without rows; otherwise one entry per numeric field |
| Views.ReportStats | excelexport/views.py:458-480 | a field's on-screen min is blank exactly when no record has a non-zero value for it; otherwise min <= avg <= max |
| Views.ReportAverage | excelexport/views.py:464-477 | when the field has values, the on-screen avg is the mean of the CSV export's values, each rounded to the column's decimals |
| Views.ParseColumn | excelexport/views.py:465-471 | the loop collects exactly the column's parsed values in row order |
| Views.MechanicalInspectionReport | excelexport/views.py:416-480 | the table is the rows of the oldest 15 records; the summary is that of the table; the record count is the table length; the header is that of the latest report |
| ViewsCsv.HeaderRow | excelexport/views_csv.py:42-48 | the column-title row has 13 cells |
| ViewsCsv.NumericData | excelexport/views_csv.py:76-85 | one value list per numeric field |
| ViewsCsv.StatRow | excelexport/views_csv.py:107-137 | every summary row has 13 cells |
| ViewsCsv.CsvLayout | excelexport/views_csv.py:34-69 | the file is title, blank, the three header rows, blank, column titles, then one row per record numbered 1..n; the summary adds four rows only when there is a record; without an inspection report the header values are blank |
| ViewsCsv.CsvSummaryRows | excelexport/views_csv.py:72-137 | with at least one record the data is followed by a blank row and the Min, Max and AVG rows, in that order |
| ViewsCsv.StatRowCell | excelexport/views_csv.py:107-115 | the summary cell under a numeric column is that field's statistic |
| ViewsCsv.CsvStatCells | excelexport/views_csv.py:87-137 | a stat cell is blank exactly when no record has a non-zero value for the field, and the three are blank together; otherwise AVG is the mean of the collected values, Min <= AVG <= Max, and Min and Max bound every record's value |
| ViewsCsv.BuildStatRow | excelexport/views_csv.py:107-115 | the append loop builds exactly the specified summary row |
| ViewsCsv.CollectNumericData | excelexport/views_csv.py:87-104 | the one pass over the records fills every field's list exactly as `CollectReadings` specifies |
| ViewsCsv.MechanicalInspectionCsvExport | excelexport/views_csv.py:5-137 | the rows written are exactly the specified document for the oldest 15 records and the latest inspection report |

## Left out

- Console I/O of `calclation.py`: the `input()` prompts and every `print`, including those inside the division functions, are not modelled. The driver's inputs are parameters. A `ValueError` from reading a non-number is not modelled.
- Generic exception branches: the "An unexpected error occurred" branch (excelexport/stress_calculator.py:90-91, excelexport/calclation.py:139-140) is not modelled. It is reached by non-numeric arguments, which the typed model cannot receive, and by a failing `objects.create`, since the database is not modelled. The outer exception handler of the view is not modelled either. For example, a non-numeric `water_system` value (excelexport/views.py:121) turns the modelled 200 into a 500 after the stress record is already stored.
- Floating point: arithmetic is exact over `real`. IEEE-754 rounding, NaN and infinities are not modelled. A zero divisor is the ZeroDivisionError Python raises on a float division.
- NumberText.FloatText: a non-integral float is written as its exact decimal expansion cut at 17 fraction digits. Python's shortest round-trip `repr` and its exponent form for large or tiny values are not modelled. Whole values, which are the only values a supported scale can have, print as Python prints them.
- Statistics.Rounded: rounds the exact real value half to even. Python formats the binary double, so a decimal tie can round the other way. The rendered digits of `.Nf`, `strftime` and `str(i)` in the report cells are not modelled. Cells hold the value and its number of places.
- Persistence: the Django ORM, `transaction.atomic`, foreign keys and `MinValueValidator` are not modelled. `objects.create` does not run validators. The stress-calculation table is the sequence field of `StressStore`. `order_by('created_at')` is the store's append order.
- Views.AdvancedMaterialsTesting: the record store of `SampleParameters` is not modelled. The sample built by `SampleOf` is created before the calculator runs, so a failed calculation leaves it stored in the source.
- Views.AdvancedMaterialsTesting: everything after excelexport/views.py:111 is not modelled. That covers the water-system and scale-measurement records, the session and the success payload. Only the 200 and its message are kept.
- Request decoding: JSON parsing, `request.POST`, a non-object body and non-dictionary nested sections are not modelled. An absent key reads as `None`. Sample and heat numbers are taken to be strings.
- `countries_gdp_excel` and `countries_gdp_list`: the queryset filters (`icontains`, year) and the pagination are not modelled. The openpyxl workbook styling, merging and column data are not modelled either. Only the heading, the subheading and the sheet title are.
- Views.GdpExcelTitles: returns titles for every year. In the source, openpyxl's sheet-title setter raises ValueError at excelexport/views.py:381 when the year contains one of `\ * ? : / [ ]` (for example "2015/16", which the list view stores from `?year=`), so the export fails instead of producing a workbook. That failure is not modelled, since openpyxl is not part of this model.
- CSV output: quoting and line endings of `csv.writer` are not modelled. Each row is a sequence of cells.
- Not part of this model: the JavaScript files under `excelexport/static/`, `admin.py`, `urls.py`, the login and reset views, the analysis-results page, and the two test scripts (they post to a live server).
- Order of checks: the scale is checked at excelexport/stress_calculator.py:41. A zero cross-section area is only met inside the division function (lines 45-49), as a ZeroDivisionError. `StressCalculator.ScaleCheckPrecedesZeroArea` states this order.
