/**
 * The deterministic logic of excelexport/views.py: the required-field and
 * numeric checks of the materials-testing form and how their failures and
 * the calculator's are reported, the query-parameter test and the title
 * defaults of the GDP spreadsheet, and the tables of the on-screen
 * mechanical inspection report.
 */
module Views {
  import opened Wrappers
  import NumberText
  import opened Models
  import opened Statistics
  import opened Report
  import opened StressCalculator

  /** A value of the decoded JSON request body. */
  datatype Json = JNull | JBool(b: bool) | JNumber(x: real) | JString(s: string)
                | JArray(length: nat) | JObject(size: nat)

  /** Python truthiness: `None`, `False`, `0`, `''`, `[]` and `{}` are false. */
  predicate Truthy(v: Json)
  {
    match v
    case JNull => false
    case JBool(b) => b
    case JNumber(x) => x != 0.0
    case JString(s) => s != ""
    case JArray(n) => n > 0
    case JObject(n) => n > 0
  }

  /**
   * The fields the view reads from `sample_parameters` and
   * `scale_load_measurements`; an absent key reads as `JNull`, an absent
   * identifier as `None`.
   */
  datatype MeasurementForm = MeasurementForm(
    mass: Json, length: Json, utnScale: Json,
    yieldMain: Json, yieldCounter: Json, tensileMain: Json, tensileCounter: Json,
    sampleNumber: Option<string>, heatNumber: Option<string>)

  /** The `required_fields` dictionary, in its insertion order. */
  function RequiredFields(form: MeasurementForm): (fields: seq<(string, Json)>)
    ensures |fields| == 7
  {
    [("mass", form.mass), ("length", form.length), ("utn_scale", form.utnScale),
     ("yield_load_main_scale", form.yieldMain), ("yield_load_counter_part", form.yieldCounter),
     ("tensile_load_main_scale", form.tensileMain), ("tensile_load_counter_part", form.tensileCounter)]
  }

  /** `[field for field, value in required_fields.items() if not value]`. */
  function MissingFields(fields: seq<(string, Json)>): (names: seq<string>)
    ensures |names| <= |fields|
    ensures names == [] <==> forall k :: 0 <= k < |fields| ==> Truthy(fields[k].1)
    ensures forall k :: 0 <= k < |fields| && !Truthy(fields[k].1) ==> fields[k].0 in names
    ensures forall n :: n in names ==> exists k :: 0 <= k < |fields| && fields[k].0 == n && !Truthy(fields[k].1)
  {
    if fields == [] then []
    else
      var rest := MissingFields(fields[1..]);
      assert forall k :: 1 <= k < |fields| ==> fields[k] == fields[1..][k - 1];
      if Truthy(fields[0].1) then rest else [fields[0].0] + rest
  }

  /**
   * The comprehension walks the fields in order: one more field at the end
   * adds its name at the end exactly when its value is falsy. With
   * `MissingFields([]) == []` this fixes the list, its order and its length.
   */
  lemma {:induction false} MissingFieldsAppend(fields: seq<(string, Json)>, x: (string, Json))
    ensures MissingFields(fields + [x]) == MissingFields(fields) + (if Truthy(x.1) then [] else [x.0])
  {
    if fields != [] {
      assert (fields + [x])[0] == fields[0];
      assert (fields + [x])[1..] == fields[1..] + [x];
      MissingFieldsAppend(fields[1..], x);
    }
  }

  /** `sep.join(parts)`. */
  function Join(parts: seq<string>, sep: string): string
  {
    if parts == [] then ""
    else if |parts| == 1 then parts[0]
    else parts[0] + sep + Join(parts[1..], sep)
  }

  function MissingMessage(names: seq<string>): string
  {
    "Missing required fields for calculations: " + Join(names, ", ")
  }

  /**
   * `float(v)`. Parsing a string is Python's own `float()`, passed in as
   * `parse` (its error is the exception text).
   */
  function ToFloat(v: Json, parse: string -> Result<real, string>): Result<real, string>
  {
    match v
    case JNull => Failure("float() argument must be a string or a real number, not 'NoneType'")
    case JBool(b) => Success(if b then 1.0 else 0.0)
    case JNumber(x) => Success(x)
    case JString(s) => parse(s)
    case JArray(_) => Failure("float() argument must be a string or a real number, not 'list'")
    case JObject(_) => Failure("float() argument must be a string or a real number, not 'dict'")
  }

  /** The seven conversions in order; the first failure is the one reported. */
  function ConvertAll(values: seq<Json>, parse: string -> Result<real, string>): (r: Result<seq<real>, string>)
    ensures r.Success? <==> forall k :: 0 <= k < |values| ==> ToFloat(values[k], parse).Success?
    ensures r.Success? ==> |r.value| == |values|
                           && forall k :: 0 <= k < |values| ==> r.value[k] == ToFloat(values[k], parse).value
  {
    if values == [] then Success([])
    else
      match ToFloat(values[0], parse)
      case Failure(e) => Failure(e)
      case Success(x) =>
        var rest := ConvertAll(values[1..], parse);
        assert forall k :: 1 <= k < |values| ==> values[k] == values[1..][k - 1];
        match rest
        case Failure(e) => Failure(e)
        case Success(xs) => Success([x] + xs)
  }

  /** The error reported is that of the first value `float()` rejects. */
  lemma {:induction false} ConvertAllFirstFailure(values: seq<Json>, parse: string -> Result<real, string>, k: nat)
    requires k < |values| && ToFloat(values[k], parse).Failure?
    requires forall j :: 0 <= j < k ==> ToFloat(values[j], parse).Success?
    ensures ConvertAll(values, parse) == Failure(ToFloat(values[k], parse).error)
  {
    if k > 0 {
      assert forall j :: 0 <= j < k - 1 ==> values[1..][j] == values[j + 1];
      ConvertAllFirstFailure(values[1..], parse, k - 1);
    }
  }

  /** The values of `required_fields`, in order. */
  function FormValues(form: MeasurementForm): (values: seq<Json>)
    ensures |values| == 7
    ensures forall j :: 0 <= j < 7 ==> values[j] == RequiredFields(form)[j].1
  {
    [form.mass, form.length, form.utnScale, form.yieldMain, form.yieldCounter,
     form.tensileMain, form.tensileCounter]
  }

  /** The converted inputs of the calculator. */
  datatype Inputs = Inputs(mass: real, length: real, utnScale: real,
                           yieldMain: real, yieldCounter: real, tensileMain: real, tensileCounter: real)

  /**
   * Lines 50-80: a 400 naming every falsy required field, else a 400 for
   * the first value `float()` rejects, else the seven floats.
   */
  function CheckForm(form: MeasurementForm, parse: string -> Result<real, string>): (r: Result<Inputs, string>)
    ensures MissingFields(RequiredFields(form)) != [] ==> r == Failure(MissingMessage(MissingFields(RequiredFields(form))))
    ensures r.Success? ==> forall k :: 0 <= k < 7 ==> Truthy(RequiredFields(form)[k].1)
    ensures MissingFields(RequiredFields(form)) == []
            && (forall k :: 0 <= k < 7 ==> ToFloat(RequiredFields(form)[k].1, parse).Success?)
            ==> r.Success?
    ensures r.Success? ==> ToFloat(form.mass, parse) == Success(r.value.mass)
                           && ToFloat(form.length, parse) == Success(r.value.length)
                           && ToFloat(form.utnScale, parse) == Success(r.value.utnScale)
                           && ToFloat(form.yieldMain, parse) == Success(r.value.yieldMain)
                           && ToFloat(form.yieldCounter, parse) == Success(r.value.yieldCounter)
                           && ToFloat(form.tensileMain, parse) == Success(r.value.tensileMain)
                           && ToFloat(form.tensileCounter, parse) == Success(r.value.tensileCounter)
  {
    var fields := RequiredFields(form);
    var missing := MissingFields(fields);
    if missing != [] then Failure(MissingMessage(missing))
    else
      match ConvertAll(FormValues(form), parse)
      case Failure(e) => Failure("Invalid numeric values: " + e)
      case Success(xs) => Success(Inputs(xs[0], xs[1], xs[2], xs[3], xs[4], xs[5], xs[6]))
  }

  /** A zero number counts as missing, so a zero mass never reaches `float()`. */
  lemma ZeroIsMissing(form: MeasurementForm, parse: string -> Result<real, string>)
    requires form.mass == JNumber(0.0) || form.mass == JString("") || form.mass == JNull
    ensures "mass" in MissingFields(RequiredFields(form))
    ensures CheckForm(form, parse) == Failure(MissingMessage(MissingFields(RequiredFields(form))))
  {
    assert !Truthy(RequiredFields(form)[0].1);
  }

  /** A zero mass and an empty length, the other five fields truthy. */
  predicate MassAndLengthBlank(form: MeasurementForm)
  {
    && form.mass == JNumber(0.0) && form.length == JString("")
    && Truthy(form.utnScale) && Truthy(form.yieldMain) && Truthy(form.yieldCounter)
    && Truthy(form.tensileMain) && Truthy(form.tensileCounter)
  }

  /** Only mass and length are missing, named in the order of `required_fields`. */
  lemma MassAndLengthMissing(form: MeasurementForm)
    requires MassAndLengthBlank(form)
    ensures MissingFields(RequiredFields(form)) == ["mass", "length"]
  {
    var fields := RequiredFields(form);
    var tail := fields[2..];
    assert forall k :: 0 <= k < |tail| ==> Truthy(tail[k].1);
    assert fields[1..][1..] == tail;
  }

  /** The names are joined with ", " after the fixed prefix. */
  lemma MassAndLengthText()
    ensures MissingMessage(["mass", "length"]) == "Missing required fields for calculations: mass, length"
  {
    assert ["mass", "length"][1..] == ["length"];
    assert Join(["length"], ", ") == "length";
  }

  /**
   * The message lists the falsy fields in the order of `required_fields`,
   * separated by ", ".
   */
  lemma MassAndLengthMissingMessage(form: MeasurementForm, parse: string -> Result<real, string>)
    requires MassAndLengthBlank(form)
    ensures CheckForm(form, parse) == Failure("Missing required fields for calculations: mass, length")
  {
    MassAndLengthMissing(form);
    MassAndLengthText();
  }

  /**
   * With every field present, the 400 names the first field, in the order of
   * `required_fields`, that `float()` rejects.
   */
  lemma NumericFailureIsFirst(form: MeasurementForm, parse: string -> Result<real, string>, k: nat)
    requires MissingFields(RequiredFields(form)) == []
    requires k < 7 && ToFloat(RequiredFields(form)[k].1, parse).Failure?
    requires forall j :: 0 <= j < k ==> ToFloat(RequiredFields(form)[j].1, parse).Success?
    ensures CheckForm(form, parse) == Failure("Invalid numeric values: " + ToFloat(RequiredFields(form)[k].1, parse).error)
  {
    ConvertAllFirstFailure(FormValues(form), parse, k);
  }

  /** A validation failure or a calculator failure becomes a 400 carrying its message. */
  datatype Reply = Reply(status: nat, message: string)

  const SuccessMessage: string := "Data saved and calculations completed successfully"

  /** Lines 84-90: a sample record when both identifiers are non-empty. */
  function SampleOf(form: MeasurementForm, m: Inputs): (s: Option<SampleParameters>)
    ensures s.Some? <==> form.sampleNumber.Some? && form.sampleNumber.value != ""
                         && form.heatNumber.Some? && form.heatNumber.value != ""
    ensures s.Some? ==> s.value == SampleParameters(form.sampleNumber.value, form.heatNumber.value, m.mass, m.length)
  {
    if form.sampleNumber.Some? && form.sampleNumber.value != "" && form.heatNumber.Some? && form.heatNumber.value != ""
    then Some(SampleParameters(form.sampleNumber.value, form.heatNumber.value, m.mass, m.length))
    else None
  }

  /** The calculator as the view calls it: every argument a Python `float`. */
  function ViewCalculation(m: Inputs): Result<CalculatedValues, string>
  {
    CalculateStress(m.mass, m.length, NumberText.Float(m.utnScale), m.yieldMain, m.yieldCounter,
                    m.tensileMain, m.tensileCounter)
  }

  /**
   * A string zero is truthy, so a length of "0" passes the required-field
   * check and fails in the calculator with the division-by-zero message.
   */
  lemma StringZeroLengthReachesCalculator(form: MeasurementForm, parse: string -> Result<real, string>)
    requires CheckForm(form, parse).Success? && form.length == JString("0") && parse("0") == Success(0.0)
    ensures ViewCalculation(CheckForm(form, parse).value) == Failure(DivisionByZeroMessage)
  {
  }

  /** Through the view, a valid scale is labelled with its float text, e.g. "Division 50.0kgf". */
  lemma ViewLabelShowsFloat(m: Inputs)
    requires ViewCalculation(m).Success?
    ensures m.utnScale in {10.0, 25.0, 50.0, 100.0}
    ensures ViewCalculation(m).value.divisionType == "Division " + NumberText.FloatText(m.utnScale) + "kgf"
    ensures m.utnScale == 50.0 ==> ViewCalculation(m).value.divisionType == "Division 50.0kgf"
  {
    if m.utnScale == 50.0 {
      LabelsOfIntAndFloatScales();
    }
  }

  /**
   * The POST branch of `advanced_materials_testing` up to the calculator:
   * validation errors and calculator errors are 400s that leave the store
   * unchanged; a success appends the calculator's one record.
   */
  method AdvancedMaterialsTesting(store: StressStore, form: MeasurementForm,
                                  parse: string -> Result<real, string>, now: DateTime)
    returns (reply: Reply)
    requires store.Valid()
    modifies store
    ensures store.Valid()
    ensures CheckForm(form, parse).Failure? ==>
              reply == Reply(400, CheckForm(form, parse).error) && store.records == old(store.records)
    ensures CheckForm(form, parse).Success? ==>
              var m := CheckForm(form, parse).value;
              var r := ViewCalculation(m);
              && (r.Failure? ==> reply == Reply(400, r.error) && store.records == old(store.records))
              && (r.Success? ==> reply == Reply(200, SuccessMessage)
                                 && store.records == old(store.records) + [RecordOf(r.value, now, SampleOf(form, m), None)])
  {
    var checked := CheckForm(form, parse);
    if checked.Failure? {
      return Reply(400, checked.error);
    }
    var m := checked.value;
    var sample := SampleOf(form, m);
    var result := store.CalculateAndStoreStress(m.mass, m.length, NumberText.Float(m.utnScale),
                                                m.yieldMain, m.yieldCounter, m.tensileMain, m.tensileCounter,
                                                sample, None, now);
    if result.Failed? {
      return Reply(400, result.error);
    }
    reply := Reply(200, SuccessMessage);
  }

  /** `is_valid_queryparam`: neither the empty string nor `None`. */
  function IsValidQueryParam(p: Option<string>): (ok: bool)
    ensures ok <==> p.Some? && |p.value| > 0
  {
    p != Some("") && p != None
  }

  /** Heading (cell A1), subheading (A2) and sheet title of the GDP workbook. */
  datatype ExcelTitles = ExcelTitles(heading: string, subheading: string, sheetTitle: string)

  /** Lines 352-381: a missing or empty year or name falls back to its default. */
  function GdpExcelTitles(name: Option<string>, year: Option<string>): (t: ExcelTitles)
    ensures t.heading == t.sheetTitle
    ensures IsValidQueryParam(year) ==> t.heading == "Countries GDP List " + year.value
    ensures !IsValidQueryParam(year) ==> t.heading == "Countries GDP List 2013 - 2016"
    ensures IsValidQueryParam(name) ==> t.subheading == name.value
    ensures !IsValidQueryParam(name) ==> t.subheading == "All Countries"
  {
    var shownYear := if year.None? || year.value == "" then "2013 - 2016" else year.value;
    var shownName := if name.None? || name.value == "" then "All Countries" else name.value;
    ExcelTitles("Countries GDP List" + " " + shownYear, shownName, "Countries GDP List" + " " + shownYear)
  }

  /**
   * `float(row[field])` for a non-empty numeric cell: the formatted text
   * reads back as the value rounded to the column's decimals. Numeric
   * columns hold nothing but `Fixed` and `Blank` cells.
   */
  function ParsedCell(c: Cell): Option<real>
  {
    match c
    case Fixed(x, p) => Some(Rounded(x, p))
    case _ => None
  }

  /** The `values` list of one numeric column, in row order. */
  function ParsedColumn(table: seq<seq<Cell>>, col: nat): seq<real>
    requires forall i :: 0 <= i < |table| ==> col < |table[i]|
  {
    if table == [] then []
    else
      var last := table[|table| - 1];
      ParsedColumn(table[..|table| - 1], col)
      + (if ParsedCell(last[col]).Some? then [ParsedCell(last[col]).value] else [])
  }

  function RoundAll(values: seq<real>, places: nat): (r: seq<real>)
    ensures |r| == |values|
  {
    seq(|values|, i requires 0 <= i < |values| => Rounded(values[i], places))
  }

  /**
   * The on-screen statistics are taken over the readings the CSV export
   * uses, each rounded to its column's decimals.
   */
  lemma {:induction false} ParsedColumnIsRoundedReadings(records: seq<StressCalculation>, k: nat)
    requires k < |NumericFields|
    ensures ParsedColumn(Rows(records), FirstNumeric + k)
            == RoundAll(CollectReadings(records, NumericFields[k]), Places(NumericFields[k]))
  {
    if records != [] {
      var n := |records|;
      var front := records[..n - 1];
      var f := NumericFields[k];
      assert Rows(records)[..n - 1] == Rows(front);
      ParsedColumnIsRoundedReadings(front, k);
      RowCells(n, records[n - 1], k);
      var a := CollectReadings(front, f);
      var b := if Reading(records[n - 1], f).Some? then [Reading(records[n - 1], f).value] else [];
      assert RoundAll(a + b, Places(f)) == RoundAll(a, Places(f)) + RoundAll(b, Places(f));
    }
  }

  /** `summary_data`: empty without rows, else the eight fields' statistics in order. */
  function SummaryData(table: seq<seq<Cell>>): (summary: seq<(Field, FieldStats)>)
    requires forall i :: 0 <= i < |table| ==> |table[i]| == RowWidth
    ensures summary == [] <==> table == []
    ensures table != [] ==> |summary| == |NumericFields|
  {
    if table == [] then []
    else seq(|NumericFields|, k requires 0 <= k < |NumericFields| =>
               (NumericFields[k], Summarize(ParsedColumn(table, FirstNumeric + k))))
  }

  /**
   * A field's on-screen statistics are blank exactly when no record has a
   * non-zero value for it (as in the CSV export); otherwise min <= avg <= max.
   */
  lemma ReportStats(records: seq<StressCalculation>, k: nat)
    requires records != [] && k < |NumericFields|
    ensures var s := SummaryData(Rows(records))[k];
            && s.0 == NumericFields[k]
            && (s.1.min == Blank <==> forall i :: 0 <= i < |records| ==> Reading(records[i], NumericFields[k]).None?)
            && (s.1.min != Blank ==> s.1.min.Fixed? && s.1.avg.Fixed? && s.1.max.Fixed? && s.1.min.x <= s.1.avg.x <= s.1.max.x)
  {
    var f := NumericFields[k];
    var vs := ParsedColumn(Rows(records), FirstNumeric + k);
    ParsedColumnIsRoundedReadings(records, k);
    CollectReadingsEmpty(records, f);
    assert vs == [] <==> CollectReadings(records, f) == [];
    assert SummaryData(Rows(records))[k] == (f, Summarize(vs));
  }

  /**
   * The on-screen average is the mean of the CSV export's values for the
   * field, each first rounded to the column's decimals.
   */
  lemma ReportAverage(records: seq<StressCalculation>, k: nat)
    requires k < |NumericFields| && CollectReadings(records, NumericFields[k]) != []
    ensures records != []
    ensures SummaryData(Rows(records))[k].1.avg
            == Fixed(Mean(RoundAll(CollectReadings(records, NumericFields[k]), Places(NumericFields[k]))), 2)
  {
    var f := NumericFields[k];
    var vs := ParsedColumn(Rows(records), FirstNumeric + k);
    ParsedColumnIsRoundedReadings(records, k);
    assert vs == RoundAll(CollectReadings(records, f), Places(f));
    assert SummaryData(Rows(records))[k] == (f, Summarize(vs));
  }

  /** The loop that parses one numeric column back from its formatted cells. */
  method ParseColumn(table: seq<seq<Cell>>, col: nat) returns (values: seq<real>)
    requires forall i :: 0 <= i < |table| ==> col < |table[i]|
    ensures values == ParsedColumn(table, col)
  {
    values := [];
    var r := 0;
    while r < |table|
      invariant 0 <= r <= |table|
      invariant values == ParsedColumn(table[..r], col)
    {
      assert table[..r + 1][..r] == table[..r];
      var parsed := ParsedCell(table[r][col]);
      if parsed.Some? {
        values := values + [parsed.value];
      }
      r := r + 1;
    }
    assert table[..r] == table;
  }

  /**
   * `mechanical_inspection_report`: the table of the oldest 15
   * calculations, the per-field statistics, the record count and the
   * inspection header handed to the template.
   */
  method MechanicalInspectionReport(store: seq<StressCalculation>, latest: Option<InspectionReport>)
    returns (table: seq<seq<Cell>>, summary: seq<(Field, FieldStats)>, totalRecords: nat, header: Header)
    ensures table == Rows(OldestRecords(store))
    ensures |table| <= ReportLimit
    ensures summary == SummaryData(table)
    ensures totalRecords == |table|
    ensures header == HeaderOf(latest)
  {
    var calcs := OldestRecords(store);
    header := HeaderOf(latest);
    table := [];
    var i := 0;
    while i < |calcs|
      invariant 0 <= i <= |calcs|
      invariant table == Rows(calcs)[..i]
    {
      table := table + [InspectionRow(i + 1, calcs[i])];
      i := i + 1;
    }
    assert table == Rows(calcs);

    summary := [];
    if table != [] {
      var k := 0;
      while k < |NumericFields|
        invariant 0 <= k <= |NumericFields|
        invariant summary == SummaryData(table)[..k]
      {
        var col := FirstNumeric + k;
        var values := ParseColumn(table, col);
        summary := summary + [(NumericFields[k], Summarize(values))];
        k := k + 1;
      }
    }
    totalRecords := |table|;
  }
}
