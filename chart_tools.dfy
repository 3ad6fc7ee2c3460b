/**
 * Chart data for the fields of a form: which fields can be charted, the
 * data type each one gets, the normalisation of time-zone suffixes for
 * JavaScript, and the shaping of the grouped submission counts (sorted by
 * count, `None` values dropped for time fields).
 */
module ChartTools {
  import opened Wrappers
  import opened Text
  import opened Sorting

  /** The field types that can be charted. */
  const ChartFields: seq<string> :=
    ["select one", "integer", "decimal", "date", "datetime", "start", "end", "today"]

  /** Field type to data type; any type not listed is `categorized`. */
  const DataTypeMap: map<string, string> := map[
    "integer" := "numeric",
    "decimal" := "numeric",
    "datetime" := "time_based",
    "date" := "time_based",
    "start" := "time_based",
    "end" := "time_based",
    "today" := "time_based"
  ]

  /** `DATA_TYPE_MAP.get(field_type, 'categorized')`. */
  function DataType(fieldType: string): string {
    if fieldType in DataTypeMap then DataTypeMap[fieldType] else "categorized"
  }

  /** Among the chartable types, only `select one` is categorized; numbers are numeric and every date or time type is time based. */
  lemma ChartFieldDataTypes(fieldType: string)
    requires fieldType in ChartFields
    ensures DataType(fieldType) == "categorized" <==> fieldType == "select one"
    ensures DataType(fieldType) == "numeric" <==> fieldType == "integer" || fieldType == "decimal"
    ensures DataType(fieldType) == "time_based" <==> fieldType in {"date", "datetime", "start", "end", "today"}
  {
  }

  // ---------------------------------------------------------------------
  // utc_time_string_for_javascript and the pattern (.+)\+(\d+)

  /**
   * `re.match(r'(.+)\+(\d+)', s)` can split `s` at `i`: a non-empty first
   * group without a newline (`.` excludes it), then `+`, then a digit.
   */
  predicate PlusDigitAt(s: string, i: int) {
    && 1 <= i && i + 1 < |s|
    && s[i] == '+' && IsDigit(s[i + 1])
    && forall j :: 0 <= j < i ==> s[j] != '\n'
  }

  /** Tries the split points from `hi - 1` down to 1, as the greedy `.+` backtracks. */
  function SearchDown(s: string, hi: nat): (r: Option<nat>)
    requires hi <= |s|
    ensures r.Some? ==> r.value < hi && PlusDigitAt(s, r.value) && forall j :: r.value < j < hi ==> !PlusDigitAt(s, j)
    ensures r.None? ==> forall j :: 0 <= j < hi ==> !PlusDigitAt(s, j)
  {
    if hi == 0 then None
    else if PlusDigitAt(s, hi - 1) then Some(hi - 1)
    else SearchDown(s, hi - 1)
  }

  /** Where `re.match` splits `s`: the last split point, since `.+` is greedy; `None` when the pattern does not match. */
  function MatchSplit(s: string): (r: Option<nat>)
    ensures r.Some? ==> PlusDigitAt(s, r.value) && forall j :: r.value < j ==> !PlusDigitAt(s, j)
    ensures r.None? ==> forall j :: !PlusDigitAt(s, j)
  {
    SearchDown(s, |s|)
  }

  /** The length of the run of digits starting at `start`: what the greedy `\d+` takes. */
  function DigitRun(s: string, start: nat): (n: nat)
    requires start <= |s|
    ensures start + n <= |s|
    ensures forall j :: start <= j < start + n ==> IsDigit(s[j])
    ensures start + n < |s| ==> !IsDigit(s[start + n])
    decreases |s| - start
  {
    if start < |s| && IsDigit(s[start]) then 1 + DigitRun(s, start + 1) else 0
  }

  datatype TimeError =
    | NoMatch         // the value does not match the `2014-01-16T12:07:23.322+03` format
    | BadOffsetLength // the offset has neither 2 nor 4 digits

  /**
   * `utc_time_string_for_javascript`: keeps the text before the matched `+`
   * and the digit run after it, padding a two-digit offset with `00`; any
   * text after the digit run is dropped. Both failures are `ValueError`s.
   */
  function UtcTimeStringForJavascript(s: string): (r: Result<string, TimeError>)
  {
    match MatchSplit(s)
    case None => Err(NoMatch)
    case Some(i) =>
      var n := DigitRun(s, i + 1);
      var tz := s[i + 1..i + 1 + n];
      if n == 2 then Ok(s[..i] + "+" + tz + "00")
      else if n == 4 then Ok(s[..i] + "+" + tz)
      else Err(BadOffsetLength)
  }

  /** A successful result is the matched prefix, `+` and exactly four digits: no colon. */
  lemma UtcTimeStringShape(s: string)
    requires UtcTimeStringForJavascript(s).Ok?
    ensures var t := UtcTimeStringForJavascript(s).value; var i := MatchSplit(s).value;
      && |t| == i + 5 && t[..i] == s[..i] && t[i] == '+'
      && (forall j :: i < j < |t| ==> IsDigit(t[j]))
      && ':' !in t[i..]
  {
  }

  /** The offset decides the outcome: two digits are padded, four kept, any other length or no match fails. */
  lemma UtcTimeStringCases(s: string)
    ensures MatchSplit(s).None? ==> UtcTimeStringForJavascript(s) == Err(NoMatch)
    ensures MatchSplit(s).Some? ==>
      var i := MatchSplit(s).value; var n := DigitRun(s, i + 1);
      && (n == 2 ==> UtcTimeStringForJavascript(s) == Ok(s[..i + 3] + "00"))
      && (n == 4 ==> UtcTimeStringForJavascript(s) == Ok(s[..i + 5]))
      && (n != 2 && n != 4 ==> UtcTimeStringForJavascript(s) == Err(BadOffsetLength))
  {
    if MatchSplit(s).Some? {
      var i := MatchSplit(s).value;
      var n := DigitRun(s, i + 1);
      assert s[..i] + "+" + s[i + 1..i + 1 + n] == s[..i + 1 + n];
    }
  }

  /** Normalising an already normalised string changes nothing. */
  lemma UtcTimeStringIdempotent(s: string)
    requires UtcTimeStringForJavascript(s).Ok?
    ensures UtcTimeStringForJavascript(UtcTimeStringForJavascript(s).value) == UtcTimeStringForJavascript(s)
  {
    var t := UtcTimeStringForJavascript(s).value;
    var i := MatchSplit(s).value;
    UtcTimeStringShape(s);
    assert PlusDigitAt(t, i) by {
      assert forall j :: 0 <= j < i ==> t[j] == s[j];
    }
    assert forall j :: i < j ==> !PlusDigitAt(t, j) by {
      forall j | i < j ensures !PlusDigitAt(t, j) {
        if j < |t| { assert IsDigit(t[j]); }
      }
    }
    var i' := MatchSplit(t).value;
    assert i' == i;
    assert DigitRun(t, i + 1) == 4;
    assert t[..i] + "+" + t[i + 1..i + 5] == t;
  }

  // ---------------------------------------------------------------------
  // Fields and labels

  /** A survey question's label: absent, plain text, or one text per language in the dictionary's key order. */
  datatype Label = NoLabel | TextLabel(text: string) | Translations(entries: seq<(string, string)>)

  datatype Element = Element(caption: Label, name: string, fieldType: string)

  /** What a chart is built for: the submission-time pseudo-field, or a survey element. */
  datatype ChartField = SubmissionTime | Survey(element: Element)

  datatype ChartError = LanguageIndexOutOfRange

  function Min(a: int, b: int): int { if a <= b then a else b }

  /**
   * The label of a survey element: for a non-empty translation dictionary
   * the text of language `min(languageIndex, len(languages) - 1)` (a
   * negative index counts from the end, as Python's list indexing does, and
   * one below `-len` raises `IndexError`); otherwise `label or name`.
   */
  function FieldLabel(e: Element, languageIndex: int): (r: Result<string, ChartError>)
    ensures r.Err? <==> e.caption.Translations? && e.caption.entries != [] && languageIndex < -|e.caption.entries|
    ensures r.Ok? && e.caption.Translations? && e.caption.entries != [] ==>
      exists k :: 0 <= k < |e.caption.entries| && r.value == e.caption.entries[k].1
  {
    match e.caption
    case Translations(entries) =>
      if entries == [] then Ok(e.name)
      else
        var idx := Min(languageIndex, |entries| - 1);
        var pos := if idx < 0 then idx + |entries| else idx;
        if pos < 0 then Err(LanguageIndexOutOfRange) else Ok(entries[pos].1)
    case TextLabel(text) => Ok(if text != "" then text else e.name)
    case NoLabel => Ok(e.name)
  }

  /** A non-negative language index never runs past the last language: larger indexes fall back to it. */
  lemma FieldLabelClampsLanguage(e: Element, languageIndex: nat)
    requires e.caption.Translations? && e.caption.entries != []
    ensures var n := |e.caption.entries|;
      FieldLabel(e, languageIndex) == Ok(e.caption.entries[if languageIndex < n then languageIndex else n - 1].1)
  {
  }

  /** Without translations the label is the text when it is non-empty, and the name otherwise. */
  lemma FieldLabelFallsBackToName(e: Element, languageIndex: int)
    requires !(e.caption.Translations? && e.caption.entries != [])
    ensures FieldLabel(e, languageIndex) == Ok(if e.caption.TextLabel? && e.caption.text != "" then e.caption.text else e.name)
  {
  }

  // ---------------------------------------------------------------------
  // Shaping the grouped counts

  /** One group of the submissions grouped by the field: the field's value and how many submissions have it. */
  datatype Row = Row(value: Option<string>, count: int)

  predicate CountLe(a: Row, b: Row) { a.count <= b.count }

  lemma CountLeIsTotalPreorder()
    ensures TotalPreorder(CountLe)
  {
  }

  /** `sorted(result, key=lambda d: d['count'])`. */
  function SortByCount(rows: seq<Row>): (r: seq<Row>)
    ensures multiset(r) == multiset(rows)
    ensures SortedBy(r, CountLe)
  {
    CountLeIsTotalPreorder();
    SortSorted(rows, CountLe);
    Sort(rows, CountLe)
  }

  /** `[r for r in result if r[field_name] is not None]`. */
  function DropNone(rows: seq<Row>): (r: seq<Row>)
    ensures forall k :: 0 <= k < |r| ==> r[k].value.Some?
    ensures forall x :: x in r <==> x in rows && x.value.Some?
  {
    if rows == [] then []
    else
      var rest := DropNone(rows[1..]);
      assert forall x :: x in rows <==> x == rows[0] || x in rows[1..];
      if rows[0].value.Some? then [rows[0]] + rest else rest
  }

  /** Dropping rows keeps the rest in order of count. */
  lemma {:induction false} DropNoneKeepsSorted(rows: seq<Row>)
    requires SortedBy(rows, CountLe)
    ensures SortedBy(DropNone(rows), CountLe)
  {
    if rows != [] {
      assert SortedBy(rows[1..], CountLe);
      DropNoneKeepsSorted(rows[1..]);
      forall x | x in DropNone(rows[1..]) ensures CountLe(rows[0], x) {
        var k :| 0 <= k < |rows[1..]| && rows[1..][k] == x;
        assert x == rows[k + 1];
      }
    }
  }

  /** Keeping the rows with a value commutes with concatenation: the filter keeps the rows in their order. */
  lemma {:induction false} DropNoneKeepsOrder(a: seq<Row>, b: seq<Row>)
    ensures DropNone(a + b) == DropNone(a) + DropNone(b)
  {
    if a != [] {
      var ab := a + b;
      assert ab[0] == a[0] && ab[1..] == a[1..] + b;
      DropNoneKeepsOrder(a[1..], b);
      var head := if a[0].value.Some? then [a[0]] else [];
      assert DropNone(ab) == head + DropNone(a[1..] + b);
      assert DropNone(a) == head + DropNone(a[1..]);
    } else {
      assert a + b == b;
    }
  }

  /** The loop body for one row: a value the pattern matches is normalised, and kept as it was if that fails. */
  function NormalizedRow(r: Row): (n: Row)
    requires r.value.Some?
    ensures n.count == r.count && n.value.Some?
  {
    if MatchSplit(r.value.value).Some? then
      match UtcTimeStringForJavascript(r.value.value)
      case Ok(t) => r.(value := Some(t))
      case Err(_) => r
    else r
  }

  /**
   * The loop of `build_chart_data_for_field` that rewrites each row's value
   * in place with `utc_time_string_for_javascript`, skipping a row whose
   * conversion raises `ValueError`.
   */
  method NormalizeTimes(rows: array<Row>)
    requires forall k :: 0 <= k < rows.Length ==> rows[k].value.Some?
    modifies rows
    ensures forall k :: 0 <= k < rows.Length ==> rows[k] == NormalizedRow(old(rows[k]))
  {
    for i := 0 to rows.Length
      invariant forall k :: 0 <= k < i ==> rows[k] == NormalizedRow(old(rows[k]))
      invariant forall k :: i <= k < rows.Length ==> rows[k] == old(rows[k])
    {
      var value := rows[i].value.value;
      if MatchSplit(value).Some? {
        var converted := UtcTimeStringForJavascript(value);
        if converted.Ok? {
          rows[i] := rows[i].(value := Some(converted.value));
        }
      }
    }
  }

  /** The dictionary `build_chart_data_for_field` returns. */
  datatype ChartData = ChartData(data: seq<Row>, dataType: string, fieldLabel: string, fieldName: string, fieldType: string)

  /** Label, name and type of the field: fixed for the submission-time pseudo-field. */
  function Describe(field: ChartField, languageIndex: int): Result<(string, string, string), ChartError> {
    match field
    case SubmissionTime => Ok(("Submission Time", "_submission_time", "datetime"))
    case Survey(e) =>
      var caption :- FieldLabel(e, languageIndex);
      Ok((caption, e.name, e.fieldType))
  }

  /** The rows of the chart: sorted by count, and for time fields without `None` values and normalised. */
  function ShapedRows(rows: seq<Row>, dataType: string): seq<Row> {
    var sorted := SortByCount(rows);
    if dataType == "time_based" then
      var kept := DropNone(sorted);
      seq(|kept|, k requires 0 <= k < |kept| => NormalizedRow(kept[k]))
    else sorted
  }

  /**
   * The chart rows are ordered by count; a time field's rows are exactly the
   * grouped rows with a value, each normalised; other fields keep every
   * grouped row.
   */
  lemma ShapedRowsProperties(rows: seq<Row>, dataType: string)
    ensures SortedBy(ShapedRows(rows, dataType), CountLe)
    ensures dataType == "time_based" ==> forall k :: 0 <= k < |ShapedRows(rows, dataType)| ==> ShapedRows(rows, dataType)[k].value.Some?
    ensures dataType == "time_based" ==> ValuedRowsNormalized(ShapedRows(rows, dataType), rows)
    ensures dataType != "time_based" ==> multiset(ShapedRows(rows, dataType)) == multiset(rows)
  {
    if dataType == "time_based" {
      var kept := DropNone(SortByCount(rows));
      DropNoneKeepsSorted(SortByCount(rows));
      var shaped := ShapedRows(rows, dataType);
      assert forall i, j :: 0 <= i < j < |shaped| ==> shaped[i].count == kept[i].count && shaped[j].count == kept[j].count;
      TimeRowsKept(rows, kept, shaped);
    }
  }

  /** The rows of `data` are exactly the rows of `rows` that have a value, each normalised. */
  ghost predicate ValuedRowsNormalized(data: seq<Row>, rows: seq<Row>) {
    forall x :: x in data <==> exists y :: y in rows && y.value.Some? && x == NormalizedRow(y)
  }

  /** The normalised rows of the sorted, filtered rows are the normalised rows of the grouped rows with a value. */
  lemma TimeRowsKept(rows: seq<Row>, kept: seq<Row>, shaped: seq<Row>)
    requires kept == DropNone(SortByCount(rows))
    requires |shaped| == |kept| && forall k :: 0 <= k < |kept| ==> shaped[k] == NormalizedRow(kept[k])
    ensures ValuedRowsNormalized(shaped, rows)
  {
    assert forall y :: y in kept <==> y in rows && y.value.Some? by { SortByCountMembers(rows); }
    forall x | x in shaped ensures exists y :: y in rows && y.value.Some? && x == NormalizedRow(y) {
      var k :| 0 <= k < |shaped| && shaped[k] == x;
      assert kept[k] in kept;
    }
    forall x, y | y in rows && y.value.Some? && x == NormalizedRow(y) ensures x in shaped {
      var k :| 0 <= k < |kept| && kept[k] == y;
      assert shaped[k] == x;
    }
  }

  /** Sorting by count neither adds nor loses a row. */
  lemma SortByCountMembers(rows: seq<Row>)
    ensures forall y :: y in SortByCount(rows) <==> y in rows
  {
    var sorted := SortByCount(rows);
    forall y ensures y in sorted <==> y in rows {
      assert y in sorted <==> y in multiset(sorted);
      assert y in rows <==> y in multiset(rows);
    }
  }

  /** What `build_chart_data_for_field` returns, given the grouped rows the query yields for each field name. */
  function ChartDataFor(field: ChartField, grouped: string -> seq<Row>, languageIndex: int): (r: Result<ChartData, ChartError>)
    ensures r.Err? <==> field.Survey? && FieldLabel(field.element, languageIndex).Err?
  {
    var (caption, name, fieldType) :- Describe(field, languageIndex);
    var dataType := DataType(fieldType);
    Ok(ChartData(ShapedRows(grouped(name), dataType), dataType, caption, name, fieldType))
  }

  /** `build_chart_data_for_field`: the grouped query result is sorted, filtered and rewritten in place. */
  method BuildChartDataForField(field: ChartField, grouped: string -> seq<Row>, languageIndex: int)
    returns (r: Result<ChartData, ChartError>)
    ensures r == ChartDataFor(field, grouped, languageIndex)
    ensures r.Ok? ==> SortedBy(r.value.data, CountLe)
    ensures r.Ok? && r.value.dataType == "time_based" ==> forall k :: 0 <= k < |r.value.data| ==> r.value.data[k].value.Some?
    ensures r.Ok? && r.value.dataType == "time_based" ==> ValuedRowsNormalized(r.value.data, grouped(r.value.fieldName))
    ensures r.Ok? && r.value.dataType != "time_based" ==> multiset(r.value.data) == multiset(grouped(r.value.fieldName))
    ensures r.Ok? ==> r.value.dataType == DataType(r.value.fieldType)
  {
    var described := Describe(field, languageIndex);
    if described.Err? {
      return Err(described.error);
    }
    var (caption, name, fieldType) := described.value;
    var result := SortByCount(grouped(name));
    var dataType := DataType(fieldType);
    if dataType == "time_based" {
      result := DropNone(result);
      var rows := new Row[|result|](k requires 0 <= k < |result| => result[k]);
      NormalizeTimes(rows);
      assert rows[..] == seq(|result|, k requires 0 <= k < |result| => NormalizedRow(result[k]));
      result := rows[..];
    }
    assert result == ShapedRows(grouped(name), dataType);
    ShapedRowsProperties(grouped(name), dataType);
    r := Ok(ChartData(result, dataType, caption, name, fieldType));
  }

  // ---------------------------------------------------------------------
  // build_chart_data

  /** `filter(lambda f: f.type in CHART_FIELDS, survey_elements)`. */
  function Chartable(elements: seq<Element>): (r: seq<Element>)
    ensures forall e :: e in r <==> e in elements && e.fieldType in ChartFields
  {
    if elements == [] then []
    else
      var rest := Chartable(elements[1..]);
      assert forall e :: e in elements <==> e == elements[0] || e in elements[1..];
      if elements[0].fieldType in ChartFields then [elements[0]] + rest else rest
  }

  /** The filter keeps the survey order. */
  lemma {:induction false} ChartableKeepsOrder(a: seq<Element>, b: seq<Element>)
    ensures Chartable(a + b) == Chartable(a) + Chartable(b)
  {
    if a != [] {
      assert (a + b)[0] == a[0] && (a + b)[1..] == a[1..] + b;
      ChartableKeepsOrder(a[1..], b);
    } else {
      assert a + b == b;
    }
  }

  function AsFields(elements: seq<Element>): (r: seq<ChartField>)
    ensures |r| == |elements| && forall k :: 0 <= k < |r| ==> r[k] == Survey(elements[k])
  {
    if elements == [] then [] else [Survey(elements[0])] + AsFields(elements[1..])
  }

  /** The charts of `fields` in order, or the first error raised. */
  function ChartsFor(fields: seq<ChartField>, grouped: string -> seq<Row>, languageIndex: int)
    : Result<seq<ChartData>, ChartError>
  {
    if fields == [] then Ok([])
    else
      var front :- ChartsFor(fields[..|fields| - 1], grouped, languageIndex);
      var last :- ChartDataFor(fields[|fields| - 1], grouped, languageIndex);
      Ok(front + [last])
  }

  lemma {:induction false} ChartsForElementwise(fields: seq<ChartField>, grouped: string -> seq<Row>, languageIndex: int)
    requires ChartsFor(fields, grouped, languageIndex).Ok?
    ensures var charts := ChartsFor(fields, grouped, languageIndex).value;
      |charts| == |fields| &&
      forall k :: 0 <= k < |fields| ==> ChartDataFor(fields[k], grouped, languageIndex) == Ok(charts[k])
  {
    if fields != [] {
      var n := |fields| - 1;
      var front := fields[..n];
      var rest := ChartsFor(front, grouped, languageIndex);
      var last := ChartDataFor(fields[n], grouped, languageIndex);
      assert rest.Ok? && last.Ok?;
      ChartsForElementwise(front, grouped, languageIndex);
      var charts := ChartsFor(fields, grouped, languageIndex).value;
      assert charts == rest.value + [last.value];
      forall k | 0 <= k < n ensures ChartDataFor(fields[k], grouped, languageIndex) == Ok(charts[k]) {
        assert fields[k] == front[k] && charts[k] == rest.value[k];
      }
    }
  }

  /** The fields `build_chart_data` charts: the submission-time pseudo-field, then the chartable elements. */
  function ChartedFields(elements: seq<Element>): seq<ChartField> {
    [SubmissionTime] + AsFields(Chartable(elements))
  }

  /** A chart carries the label, name and type of its field. */
  lemma ChartDescribesField(field: ChartField, grouped: string -> seq<Row>, languageIndex: int)
    requires ChartDataFor(field, grouped, languageIndex).Ok?
    ensures var c := ChartDataFor(field, grouped, languageIndex).value;
      && (field.SubmissionTime? ==> c.fieldName == "_submission_time" && c.fieldLabel == "Submission Time" && c.fieldType == "datetime")
      && (field.Survey? ==> c.fieldName == field.element.name && c.fieldType == field.element.fieldType
                            && FieldLabel(field.element, languageIndex) == Ok(c.fieldLabel))
      && c.dataType == DataType(c.fieldType)
  {
  }

  /** The submission-time chart comes first, then one chart of a chartable type per chartable element. */
  lemma ChartsShape(elements: seq<Element>, grouped: string -> seq<Row>, languageIndex: int)
    requires ChartsFor(ChartedFields(elements), grouped, languageIndex).Ok?
    ensures var charts := ChartsFor(ChartedFields(elements), grouped, languageIndex).value;
      && |charts| == 1 + |Chartable(elements)|
      && charts[0].fieldName == "_submission_time"
      && charts[0].fieldLabel == "Submission Time"
      && charts[0].fieldType == "datetime"
      && forall k :: 1 <= k < |charts| ==> charts[k].fieldType in ChartFields
  {
    var fields := ChartedFields(elements);
    var charts := ChartsFor(fields, grouped, languageIndex).value;
    ChartsForElementwise(fields, grouped, languageIndex);
    assert charts[0].fieldName == "_submission_time" && charts[0].fieldLabel == "Submission Time"
        && charts[0].fieldType == "datetime" by {
      ChartDescribesField(fields[0], grouped, languageIndex);
    }
    forall k | 1 <= k < |charts| ensures charts[k].fieldType in ChartFields {
      var e := Chartable(elements)[k - 1];
      assert fields[k] == Survey(e);
      assert charts[k].fieldType == e.fieldType by {
        ChartDescribesField(fields[k], grouped, languageIndex);
      }
      assert e in Chartable(elements);
    }
  }

  /**
   * `build_chart_data`: the chartable survey elements, in survey order,
   * with the submission-time pseudo-field prepended, each turned into its
   * chart; a label lookup that raises aborts the whole call.
   */
  method BuildChartData(elements: seq<Element>, grouped: string -> seq<Row>, languageIndex: int)
    returns (r: Result<seq<ChartData>, ChartError>)
    ensures r == ChartsFor(ChartedFields(elements), grouped, languageIndex)
  {
    var fields := AsFields(Chartable(elements));
    fields := [SubmissionTime] + fields;
    var charts: seq<ChartData> := [];
    for i := 0 to |fields|
      invariant ChartsFor(fields[..i], grouped, languageIndex) == Ok(charts)
    {
      var chart := BuildChartDataForField(fields[i], grouped, languageIndex);
      ChartsForStep(fields, i, grouped, languageIndex, charts);
      if chart.Err? {
        ChartsForFailsOnPrefix(fields, i + 1, grouped, languageIndex);
        return Err(chart.error);
      }
      charts := charts + [chart.value];
    }
    assert fields[..|fields|] == fields;
    return Ok(charts);
  }

  /** One more field either appends its chart or fails with its error. */
  lemma ChartsForStep(fields: seq<ChartField>, i: nat, grouped: string -> seq<Row>, languageIndex: int, charts: seq<ChartData>)
    requires i < |fields| && ChartsFor(fields[..i], grouped, languageIndex) == Ok(charts)
    ensures ChartsFor(fields[..i + 1], grouped, languageIndex)
         == match ChartDataFor(fields[i], grouped, languageIndex)
            case Ok(c) => Ok(charts + [c])
            case Err(e) => Err(e)
  {
    assert fields[..i + 1][..i] == fields[..i];
  }

  /** Once a prefix of the fields fails, the whole list fails with the same error. */
  lemma {:induction false} ChartsForFailsOnPrefix(fields: seq<ChartField>, n: nat, grouped: string -> seq<Row>, languageIndex: int)
    requires n <= |fields| && ChartsFor(fields[..n], grouped, languageIndex).Err?
    ensures ChartsFor(fields, grouped, languageIndex) == ChartsFor(fields[..n], grouped, languageIndex)
    decreases |fields| - n
  {
    if n < |fields| {
      assert fields[..n + 1][..n] == fields[..n];
      ChartsForFailsOnPrefix(fields, n + 1, grouped, languageIndex);
    } else {
      assert fields[..n] == fields;
    }
  }
}
