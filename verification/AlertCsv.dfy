/** The CSV export of alert events and a decoder for it. */
module AlertCsv {
  import opened Text
  import opened Wrappers

  /** A cell is null or a value, written as `String(value)`; a missing key is `undefined`. */
  datatype Cell = Null | Value(text: string)

  type Row = map<string, Cell>

  const CSV_COLUMNS: seq<string> := [
    "time", "rule_id", "asset_code", "alert_type", "priority", "metric", "triggered_value", "threshold"]

  function FieldText(row: Row, column: string): string {
    if column in row && row[column].Value? then row[column].text else ""
  }

  predicate NeedsQuotes(s: string) {
    '"' in s || ',' in s || '\n' in s
  }

  /** Every `"` doubled. */
  function Doubled(s: string): string {
    if s == "" then "" else (if s[0] == '"' then "\"\"" else [s[0]]) + Doubled(s[1..])
  }

  function CsvEscape(s: string): string {
    if NeedsQuotes(s) then "\"" + Doubled(s) + "\"" else s
  }

  function Escaped(fields: seq<string>): (r: seq<string>)
    ensures |r| == |fields|
  {
    seq(|fields|, i requires 0 <= i < |fields| => CsvEscape(fields[i]))
  }

  /** The field texts of a row in column order. */
  function FieldsOf(row: Row): (r: seq<string>)
    ensures |r| == 8
  {
    seq(8, i requires 0 <= i < 8 => FieldText(row, CSV_COLUMNS[i]))
  }

  function AllFields(rows: seq<Row>): (r: seq<seq<string>>)
    ensures |r| == |rows|
  {
    seq(|rows|, i requires 0 <= i < |rows| => FieldsOf(rows[i]))
  }

  function Lines(records: seq<seq<string>>): (r: seq<string>)
    ensures |r| == |records|
  {
    seq(|records|, i requires 0 <= i < |records| => Join(Escaped(records[i]), ","))
  }

  function AlertEventsToCsv(rows: seq<Row>): string {
    Join([Join(CSV_COLUMNS, ",")] + Lines(AllFields(rows)), "\n")
  }

  // ---------------------------------------------------------------------------------------------
  // A decoder following section 2 of RFC 4180, with LF as the record break
  // ---------------------------------------------------------------------------------------------

  datatype Parsed<+T> = Parsed(value: T, rest: string)

  /** A field without quotes ends at a comma, a break or the end of the text and holds no quote. */
  function ParsePlain(text: string): (r: Option<Parsed<string>>)
    ensures r.Some? ==> |r.value.rest| <= |text|
  {
    if text == "" || text[0] == ',' || text[0] == '\n' then
      Some(Parsed("", text))
    else if text[0] == '"' then
      None
    else
      var r := ParsePlain(text[1..]);
      if r.None? then None else Some(Parsed([text[0]] + r.value.value, r.value.rest))
  }

  /** The text after an opening quote: `""` stands for one quote, a lone quote closes the field. */
  function ParseQuoted(text: string): (r: Option<Parsed<string>>)
    ensures r.Some? ==> |r.value.rest| < |text|
  {
    if text == "" then
      None
    else if text[0] == '"' then
      if |text| >= 2 && text[1] == '"' then
        var r := ParseQuoted(text[2..]);
        if r.None? then None else Some(Parsed("\"" + r.value.value, r.value.rest))
      else
        Some(Parsed("", text[1..]))
    else
      var r := ParseQuoted(text[1..]);
      if r.None? then None else Some(Parsed([text[0]] + r.value.value, r.value.rest))
  }

  function ParseField(text: string): (r: Option<Parsed<string>>)
    ensures r.Some? ==> |r.value.rest| <= |text|
  {
    if text != "" && text[0] == '"' then ParseQuoted(text[1..]) else ParsePlain(text)
  }

  function ParseRecord(text: string): (r: Option<Parsed<seq<string>>>)
    ensures r.Some? ==> |r.value.rest| <= |text| && (r.value.rest == "" || r.value.rest[0] == '\n')
    decreases |text|
  {
    var f := ParseField(text);
    if f.None? then
      None
    else if f.value.rest == "" || f.value.rest[0] == '\n' then
      Some(Parsed([f.value.value], f.value.rest))
    else if f.value.rest[0] == ',' then
      var r := ParseRecord(f.value.rest[1..]);
      if r.None? then None else Some(Parsed([f.value.value] + r.value.value, r.value.rest))
    else
      None
  }

  /** The last record may or may not have an ending line break. */
  function Decode(text: string): Option<seq<seq<string>>>
    decreases |text|
  {
    var r := ParseRecord(text);
    if r.None? then
      None
    else if |r.value.rest| <= 1 then
      Some([r.value.value])
    else
      var more := Decode(r.value.rest[1..]);
      if more.None? then None else Some([r.value.value] + more.value)
  }

  // ---------------------------------------------------------------------------------------------
  // Round trip
  // ---------------------------------------------------------------------------------------------

  predicate EndsField(rest: string) {
    rest == "" || rest[0] == ',' || rest[0] == '\n'
  }

  lemma {:induction false} PlainRoundTrip(s: string, rest: string)
    requires !NeedsQuotes(s) && EndsField(rest)
    ensures ParsePlain(s + rest) == Some(Parsed(s, rest))
  {
    if s == "" {
      assert s + rest == rest;
    } else {
      assert (s + rest)[1..] == s[1..] + rest;
      assert s[0] in s && [s[0]] + s[1..] == s;
      PlainRoundTrip(s[1..], rest);
    }
  }

  lemma {:induction false} QuotedRoundTrip(s: string, rest: string)
    requires EndsField(rest)
    ensures ParseQuoted(Doubled(s) + "\"" + rest) == Some(Parsed(s, rest))
  {
    var text := Doubled(s) + "\"" + rest;
    if s == "" {
      assert text[1..] == rest;
    } else {
      var tail := Doubled(s[1..]) + "\"" + rest;
      QuotedRoundTrip(s[1..], rest);
      assert [s[0]] + s[1..] == s;
      if s[0] == '"' {
        assert text[0] == '"' && text[1] == '"' && text[2..] == tail;
      } else {
        assert text[0] == s[0] && text[1..] == tail;
      }
    }
  }

  /** Quoting loses nothing, whatever quotes, commas and newlines the field holds. */
  lemma FieldRoundTrip(s: string, rest: string)
    requires EndsField(rest)
    ensures ParseField(CsvEscape(s) + rest) == Some(Parsed(s, rest))
  {
    if NeedsQuotes(s) {
      QuotedFieldStarts(s, rest);
      QuotedRoundTrip(s, rest);
    } else {
      PlainFieldStarts(s, rest);
      PlainRoundTrip(s, rest);
    }
  }

  lemma QuotedFieldStarts(s: string, rest: string)
    requires NeedsQuotes(s)
    ensures var text := CsvEscape(s) + rest;
      text != "" && text[0] == '"' && text[1..] == Doubled(s) + "\"" + rest
  {
    var tail := Doubled(s) + "\"" + rest;
    assert CsvEscape(s) + rest == "\"" + tail;
  }

  lemma PlainFieldStarts(s: string, rest: string)
    requires !NeedsQuotes(s) && EndsField(rest)
    ensures s + rest == "" || (s + rest)[0] != '"'
  {
    if s == "" {
      assert s + rest == rest;
    } else {
      assert s[0] in s && (s + rest)[0] == s[0];
    }
  }

  lemma {:induction false} RecordRoundTrip(fields: seq<string>, rest: string)
    requires |fields| > 0 && (rest == "" || rest[0] == '\n')
    ensures ParseRecord(Join(Escaped(fields), ",") + rest) == Some(Parsed(fields, rest))
  {
    var text := Join(Escaped(fields), ",") + rest;
    if |fields| == 1 {
      assert text == CsvEscape(fields[0]) + rest && fields == [fields[0]];
      FieldRoundTrip(fields[0], rest);
    } else {
      var tail := Join(Escaped(fields[1..]), ",") + rest;
      assert Escaped(fields)[1..] == Escaped(fields[1..]);
      assert text == CsvEscape(fields[0]) + ("," + tail);
      FieldRoundTrip(fields[0], "," + tail);
      assert ("," + tail)[1..] == tail;
      RecordRoundTrip(fields[1..], rest);
      assert [fields[0]] + fields[1..] == fields;
    }
  }

  lemma {:induction false} FileRoundTrip(records: seq<seq<string>>)
    requires |records| > 0 && forall i | 0 <= i < |records| :: |records[i]| > 1
    ensures Decode(Join(Lines(records), "\n")) == Some(records)
  {
    var line := Join(Escaped(records[0]), ",");
    if |records| == 1 {
      RecordRoundTrip(records[0], "");
      assert line + "" == line && Lines(records) == [line] && records == [records[0]];
    } else {
      var tail := Join(Lines(records[1..]), "\n");
      assert Lines(records)[1..] == Lines(records[1..]);
      assert Join(Lines(records), "\n") == line + ("\n" + tail);
      RecordRoundTrip(records[0], "\n" + tail);
      assert ("\n" + tail)[1..] == tail;
      assert |records[1]| > 1;
      assert |Join(Escaped(records[1]), ",")| > 0;
      assert Lines(records[1..])[0] == Join(Escaped(records[1]), ",");
      FileRoundTrip(records[1..]);
      assert [records[0]] + records[1..] == records;
    }
  }

  /** The export determines its data: the decoder recovers the header and all eight fields of every row. */
  lemma CsvRoundTrip(rows: seq<Row>)
    ensures Decode(AlertEventsToCsv(rows)) == Some([CSV_COLUMNS] + AllFields(rows))
  {
    hide Decode, Join;
    var records := [CSV_COLUMNS] + AllFields(rows);
    HeaderIsPlain();
    assert [Join(CSV_COLUMNS, ",")] + Lines(AllFields(rows)) == Lines(records);
    FileRoundTrip(records);
  }

  /**
   Read back, the export has a header of eight names and then, per row, the row's value under each of these names,
   or an empty field where the row has null or nothing.
   */
  lemma CsvHoldsTheRows(rows: seq<Row>)
    ensures var records := Decode(AlertEventsToCsv(rows));
      && records.Some? && |records.value| == |rows| + 1
      && records.value[0] == [
           "time", "rule_id", "asset_code", "alert_type", "priority", "metric", "triggered_value", "threshold"]
      && forall i | 0 <= i < |rows| :: HoldsRow(records.value[i + 1], records.value[0], rows[i])
  {
    hide Decode, AlertEventsToCsv;
    CsvRoundTrip(rows);
  }

  predicate HoldsRow(fields: seq<string>, header: seq<string>, row: Row) {
    && |fields| == |header|
    && forall j | 0 <= j < |header| ::
      if header[j] !in row || row[header[j]] == Null then fields[j] == "" else row[header[j]] == Value(fields[j])
  }

  /** No column name needs quotes. */
  lemma HeaderIsPlain()
    ensures Escaped(CSV_COLUMNS) == CSV_COLUMNS
  {
    FirstColumnsArePlain();
    LastColumnsArePlain();
  }

  lemma FirstColumnsArePlain()
    ensures forall i | 0 <= i < 4 :: !NeedsQuotes(CSV_COLUMNS[i])
  {
    assert !NeedsQuotes("time");
    assert !NeedsQuotes("rule_id");
    assert !NeedsQuotes("asset_code");
    assert !NeedsQuotes("alert_type");
  }

  lemma LastColumnsArePlain()
    ensures forall i | 4 <= i < 8 :: !NeedsQuotes(CSV_COLUMNS[i])
  {
    assert !NeedsQuotes("priority");
    assert !NeedsQuotes("metric");
    assert !NeedsQuotes("triggered_value");
    assert !NeedsQuotes("threshold");
  }

  /** Two exports are the same text exactly when their rows agree on all eight columns. */
  lemma CsvInjective(rows: seq<Row>, rows': seq<Row>)
    ensures AlertEventsToCsv(rows) == AlertEventsToCsv(rows') <==> AllFields(rows) == AllFields(rows')
  {
    CsvRoundTrip(rows);
    CsvRoundTrip(rows');
    assert ([CSV_COLUMNS] + AllFields(rows))[1..] == AllFields(rows);
    assert ([CSV_COLUMNS] + AllFields(rows'))[1..] == AllFields(rows');
  }
}
