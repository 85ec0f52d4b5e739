/** `parseCatchmentData` (Sources/SwiftHBV/parser/ParseCatchmentData.swift):
    turns comma-separated text into observation records, skipping blank
    rows and rejecting malformed ones. Foundation's `Double(String)` is a
    caller-supplied parser. */
module CatchmentData {
  import opened Wrappers
  import opened Csv
  import opened Catchment

  /** The three errors the parser throws, with the row or cell that caused
      them in place of the message text. */
  datatype ParseError =
    | WrongRowSize(row: seq<string>)
    | EmptyValues(row: seq<string>, column: int)
    | NotDoubleValue(cell: string)

  /** What one row contributes: nothing, a record, or an error. */
  datatype RowOutcome =
    | Skipped
    | Parsed(record: CatchmentTimestep)
    | Rejected(error: ParseError)

  /** The checks of the loop body, in source order, for one row. */
  function ParseRow(row: seq<string>, parseDouble: string -> Option<real>): (o: RowOutcome)
    ensures o.Skipped? <==> |row| <= 1 || row[0] == ""
    ensures o.Rejected? && o.error.WrongRowSize? <==> |row| > 1 && row[0] != "" && |row| != 5
    ensures o.Parsed? ==>
      |row| == 5 && o.record.datetime == row[0] &&
      (forall c :: 1 <= c <= 4 ==> row[c] != "" && parseDouble(row[c]).Some?) &&
      o.record.precipitation == parseDouble(row[1]).value &&
      o.record.temp == 0.5 * (parseDouble(row[2]).value + parseDouble(row[3]).value) &&
      o.record.discharge == parseDouble(row[4]).value
  {
    if !(|row| > 1 && row[0] != "") then Skipped
    else if |row| != 5 then Rejected(WrongRowSize(row))
    else if row[0] == "" then Rejected(EmptyValues(row, 0))
    else if row[1] == "" then Rejected(EmptyValues(row, 1))
    else if row[2] == "" then Rejected(EmptyValues(row, 2))
    else if row[3] == "" then Rejected(EmptyValues(row, 3))
    else if row[4] == "" then Rejected(EmptyValues(row, 4))
    else if parseDouble(row[1]).None? then Rejected(NotDoubleValue(row[1]))
    else if parseDouble(row[2]).None? then Rejected(NotDoubleValue(row[2]))
    else if parseDouble(row[3]).None? then Rejected(NotDoubleValue(row[3]))
    else if parseDouble(row[4]).None? then Rejected(NotDoubleValue(row[4]))
    else
      var p := parseDouble(row[1]).value;
      var tMin := parseDouble(row[2]).value;
      var tMax := parseDouble(row[3]).value;
      Parsed(CatchmentTimestep(row[0], p, 0.5 * (tMin + tMax), parseDouble(row[4]).value))
  }

  /** The check for an empty first column comes after the skip test that
      already excludes it, so it never fires; the empty-column errors name
      the first empty column among 1 to 4. */
  lemma EmptyFirstColumnUnreachable(row: seq<string>, parseDouble: string -> Option<real>)
    ensures ParseRow(row, parseDouble) != Rejected(EmptyValues(row, 0))
    ensures ParseRow(row, parseDouble).Rejected? && ParseRow(row, parseDouble).error.EmptyValues? ==>
      var c := ParseRow(row, parseDouble).error.column;
      |row| == 5 && 1 <= c <= 4 && row[c] == "" && forall j :: 1 <= j < c ==> row[j] != ""
  {
  }

  /** The records of the non-skipped rows, in order. */
  function Records(rows: seq<seq<string>>, parseDouble: string -> Option<real>): seq<CatchmentTimestep>
  {
    if |rows| == 0 then []
    else
      var before := Records(rows[..|rows| - 1], parseDouble);
      match ParseRow(rows[|rows| - 1], parseDouble)
      case Parsed(record) => before + [record]
      case _ => before
  }

  /** The whole loop over rows: the first rejected row aborts with its
      error and nothing else is returned. */
  function ParseRows(rows: seq<seq<string>>, parseDouble: string -> Option<real>):
    (r: Result<seq<CatchmentTimestep>, ParseError>)
  {
    if |rows| == 0 then Success([])
    else
      match ParseRows(rows[..|rows| - 1], parseDouble)
      case Failure(e) => Failure(e)
      case Success(before) =>
        match ParseRow(rows[|rows| - 1], parseDouble)
        case Skipped => Success(before)
        case Parsed(record) => Success(before + [record])
        case Rejected(e) => Failure(e)
  }

  /** All or nothing: the parse succeeds iff no row is rejected, and then
      returns the record of every non-skipped row in input order. */
  lemma {:induction false} ParseRowsSucceeds(rows: seq<seq<string>>, parseDouble: string -> Option<real>)
    ensures ParseRows(rows, parseDouble).Success? <==>
            forall k :: 0 <= k < |rows| ==> !ParseRow(rows[k], parseDouble).Rejected?
    ensures ParseRows(rows, parseDouble).Success? ==>
            ParseRows(rows, parseDouble).value == Records(rows, parseDouble)
  {
    if |rows| > 0 {
      var front := rows[..|rows| - 1];
      ParseRowsSucceeds(front, parseDouble);
      assert forall k :: 0 <= k < |front| ==> front[k] == rows[k];
    }
  }

  /** A failed parse reports the error of the first rejected row. */
  lemma {:induction false} ParseRowsFailsAtFirst(rows: seq<seq<string>>, parseDouble: string -> Option<real>)
    requires ParseRows(rows, parseDouble).Failure?
    ensures exists k :: (0 <= k < |rows| &&
      ParseRow(rows[k], parseDouble) == Rejected(ParseRows(rows, parseDouble).error) &&
      forall j :: 0 <= j < k ==> !ParseRow(rows[j], parseDouble).Rejected?)
  {
    var front := rows[..|rows| - 1];
    assert forall k :: 0 <= k < |front| ==> front[k] == rows[k];
    if ParseRows(front, parseDouble).Failure? {
      ParseRowsFailsAtFirst(front, parseDouble);
      var k :| 0 <= k < |front| &&
        ParseRow(front[k], parseDouble) == Rejected(ParseRows(front, parseDouble).error) &&
        forall j :: 0 <= j < k ==> !ParseRow(front[j], parseDouble).Rejected?;
      assert ParseRow(rows[k], parseDouble) == Rejected(ParseRows(rows, parseDouble).error);
    } else {
      ParseRowsSucceeds(front, parseDouble);
      var k := |rows| - 1;
      assert ParseRow(rows[k], parseDouble) == Rejected(ParseRows(rows, parseDouble).error);
    }
  }

  /** `parseCatchmentData(csv:)`: splits the text with the default comma
      separator, then walks the rows, skipping, appending or throwing. */
  method ParseCatchmentData(csv: string, parseDouble: string -> Option<real>)
    returns (r: Result<seq<CatchmentTimestep>, ParseError>)
    ensures r == ParseRows(CsvRows(csv, ","), parseDouble)
  {
    var csvRows := ParseCSV(csv, ",");
    var dataset: seq<CatchmentTimestep> := [];
    for k := 0 to |csvRows|
      invariant ParseRows(csvRows[..k], parseDouble) == Success(dataset)
    {
      assert csvRows[..k + 1][..k] == csvRows[..k];
      var row := csvRows[k];
      var outcome := ParseRow(row, parseDouble);
      match outcome
      case Skipped =>
      case Parsed(record) =>
        dataset := dataset + [record];
      case Rejected(e) =>
        PrefixFailureIsFinal(csvRows, k + 1, parseDouble);
        return Failure(e);
    }
    assert csvRows[..|csvRows|] == csvRows;
    return Success(dataset);
  }

  /** Once a prefix has failed, every longer prefix fails with the same
      error. */
  lemma {:induction false} PrefixFailureIsFinal(rows: seq<seq<string>>, n: nat, parseDouble: string -> Option<real>)
    requires n <= |rows| && ParseRows(rows[..n], parseDouble).Failure?
    ensures ParseRows(rows, parseDouble) == ParseRows(rows[..n], parseDouble)
    decreases |rows| - n
  {
    if n < |rows| {
      assert rows[..n + 1][..n] == rows[..n];
      PrefixFailureIsFinal(rows, n + 1, parseDouble);
    } else {
      assert rows[..n] == rows;
    }
  }
}
