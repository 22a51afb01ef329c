/**
 * The list layout (`parseArray`): row 4 holds field names, row 5 type labels,
 * and every row from the 6th on becomes one record.
 */
module ListLayout {
  import opened Wrappers
  import opened Coerce
  import opened Sheet

  /** Row indices of the layout (0-based). */
  const FieldRow := 3
  const TypeRow := 4
  const FirstDataRow := 5

  /** The first failing cell of a row: its 0-based column and the cause. */
  datatype CellFault = CellFault(col: nat, cause: ConvError)

  /** The first n cells of a data row converted into a record, left to right, stopping at the first failure. */
  function RecordPrefix(fields: seq<string>, types: seq<string>, row: seq<string>, n: nat, parseFloat: FloatParser)
    : Result<Record, CellFault>
    requires |fields| == |types| == |row| && n <= |row|
  {
    if n == 0 then Ok(map[])
    else
      match RecordPrefix(fields, types, row, n - 1, parseFloat)
      case Err(e) => Err(e)
      case Ok(m) =>
        match Conv(row[n - 1], types[n - 1], parseFloat)
        case Err(c) => Err(CellFault(n - 1, c))
        case Ok(v) => Ok(m[fields[n - 1] := v])
  }

  /** A whole data row converted into a record. */
  function RowRecord(fields: seq<string>, types: seq<string>, row: seq<string>, parseFloat: FloatParser)
    : Result<Record, CellFault>
    requires |fields| == |types| == |row|
  {
    RecordPrefix(fields, types, row, |row|, parseFloat)
  }

  /** A data row that converts: the right number of cells, each accepted by its type label. */
  predicate RowOk(fields: seq<string>, types: seq<string>, row: seq<string>, parseFloat: FloatParser)
    requires |fields| == |types|
  {
    |row| == |fields| && forall i :: 0 <= i < |row| ==> Conv(row[i], types[i], parseFloat).Ok?
  }

  /**
   * The data rows converted top to bottom, stopping at the first failure;
   * data[idx] is sheet row idx + 6.
   */
  function DataRecords(fields: seq<string>, types: seq<string>, data: seq<seq<string>>, parseFloat: FloatParser)
    : Result<seq<Record>, SheetError>
    requires |fields| == |types|
  {
    if data == [] then Ok([])
    else
      match DataRecords(fields, types, data[..|data| - 1], parseFloat)
      case Err(e) => Err(e)
      case Ok(recs) =>
        var idx := |data| - 1;
        var row := data[idx];
        if |row| != |fields| then Err(RowMisaligned(idx + 6, |row| + 1))
        else
          match RowRecord(fields, types, row, parseFloat)
          case Err(f) => Err(CellInvalid(idx + 6, f.col + 1, f.cause))
          case Ok(rec) => Ok(recs + [rec])
  }

  /** What `parseArray` returns for a grid. */
  function ListOf(rows: Grid, parseFloat: FloatParser): (r: Result<seq<Record>, SheetError>)
    ensures |rows| < FirstDataRow ==> r == Err(SheetTooShort)
    ensures r.Ok? ==> |rows| >= FirstDataRow && |rows[FieldRow]| == |rows[TypeRow]|
    ensures r.Ok? ==> |r.value| == |rows| - FirstDataRow
  {
    if |rows| < FirstDataRow then Err(SheetTooShort)
    else if |rows[FieldRow]| != |rows[TypeRow]| then Err(FieldTypeMismatch)
    else
      DataRecordsOk(rows[FieldRow], rows[TypeRow], rows[FirstDataRow..], parseFloat);
      DataRecords(rows[FieldRow], rows[TypeRow], rows[FirstDataRow..], parseFloat)
  }

  // ---- the record of one row ----

  /** A row prefix converts exactly when each of its cells does. */
  lemma {:induction false} RecordPrefixOk(fields: seq<string>, types: seq<string>, row: seq<string>, n: nat, parseFloat: FloatParser)
    requires |fields| == |types| == |row| && n <= |row|
    ensures RecordPrefix(fields, types, row, n, parseFloat).Ok?
        <==> forall i :: 0 <= i < n ==> Conv(row[i], types[i], parseFloat).Ok?
  {
    if n > 0 {
      RecordPrefixOk(fields, types, row, n - 1, parseFloat);
    }
  }

  /** A converted row prefix has exactly the field names of its columns as keys. */
  lemma {:induction false} RecordPrefixKeys(fields: seq<string>, types: seq<string>, row: seq<string>, n: nat, parseFloat: FloatParser)
    requires |fields| == |types| == |row| && n <= |row|
    requires RecordPrefix(fields, types, row, n, parseFloat).Ok?
    ensures RecordPrefix(fields, types, row, n, parseFloat).value.Keys == NameSet(fields[..n])
  {
    if n > 0 {
      var m0 := RecordPrefix(fields, types, row, n - 1, parseFloat).value;
      var c := Conv(row[n - 1], types[n - 1], parseFloat);
      assert RecordPrefix(fields, types, row, n, parseFloat) == Ok(m0[fields[n - 1] := c.value]);
      RecordPrefixKeys(fields, types, row, n - 1, parseFloat);
      assert fields[..n] == fields[..n - 1] + [fields[n - 1]];
      NameSetSnoc(fields[..n - 1], fields[n - 1]);
    }
  }

  /** In a converted row prefix, each key holds the value of the last column carrying that name. */
  lemma {:induction false} RecordPrefixValues(fields: seq<string>, types: seq<string>, row: seq<string>, n: nat, parseFloat: FloatParser)
    requires |fields| == |types| == |row| && n <= |row|
    requires RecordPrefix(fields, types, row, n, parseFloat).Ok?
    ensures forall i :: LastOccurrence(fields[..n], i) ==>
      fields[i] in RecordPrefix(fields, types, row, n, parseFloat).value &&
      Conv(row[i], types[i], parseFloat) == Ok(RecordPrefix(fields, types, row, n, parseFloat).value[fields[i]])
  {
    if n > 0 {
      var m0 := RecordPrefix(fields, types, row, n - 1, parseFloat).value;
      var c := Conv(row[n - 1], types[n - 1], parseFloat);
      var m := m0[fields[n - 1] := c.value];
      assert RecordPrefix(fields, types, row, n, parseFloat) == Ok(m);
      RecordPrefixValues(fields, types, row, n - 1, parseFloat);
      var pre, pre0 := fields[..n], fields[..n - 1];
      forall i | LastOccurrence(pre, i)
        ensures fields[i] in m && Conv(row[i], types[i], parseFloat) == Ok(m[fields[i]])
      {
        if i < n - 1 {
          assert pre[n - 1] != pre[i];
          assert LastOccurrence(pre0, i) by {
            forall j | i < j < n - 1 ensures pre0[j] != pre0[i] { assert pre[j] != pre[i]; }
          }
        }
      }
    }
  }

  /** The first failing cell (scanning left to right) decides a row prefix's error. */
  lemma {:induction false} RecordPrefixFirstFault(fields: seq<string>, types: seq<string>, row: seq<string>, n: nat, i: nat, parseFloat: FloatParser)
    requires |fields| == |types| == |row| && i < n <= |row|
    requires forall j :: 0 <= j < i ==> Conv(row[j], types[j], parseFloat).Ok?
    requires Conv(row[i], types[i], parseFloat).Err?
    ensures RecordPrefix(fields, types, row, n, parseFloat) == Err(CellFault(i, Conv(row[i], types[i], parseFloat).error))
  {
    if n - 1 == i {
      RecordPrefixOk(fields, types, row, i, parseFloat);
    } else {
      RecordPrefixFirstFault(fields, types, row, n - 1, i, parseFloat);
    }
  }

  /** Once a row prefix has failed, converting more cells keeps that failure. */
  lemma {:induction false} RecordPrefixErrStays(fields: seq<string>, types: seq<string>, row: seq<string>, j: nat, n: nat, parseFloat: FloatParser)
    requires |fields| == |types| == |row| && j <= n <= |row|
    requires RecordPrefix(fields, types, row, j, parseFloat).Err?
    ensures RecordPrefix(fields, types, row, n, parseFloat) == RecordPrefix(fields, types, row, j, parseFloat)
  {
    if j < n {
      RecordPrefixErrStays(fields, types, row, j, n - 1, parseFloat);
    }
  }

  // ---- the data rows ----

  /** Once a prefix of the data rows has failed, the later rows are never looked at. */
  lemma {:induction false} DataRecordsErrStays(fields: seq<string>, types: seq<string>, data: seq<seq<string>>, j: nat, parseFloat: FloatParser)
    requires |fields| == |types| && j <= |data|
    requires DataRecords(fields, types, data[..j], parseFloat).Err?
    ensures DataRecords(fields, types, data, parseFloat) == DataRecords(fields, types, data[..j], parseFloat)
  {
    if j == |data| {
      assert data[..j] == data;
    } else {
      var init := data[..|data| - 1];
      assert init[..j] == data[..j];
      DataRecordsErrStays(fields, types, init, j, parseFloat);
    }
  }

  /**
   * The data rows convert exactly when every row does; the result then has one
   * record per data row, in sheet order, each the record of its row.
   */
  lemma {:induction false} DataRecordsOk(fields: seq<string>, types: seq<string>, data: seq<seq<string>>, parseFloat: FloatParser)
    requires |fields| == |types|
    ensures DataRecords(fields, types, data, parseFloat).Ok?
        <==> forall k :: 0 <= k < |data| ==> RowOk(fields, types, data[k], parseFloat)
    ensures DataRecords(fields, types, data, parseFloat).Ok? ==>
      var recs := DataRecords(fields, types, data, parseFloat).value;
      && |recs| == |data|
      && forall k :: 0 <= k < |data| ==>
           |data[k]| == |fields| && RowRecord(fields, types, data[k], parseFloat) == Ok(recs[k])
  {
    if data != [] {
      var init := data[..|data| - 1];
      var row := data[|data| - 1];
      DataRecordsOk(fields, types, init, parseFloat);
      if |row| == |fields| {
        RecordPrefixOk(fields, types, row, |row|, parseFloat);
      }
      if forall k :: 0 <= k < |data| ==> RowOk(fields, types, data[k], parseFloat) {
        assert forall k :: 0 <= k < |init| ==> init[k] == data[k];
      }
      if DataRecords(fields, types, data, parseFloat).Ok? {
        forall k | 0 <= k < |data| ensures RowOk(fields, types, data[k], parseFloat) {
          if k < |init| { assert init[k] == data[k]; }
        }
      }
    }
  }

  /** A data row whose cell count is wrong, shorter or longer, fails at row idx+6, column len(row)+1, once the rows above it convert. */
  lemma {:induction false} DataRecordsMisaligned(fields: seq<string>, types: seq<string>, data: seq<seq<string>>, idx: nat, parseFloat: FloatParser)
    requires |fields| == |types| && idx < |data|
    requires forall k :: 0 <= k < idx ==> RowOk(fields, types, data[k], parseFloat)
    requires |data[idx]| != |fields|
    ensures DataRecords(fields, types, data, parseFloat) == Err(RowMisaligned(idx + 6, |data[idx]| + 1))
  {
    var pre := data[..idx + 1];
    assert pre[..idx] == data[..idx];
    DataRecordsOk(fields, types, data[..idx], parseFloat);
    DataRecordsErrStays(fields, types, data, idx + 1, parseFloat);
  }

  /** The first failing cell of the first failing row fails at row idx+6, column i+1, and no records are returned. */
  lemma {:induction false} DataRecordsBadCell(fields: seq<string>, types: seq<string>, data: seq<seq<string>>, idx: nat, i: nat, parseFloat: FloatParser)
    requires |fields| == |types| && idx < |data|
    requires forall k :: 0 <= k < idx ==> RowOk(fields, types, data[k], parseFloat)
    requires |data[idx]| == |fields| && i < |fields|
    requires forall j :: 0 <= j < i ==> Conv(data[idx][j], types[j], parseFloat).Ok?
    requires Conv(data[idx][i], types[i], parseFloat).Err?
    ensures DataRecords(fields, types, data, parseFloat) == Err(CellInvalid(idx + 6, i + 1, Conv(data[idx][i], types[i], parseFloat).error))
  {
    var pre := data[..idx + 1];
    assert pre[..idx] == data[..idx];
    DataRecordsOk(fields, types, data[..idx], parseFloat);
    RecordPrefixFirstFault(fields, types, data[idx], |fields|, i, parseFloat);
    DataRecordsErrStays(fields, types, data, idx + 1, parseFloat);
  }

  // ---- the whole grid ----

  /** Misaligned header rows fail before any data row is examined, whatever the data rows hold. */
  lemma HeaderMismatchFirst(rows: Grid, other: Grid, parseFloat: FloatParser)
    requires |rows| >= FirstDataRow && |rows[FieldRow]| != |rows[TypeRow]|
    requires |other| >= FirstDataRow && other[..FirstDataRow] == rows[..FirstDataRow]
    ensures ListOf(rows, parseFloat) == Err(FieldTypeMismatch)
    ensures ListOf(other, parseFloat) == ListOf(rows, parseFloat)
  {
  }

  /**
   * On success: one record per row from the 6th on, in sheet order; record k
   * has exactly the field names as keys, and each name holds the converted
   * cell of the last column carrying it.
   */
  lemma ListOfOk(rows: Grid, parseFloat: FloatParser)
    requires ListOf(rows, parseFloat).Ok?
    ensures var recs := ListOf(rows, parseFloat).value;
      && |rows| >= FirstDataRow && |rows[FieldRow]| == |rows[TypeRow]|
      && |recs| == |rows| - FirstDataRow
      && forall k :: 0 <= k < |recs| ==>
           && |rows[FirstDataRow + k]| == |rows[FieldRow]|
           && recs[k].Keys == NameSet(rows[FieldRow])
           && forall i :: LastOccurrence(rows[FieldRow], i) ==>
                Conv(rows[FirstDataRow + k][i], rows[TypeRow][i], parseFloat) == Ok(recs[k][rows[FieldRow][i]])
  {
    var fields, types, data := rows[FieldRow], rows[TypeRow], rows[FirstDataRow..];
    DataRecordsOk(fields, types, data, parseFloat);
    var recs := ListOf(rows, parseFloat).value;
    forall k | 0 <= k < |recs|
      ensures recs[k].Keys == NameSet(fields)
      ensures forall i :: LastOccurrence(fields, i) ==>
                Conv(rows[FirstDataRow + k][i], types[i], parseFloat) == Ok(recs[k][fields[i]])
    {
      assert data[k] == rows[FirstDataRow + k];
      RecordPrefixKeys(fields, types, data[k], |fields|, parseFloat);
      RecordPrefixValues(fields, types, data[k], |fields|, parseFloat);
      assert fields[..|fields|] == fields;
    }
  }

  /** With distinct field names, record k maps field i to the conversion of cell i of row k+6. */
  lemma ListOfDistinctFields(rows: Grid, parseFloat: FloatParser, k: nat, i: nat)
    requires ListOf(rows, parseFloat).Ok?
    requires k < |ListOf(rows, parseFloat).value| && FirstDataRow + k < |rows|
    requires i < |rows[FieldRow]| && i < |rows[TypeRow]| && i < |rows[FirstDataRow + k]|
    requires forall a, b :: 0 <= a < b < |rows[FieldRow]| ==> rows[FieldRow][a] != rows[FieldRow][b]
    ensures rows[FieldRow][i] in ListOf(rows, parseFloat).value[k]
    ensures Conv(rows[FirstDataRow + k][i], rows[TypeRow][i], parseFloat)
         == Ok(ListOf(rows, parseFloat).value[k][rows[FieldRow][i]])
  {
    ListOfOk(rows, parseFloat);
    assert LastOccurrence(rows[FieldRow], i);
  }

  /** The list layout succeeds exactly when the header rows align and every data row converts. */
  lemma ListOfOkIff(rows: Grid, parseFloat: FloatParser)
    ensures ListOf(rows, parseFloat).Ok? <==>
      && |rows| >= FirstDataRow
      && |rows[FieldRow]| == |rows[TypeRow]|
      && forall k :: FirstDataRow <= k < |rows| ==> RowOk(rows[FieldRow], rows[TypeRow], rows[k], parseFloat)
  {
    if |rows| >= FirstDataRow && |rows[FieldRow]| == |rows[TypeRow]| {
      var data := rows[FirstDataRow..];
      DataRecordsOk(rows[FieldRow], rows[TypeRow], data, parseFloat);
      assert forall k :: FirstDataRow <= k < |rows| ==> rows[k] == data[k - FirstDataRow];
    }
  }

  /** A data row with a wrong cell count, below rows that convert, fails with row idx+6 and column len(row)+1. */
  lemma ListOfMisaligned(rows: Grid, parseFloat: FloatParser, idx: nat)
    requires |rows| >= FirstDataRow + idx + 1 && |rows[FieldRow]| == |rows[TypeRow]|
    requires forall k :: FirstDataRow <= k < FirstDataRow + idx ==> RowOk(rows[FieldRow], rows[TypeRow], rows[k], parseFloat)
    requires |rows[FirstDataRow + idx]| != |rows[FieldRow]|
    ensures ListOf(rows, parseFloat) == Err(RowMisaligned(idx + 6, |rows[FirstDataRow + idx]| + 1))
  {
    var data := rows[FirstDataRow..];
    assert forall k :: 0 <= k <= idx ==> data[k] == rows[FirstDataRow + k];
    DataRecordsMisaligned(rows[FieldRow], rows[TypeRow], data, idx, parseFloat);
  }

  /**
   * The first failing cell, scanning rows top-down and cells left to right,
   * decides the error: row idx+6, column i+1, and the cause from `conv`.
   */
  lemma ListOfBadCell(rows: Grid, parseFloat: FloatParser, idx: nat, i: nat)
    requires |rows| >= FirstDataRow + idx + 1 && |rows[FieldRow]| == |rows[TypeRow]|
    requires forall k :: FirstDataRow <= k < FirstDataRow + idx ==> RowOk(rows[FieldRow], rows[TypeRow], rows[k], parseFloat)
    requires |rows[FirstDataRow + idx]| == |rows[FieldRow]| && i < |rows[FieldRow]|
    requires forall j :: 0 <= j < i ==> Conv(rows[FirstDataRow + idx][j], rows[TypeRow][j], parseFloat).Ok?
    requires Conv(rows[FirstDataRow + idx][i], rows[TypeRow][i], parseFloat).Err?
    ensures ListOf(rows, parseFloat)
         == Err(CellInvalid(idx + 6, i + 1, Conv(rows[FirstDataRow + idx][i], rows[TypeRow][i], parseFloat).error))
  {
    var data := rows[FirstDataRow..];
    assert forall k :: 0 <= k <= idx ==> data[k] == rows[FirstDataRow + k];
    DataRecordsBadCell(rows[FieldRow], rows[TypeRow], data, idx, i, parseFloat);
  }

  // ---- the loop of parseArray ----

  /** `parseArray`: the row loop appending one record per data row, returning early on the first error. */
  method ParseArray(rows: Grid, parseFloat: FloatParser) returns (r: Result<seq<Record>, SheetError>)
    ensures r == ListOf(rows, parseFloat)
  {
    if |rows| < FirstDataRow {
      return Err(SheetTooShort);
    }
    var fields := rows[FieldRow];
    var fieldLen := |fields|;
    var types := rows[TypeRow];
    if fieldLen != |types| {
      return Err(FieldTypeMismatch);
    }
    var data := rows[FirstDataRow..];
    var cfgs: seq<Record> := [];
    for idx := 0 to |data|
      invariant DataRecords(fields, types, data[..idx], parseFloat) == Ok(cfgs)
    {
      var row := data[idx];
      assert data[..idx + 1][..idx] == data[..idx];
      if |row| != fieldLen {
        DataRecordsErrStays(fields, types, data, idx + 1, parseFloat);
        return Err(RowMisaligned(idx + 6, |row| + 1));
      }
      var record: Record := map[];
      for i := 0 to fieldLen
        invariant RecordPrefix(fields, types, row, i, parseFloat) == Ok(record)
      {
        var value := Conv(row[i], types[i], parseFloat);
        if value.Err? {
          RecordPrefixErrStays(fields, types, row, i + 1, fieldLen, parseFloat);
          DataRecordsErrStays(fields, types, data, idx + 1, parseFloat);
          return Err(CellInvalid(idx + 6, i + 1, value.error));
        }
        record := record[fields[i] := value.value];
      }
      cfgs := cfgs + [record];
    }
    assert data[..|data|] == data;
    return Ok(cfgs);
  }
}
