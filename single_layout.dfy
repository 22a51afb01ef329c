/**
 * The single layout (`parseSingle`): every row from the 4th on is one entry
 * with the key in column A, the type label in column B and the value text in
 * column C; the entries fill one record.
 */
module SingleLayout {
  import opened Wrappers
  import opened Coerce
  import opened Sheet

  /** Row index (0-based) of the first entry. */
  const FirstEntryRow := 3

  /** An entry that converts: at least three cells, and the type label accepts the value text. */
  predicate EntryOk(row: seq<string>, parseFloat: FloatParser)
  {
    |row| >= 3 && Conv(row[2], row[1], parseFloat).Ok?
  }

  /**
   * The entries added to one record top to bottom, a later key overwriting
   * an earlier one, stopping at the first failure; data[idx] is sheet row idx + 4.
   */
  function Entries(data: seq<seq<string>>, parseFloat: FloatParser): Result<Record, SheetError>
  {
    if data == [] then Ok(map[])
    else
      match Entries(data[..|data| - 1], parseFloat)
      case Err(e) => Err(e)
      case Ok(m) =>
        var idx := |data| - 1;
        var row := data[idx];
        if |row| < 3 then Err(RowTooShort(idx + 4))
        else
          match Conv(row[2], row[1], parseFloat)
          case Err(c) => Err(ValueInvalid(idx + 4, c))
          case Ok(v) => Ok(m[row[0] := v])
  }

  /** What `parseSingle` returns for a grid. */
  function SingleOf(rows: Grid, parseFloat: FloatParser): (r: Result<Record, SheetError>)
    ensures |rows| < FirstEntryRow ==> r == Err(SheetTooShort)
    ensures r.Ok? ==> forall k :: FirstEntryRow <= k < |rows| ==> |rows[k]| >= 3 && rows[k][0] in r.value
  {
    if |rows| < FirstEntryRow then Err(SheetTooShort)
    else
      var data := rows[FirstEntryRow..];
      EntriesCoverKeys(data, parseFloat);
      assert forall k :: FirstEntryRow <= k < |rows| ==> rows[k] == data[k - FirstEntryRow];
      Entries(data, parseFloat)
  }

  /** Column A of the entries. */
  function KeyColumn(data: seq<seq<string>>): (keys: seq<string>)
    requires forall k :: 0 <= k < |data| ==> |data[k]| > 0
    ensures |keys| == |data| && forall k :: 0 <= k < |data| ==> keys[k] == data[k][0]
  {
    seq(|data|, k requires 0 <= k < |data| => data[k][0])
  }

  /** Every row cut to its first three cells. */
  function FirstThreeCells(data: seq<seq<string>>): (cut: seq<seq<string>>)
    ensures |cut| == |data|
    ensures forall k :: 0 <= k < |data| ==> |cut[k]| == if |data[k]| < 3 then |data[k]| else 3
    ensures forall k, j :: 0 <= k < |data| && 0 <= j < |cut[k]| ==> cut[k][j] == data[k][j]
  {
    seq(|data|, k requires 0 <= k < |data| => if |data[k]| < 3 then data[k] else data[k][..3])
  }

  /** Once a prefix of the entries has failed, the later rows are never looked at. */
  lemma {:induction false} EntriesErrStays(data: seq<seq<string>>, j: nat, parseFloat: FloatParser)
    requires j <= |data|
    requires Entries(data[..j], parseFloat).Err?
    ensures Entries(data, parseFloat) == Entries(data[..j], parseFloat)
  {
    if j == |data| {
      assert data[..j] == data;
    } else {
      var init := data[..|data| - 1];
      assert init[..j] == data[..j];
      EntriesErrStays(init, j, parseFloat);
    }
  }

  /** A converted record has a key for the column-A text of every row. */
  lemma EntriesCoverKeys(data: seq<seq<string>>, parseFloat: FloatParser)
    ensures Entries(data, parseFloat).Ok? ==>
      forall k :: 0 <= k < |data| ==> |data[k]| >= 3 && data[k][0] in Entries(data, parseFloat).value
  {
    if Entries(data, parseFloat).Ok? {
      EntriesKeys(data, parseFloat);
      var keys := KeyColumn(data);
      assert forall k :: 0 <= k < |data| ==> keys[k] in NameSet(keys);
    }
  }

  /** The entries convert exactly when every row does. */
  lemma {:induction false} EntriesOk(data: seq<seq<string>>, parseFloat: FloatParser)
    ensures Entries(data, parseFloat).Ok? <==> forall k :: 0 <= k < |data| ==> EntryOk(data[k], parseFloat)
  {
    if data != [] {
      var init := data[..|data| - 1];
      EntriesOk(init, parseFloat);
      assert forall k :: 0 <= k < |init| ==> init[k] == data[k];
    }
  }

  /** The converted record has exactly the column-A keys as keys. */
  lemma {:induction false} EntriesKeys(data: seq<seq<string>>, parseFloat: FloatParser)
    requires Entries(data, parseFloat).Ok?
    ensures forall k :: 0 <= k < |data| ==> |data[k]| >= 3 && Conv(data[k][2], data[k][1], parseFloat).Ok?
    ensures Entries(data, parseFloat).value.Keys == NameSet(KeyColumn(data))
  {
    EntriesOk(data, parseFloat);
    if data != [] {
      var init := data[..|data| - 1];
      var row := data[|data| - 1];
      var m0 := Entries(init, parseFloat).value;
      var c := Conv(row[2], row[1], parseFloat);
      assert Entries(data, parseFloat) == Ok(m0[row[0] := c.value]);
      EntriesKeys(init, parseFloat);
      assert KeyColumn(data) == KeyColumn(init) + [row[0]];
      NameSetSnoc(KeyColumn(init), row[0]);
    }
  }

  /** In the converted record each key holds the converted value of the last row carrying it. */
  lemma {:induction false} EntriesValues(data: seq<seq<string>>, parseFloat: FloatParser)
    requires Entries(data, parseFloat).Ok?
    ensures forall k :: 0 <= k < |data| ==> |data[k]| >= 3 && Conv(data[k][2], data[k][1], parseFloat).Ok?
    ensures forall k :: LastOccurrence(KeyColumn(data), k) ==>
      data[k][0] in Entries(data, parseFloat).value &&
      Conv(data[k][2], data[k][1], parseFloat) == Ok(Entries(data, parseFloat).value[data[k][0]])
  {
    EntriesOk(data, parseFloat);
    if data != [] {
      var init := data[..|data| - 1];
      var row := data[|data| - 1];
      var m0 := Entries(init, parseFloat).value;
      var c := Conv(row[2], row[1], parseFloat);
      var m := m0[row[0] := c.value];
      assert Entries(data, parseFloat) == Ok(m);
      EntriesValues(init, parseFloat);
      var keys, keys0 := KeyColumn(data), KeyColumn(init);
      forall k | LastOccurrence(keys, k)
        ensures data[k][0] in m && Conv(data[k][2], data[k][1], parseFloat) == Ok(m[data[k][0]])
      {
        if k < |init| {
          assert init[k] == data[k];
          assert keys[|init|] != keys[k];
          assert LastOccurrence(keys0, k) by {
            forall j | k < j < |keys0| ensures keys0[j] != keys0[k] { assert keys[j] != keys[k]; }
          }
        }
      }
    }
  }

  /** The first row that fails decides the error, with row number idx+4. */
  lemma {:induction false} EntriesFirstFailure(data: seq<seq<string>>, idx: nat, parseFloat: FloatParser)
    requires idx < |data|
    requires forall k :: 0 <= k < idx ==> EntryOk(data[k], parseFloat)
    requires !EntryOk(data[idx], parseFloat)
    ensures |data[idx]| < 3 ==> Entries(data, parseFloat) == Err(RowTooShort(idx + 4))
    ensures |data[idx]| >= 3 ==>
      Entries(data, parseFloat) == Err(ValueInvalid(idx + 4, Conv(data[idx][2], data[idx][1], parseFloat).error))
  {
    var pre := data[..idx + 1];
    assert pre[..idx] == data[..idx];
    EntriesOk(data[..idx], parseFloat);
    EntriesErrStays(data, idx + 1, parseFloat);
  }

  /** Cells beyond the third are ignored. */
  lemma {:induction false} ExtraCellsIgnored(data: seq<seq<string>>, parseFloat: FloatParser)
    ensures Entries(data, parseFloat) == Entries(FirstThreeCells(data), parseFloat)
  {
    if data != [] {
      var init := data[..|data| - 1];
      var cut := FirstThreeCells(data);
      assert cut[..|cut| - 1] == FirstThreeCells(init);
      ExtraCellsIgnored(init, parseFloat);
      var row, crow := data[|data| - 1], cut[|cut| - 1];
      if |row| >= 3 {
        assert crow[0] == row[0] && crow[1] == row[1] && crow[2] == row[2];
      }
    }
  }

  /** The single layout succeeds exactly when the sheet has three header rows and every entry converts. */
  lemma SingleOfOkIff(rows: Grid, parseFloat: FloatParser)
    ensures SingleOf(rows, parseFloat).Ok? <==>
      |rows| >= FirstEntryRow && forall k :: FirstEntryRow <= k < |rows| ==> EntryOk(rows[k], parseFloat)
  {
    if |rows| >= FirstEntryRow {
      var data := rows[FirstEntryRow..];
      EntriesOk(data, parseFloat);
      assert forall k :: FirstEntryRow <= k < |rows| ==> rows[k] == data[k - FirstEntryRow];
    }
  }

  /** The first failing row from the 4th on fails with its 1-based row number, and no record is returned. */
  lemma SingleOfFirstFailure(rows: Grid, parseFloat: FloatParser, idx: nat)
    requires FirstEntryRow + idx < |rows|
    requires forall k :: FirstEntryRow <= k < FirstEntryRow + idx ==> EntryOk(rows[k], parseFloat)
    requires !EntryOk(rows[FirstEntryRow + idx], parseFloat)
    ensures |rows[FirstEntryRow + idx]| < 3 ==> SingleOf(rows, parseFloat) == Err(RowTooShort(idx + 4))
    ensures |rows[FirstEntryRow + idx]| >= 3 ==>
      var row := rows[FirstEntryRow + idx];
      SingleOf(rows, parseFloat) == Err(ValueInvalid(idx + 4, Conv(row[2], row[1], parseFloat).error))
  {
    var data := rows[FirstEntryRow..];
    assert forall k :: 0 <= k <= idx ==> data[k] == rows[FirstEntryRow + k];
    EntriesFirstFailure(data, idx, parseFloat);
  }

  /** `parseSingle`: the row loop filling one record, returning early on the first error. */
  method ParseSingle(rows: Grid, parseFloat: FloatParser) returns (r: Result<Record, SheetError>)
    ensures r == SingleOf(rows, parseFloat)
  {
    if |rows| < FirstEntryRow {
      return Err(SheetTooShort);
    }
    var data := rows[FirstEntryRow..];
    var record: Record := map[];
    for idx := 0 to |data|
      invariant Entries(data[..idx], parseFloat) == Ok(record)
    {
      var row := data[idx];
      assert data[..idx + 1][..idx] == data[..idx];
      if |row| < 3 {
        EntriesErrStays(data, idx + 1, parseFloat);
        return Err(RowTooShort(idx + 4));
      }
      var value := Conv(row[2], row[1], parseFloat);
      if value.Err? {
        EntriesErrStays(data, idx + 1, parseFloat);
        return Err(ValueInvalid(idx + 4, value.error));
      }
      record := record[row[0] := value.value];
    }
    assert data[..|data|] == data;
    return Ok(record);
  }
}
