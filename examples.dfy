/** Worked sheets and paths: concrete inputs and what the model gives for them. */
module Examples {
  import opened Wrappers
  import opened Coerce
  import opened Sheet
  import ListLayout
  import SingleLayout
  import Walk

  lemma CoercionExamples(parseFloat: FloatParser)
    ensures Conv("42", "int", parseFloat) == Ok(IntVal(42))
    ensures Conv("-7", "int", parseFloat) == Ok(IntVal(-7))
    ensures Conv("4x", "int", parseFloat) == Err(IntInvalid)
    ensures Conv("abc", "string", parseFloat) == Ok(StrVal("abc"))
    ensures Conv("abc", "foo", parseFloat) == Ok(StrVal("abc"))
  {
  }

  /** Fields ["id", "name"] of types ["int", "string"] and one data row ["1", "Alice"]. */
  lemma ListExample(parseFloat: FloatParser)
    ensures ListLayout.ListOf([[], [], [], ["id", "name"], ["int", "string"], ["1", "Alice"]], parseFloat)
         == Ok([map["id" := IntVal(1), "name" := StrVal("Alice")]])
  {
    var rows: Grid := [[], [], [], ["id", "name"], ["int", "string"], ["1", "Alice"]];
    var fields, types, row := rows[3], rows[4], rows[5];
    var data := rows[5..];
    assert data == [row];
    assert data[..0] == [];
    assert Atoi("1") == Some(1) by { assert "1"[..0] == []; }
    assert ListLayout.RecordPrefix(fields, types, row, 1, parseFloat) == Ok(map["id" := IntVal(1)]);
    var rec := map["id" := IntVal(1), "name" := StrVal("Alice")];
    assert ListLayout.RowRecord(fields, types, row, parseFloat) == Ok(rec);
    assert ListLayout.DataRecords(fields, types, data[..|data| - 1], parseFloat) == Ok([]);
    assert [] + [rec] == [rec];
  }

  /** Entries ["maxHP", "int", "100"] and ["title", "string", "Boss"]. */
  lemma SingleExample(parseFloat: FloatParser)
    ensures SingleLayout.SingleOf([[], [], [], ["maxHP", "int", "100"], ["title", "string", "Boss"]], parseFloat)
         == Ok(map["maxHP" := IntVal(100), "title" := StrVal("Boss")])
  {
    var rows: Grid := [[], [], [], ["maxHP", "int", "100"], ["title", "string", "Boss"]];
    var data := rows[3..];
    assert data == [rows[3], rows[4]];
    assert data[..1] == [rows[3]];
    assert data[..1][..0] == [];
    assert Atoi("100") == Some(100) by {
      assert "100"[..2] == "10" && "10"[..1] == "1" && "1"[..0] == [];
    }
    assert SingleLayout.Entries(data[..1], parseFloat) == Ok(map["maxHP" := IntVal(100)]);
  }

  /** A lock file beside a workbook is not converted. */
  lemma LockFileExample()
    ensures Walk.VisitOf("cfg/~$report.xlsx", false) == Walk.Skip
  {
    assert "cfg/" + Walk.LockPrefix + "report.xlsx" == "cfg/~$report.xlsx";
    Walk.LockFileSkipped("cfg/", "report.xlsx", false);
  }

  /** A text file is not converted. */
  lemma TextFileExample()
    ensures Walk.VisitOf("cfg/notes.txt", false) == Walk.Skip
  {
  }

  /** A workbook is converted. */
  lemma WorkbookExample()
    ensures Walk.VisitOf("cfg/report.xlsx", false) == Walk.Convert
  {
    assert "cfg/" + ("report" + ".xlsx") == "cfg/report.xlsx";
    assert !(Walk.LockPrefix <= "report.xlsx") by { assert Walk.LockPrefix[0] != "report.xlsx"[0]; }
    Walk.SpreadsheetConverted("cfg/", "report", ".xlsx");
  }
}
