/**
 * What the two layout parsers produce and how they fail.
 *
 * The worksheet is the row grid that the spreadsheet reader returns for
 * "Sheet1": a sequence of rows, each a sequence of cell texts.
 */
module Sheet {
  import opened Coerce

  type Grid = seq<seq<string>>

  /** One field map (`map[string]interface{}`). */
  type Record = map<string, Scalar>

  /**
   * The errors of the two parsers. Row and column numbers are 1-based, as in
   * the messages the program prints.
   */
  datatype SheetError =
    /** The grid has fewer header rows than the layout reads (in Go, an index-out-of-range panic). */
    | SheetTooShort
    /** List layout: field-name row and type row differ in length. */
    | FieldTypeMismatch
    /** List layout: a data row whose cell count is not the field count. */
    | RowMisaligned(row: nat, col: nat)
    /** List layout: a cell whose text its type label rejects. */
    | CellInvalid(row: nat, col: nat, cause: ConvError)
    /** Single layout: a row with fewer than three cells. */
    | RowTooShort(row: nat)
    /** Single layout: a value cell whose text its type label rejects. */
    | ValueInvalid(row: nat, cause: ConvError)
    /** Sheet metadata: B2 is neither list nor single. */
    | UnsupportedLayout

  /** The distinct entries of a sequence of names. */
  function NameSet(names: seq<string>): set<string>
  {
    set i | 0 <= i < |names| :: names[i]
  }

  /** Appending a name adds it to the set of names. */
  lemma NameSetSnoc(names: seq<string>, x: string)
    ensures NameSet(names + [x]) == NameSet(names) + {x}
  {
    var s := names + [x];
    forall k | k in NameSet(names) ensures k in NameSet(s) {
      var i :| 0 <= i < |names| && names[i] == k;
      assert s[i] == k;
    }
    assert s[|names|] == x;
  }

  /** Position i of s is the last one holding s[i]: a later write to the same key cannot overwrite it. */
  predicate LastOccurrence(s: seq<string>, i: int)
  {
    0 <= i < |s| && forall j :: i < j < |s| ==> s[j] != s[i]
  }
}
