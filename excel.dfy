/**
 * The per-file steps of `parseExcel` that do not touch the file system: the
 * choice of layout from cell B2, and the directory fragment of the output
 * path.
 */
module Excel {
  import opened Wrappers
  import opened Coerce
  import opened Sheet
  import ListLayout
  import SingleLayout

  /** The two layouts a sheet can declare in cell B2. */
  datatype Layout = List | Single

  const ListLabel := "列表"
  const SingleLabel := "单项"

  /** The value handed to the JSON encoder: a list of records, or one record. */
  datatype Config = ListConfig(records: seq<Record>) | SingleConfig(record: Record)

  /** The layout named by the text b2 of cell B2; any other text is rejected. */
  function LayoutOf(b2: string): (r: Option<Layout>)
    ensures r == Some(List) <==> b2 == ListLabel
    ensures r == Some(Single) <==> b2 == SingleLabel
    ensures r == None <==> b2 != ListLabel && b2 != SingleLabel
  {
    if b2 == ListLabel then Some(List)
    else if b2 == SingleLabel then Some(Single)
    else None
  }

  /** `parseExcel` between reading B2 and writing the output: dispatch on the layout and parse the grid. */
  function ConvertSheet(b2: string, rows: Grid, parseFloat: FloatParser): (r: Result<Config, SheetError>)
    ensures b2 != ListLabel && b2 != SingleLabel ==> r == Err(UnsupportedLayout)
    ensures r.Ok? ==> (r.value.ListConfig? <==> b2 == ListLabel) && (r.value.SingleConfig? <==> b2 == SingleLabel)
  {
    match LayoutOf(b2)
    case None => Err(UnsupportedLayout)
    case Some(List) =>
      (match ListLayout.ListOf(rows, parseFloat)
       case Ok(recs) => Ok(ListConfig(recs))
       case Err(e) => Err(e))
    case Some(Single) =>
      (match SingleLayout.SingleOf(rows, parseFloat)
       case Ok(m) => Ok(SingleConfig(m))
       case Err(e) => Err(e))
  }

  /** An unknown layout text in B2 fails before the grid is looked at, so even a grid too short to parse gives this error. */
  lemma UnknownLayoutRejected(b2: string, rows: Grid, other: Grid, parseFloat: FloatParser)
    requires b2 != ListLabel && b2 != SingleLabel
    ensures ConvertSheet(b2, rows, parseFloat) == Err(UnsupportedLayout)
    ensures ConvertSheet(b2, rows, parseFloat) == ConvertSheet(b2, other, parseFloat)
  {
  }

  /** Each layout label hands the grid to its own parser and passes on that parser's result, error and all. */
  lemma ConvertSheetDispatch(b2: string, rows: Grid, parseFloat: FloatParser)
    ensures b2 == ListLabel ==>
      (ConvertSheet(b2, rows, parseFloat).Ok? <==> ListLayout.ListOf(rows, parseFloat).Ok?) &&
      (ListLayout.ListOf(rows, parseFloat).Ok? ==>
         ConvertSheet(b2, rows, parseFloat) == Ok(ListConfig(ListLayout.ListOf(rows, parseFloat).value))) &&
      (ListLayout.ListOf(rows, parseFloat).Err? ==>
         ConvertSheet(b2, rows, parseFloat) == Err(ListLayout.ListOf(rows, parseFloat).error))
    ensures b2 == SingleLabel ==>
      (ConvertSheet(b2, rows, parseFloat).Ok? <==> SingleLayout.SingleOf(rows, parseFloat).Ok?) &&
      (SingleLayout.SingleOf(rows, parseFloat).Ok? ==>
         ConvertSheet(b2, rows, parseFloat) == Ok(SingleConfig(SingleLayout.SingleOf(rows, parseFloat).value))) &&
      (SingleLayout.SingleOf(rows, parseFloat).Err? ==>
         ConvertSheet(b2, rows, parseFloat) == Err(SingleLayout.SingleOf(rows, parseFloat).error))
  {
  }

  /** `strings.TrimPrefix`: s without a leading prefix, or s unchanged when it does not start with it. */
  function TrimPrefix(s: string, prefix: string): (r: string)
    ensures prefix <= s ==> prefix + r == s
    ensures !(prefix <= s) ==> r == s
  {
    if prefix <= s then s[|prefix|..] else s
  }

  /**
   * The output directory fragment is `TrimPrefix(absDir, absRoot)`: for a
   * directory under the scanned root it is the part below the root, and ""
   * for the root itself.
   */
  lemma TrimPrefixUnderRoot(absRoot: string, rel: string)
    ensures TrimPrefix(absRoot + rel, absRoot) == rel
  {
  }
}
