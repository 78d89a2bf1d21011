/**
 * The parts of a parsed HTML page the extractors look at, as values. The tree
 * itself is built by an HTML library that is not part of this model; these
 * types hold what its lookups return.
 */
module Html {
  import opened Wrappers

  /**
   * A `td` or `th` element: every text fragment (string node) below it, in
   * document order, and, for each `li` element below it, that item's own
   * fragments.
   */
  datatype Cell = Cell(fragments: seq<string>, items: seq<seq<string>>)

  /** A `tr` element: its first `th` (if any) and its `td` elements in order. */
  datatype Row = Row(header: Option<Cell>, cells: seq<Cell>)

  /** A `table` element and its `tbody`, given as the body's `tr` elements. */
  datatype Table = Table(body: Option<seq<Row>>)

  /** A page: its `table` elements in document order. */
  type Document = seq<Table>
}
