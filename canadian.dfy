/**
 * The extraction rules of the Canadian scraper, as functions over the parsed
 * page: how one cell becomes a description, how one body row becomes a record
 * (or is skipped, with or without a log message), and what a whole parse adds
 * to the scraper's list and its log.
 */
module Canadian {
  import opened Wrappers
  import opened Text
  import opened Html
  import opened Log

  /** One extracted entry: the dictionary with keys 'Tariff Item', 'HS Heading' and 'Description'. */
  datatype TariffRecord = TariffRecord(tariffItem: string, hsHeading: string, description: string)

  /** The separator between list items in a description. */
  const ItemSeparator: string := "; "

  /** The text of each `li`, fragments joined by a space. */
  function ItemTexts(items: seq<seq<string>>): (r: seq<string>)
    ensures |r| == |items|
  {
    seq(|items|, i requires 0 <= i < |items| => GetText(items[i], " "))
  }

  /**
   * `parse_description`: with list items, their texts joined by "; " in order;
   * without, the cell's own text with fragments joined by a space.
   */
  function ParseDescription(cell: Cell): string {
    if |cell.items| > 0 then Join(ItemTexts(cell.items), ItemSeparator)
    else GetText(cell.fragments, " ")
  }

  /**
   * A description built from list items holds every item's text, in order, at
   * its offset, each followed by "; " unless it is the last: an empty item
   * still takes its slot.
   */
  lemma DescriptionItem(cell: Cell, k: nat)
    requires k < |cell.items|
    ensures var r, texts := ParseDescription(cell), ItemTexts(cell.items);
      && Offset(texts, ItemSeparator, k) + |texts[k]| <= |r|
      && r[Offset(texts, ItemSeparator, k)..Offset(texts, ItemSeparator, k) + |texts[k]|] == GetText(cell.items[k], " ")
      && (k + 1 < |texts| ==>
            && Offset(texts, ItemSeparator, k + 1) <= |r|
            && r[Offset(texts, ItemSeparator, k) + |texts[k]|..Offset(texts, ItemSeparator, k + 1)] == ItemSeparator)
  {
    var texts := ItemTexts(cell.items);
    assert ParseDescription(cell) == Join(texts, ItemSeparator);
    JoinPart(texts, ItemSeparator, k);
    if k + 1 < |texts| {
      JoinSeparator(texts, ItemSeparator, k);
    }
  }

  /** A description built from n list items holds their characters and exactly n - 1 separators. */
  lemma DescriptionLength(cell: Cell)
    requires |cell.items| > 0
    ensures |ParseDescription(cell)| == TotalLength(ItemTexts(cell.items)) + (|cell.items| - 1) * |ItemSeparator|
  {
    var texts := ItemTexts(cell.items);
    assert ParseDescription(cell) == Join(texts, ItemSeparator);
    JoinLength(texts, ItemSeparator);
  }

  /** A description never starts or ends with whitespace when the cell has no list items. */
  lemma DescriptionWithoutListTrimmed(cell: Cell)
    requires cell.items == []
    ensures Trimmed(ParseDescription(cell))
  {
    GetTextTrimmed(cell.fragments, " ");
  }

  /** Two list items "A" and "B" give "A; B". */
  lemma DescriptionExampleList()
    ensures ParseDescription(Cell(["A", "B"], [["A"], ["B"]])) == "A; B"
  {
    var items := [["A"], ["B"]];
    GetTextSingle("A", " ");
    GetTextSingle("B", " ");
    assert Strip("A") == "A" by { StripPadding("", "A", ""); assert "" + "A" + "" == "A"; }
    assert Strip("B") == "B" by { StripPadding("", "B", ""); assert "" + "B" + "" == "B"; }
    assert ItemTexts(items) == ["A", "B"];
  }

  /** An item with no text still takes its slot: a blank item before "B" gives "; B". */
  lemma DescriptionExampleEmptyItem()
    ensures ParseDescription(Cell([" ", "B"], [[" "], ["B"]])) == "; B"
  {
    var items := [[" "], ["B"]];
    GetTextEmpty([" "], " ");
    GetTextSingle("B", " ");
    assert Strip("B") == "B" by { StripPadding("", "B", ""); assert "" + "B" + "" == "B"; }
    assert ItemTexts(items) == ["", "B"];
  }

  /** Without list items the cell's text is stripped but its inner run of spaces is kept. */
  lemma DescriptionExampleFlat()
    ensures ParseDescription(Cell(["  Some   text  "], [])) == "Some   text"
  {
    var f, core := "  Some   text  ", "Some   text";
    assert f == "  " + core + "  ";
    assert IsSpace(' ');
    assert Blank("  ");
    StripPadding("  ", core, "  ");
    assert !IsSpace(core[0]) && !IsSpace(core[|core| - 1]);
    assert TrimStart(core) == core;
    assert TrimEnd(core) == core;
    GetTextSingle(f, " ");
  }

  /** What one body row contributes. */
  datatype RowOutcome =
    | MissingHeader              // no `th`: the lookup fails, the error is logged, the row skipped
    | TooFewCells                // fewer than two `td`: skipped silently
    | Produced(record: TariffRecord)

  /**
   * One iteration of the row loop. The `th` lookup comes first, so a row with
   * neither a header nor two cells counts as a missing header. The tariff item
   * is the header's text with no separator, the heading the first cell's text,
   * the description the second cell's; further cells are not looked at. Both
   * texts come out stripped, but nothing makes them non-empty.
   */
  function ClassifyRow(row: Row): (r: RowOutcome)
    ensures r.MissingHeader? <==> row.header.None?
    ensures r.TooFewCells? <==> row.header.Some? && |row.cells| < 2
  {
    match row.header
    case None => MissingHeader
    case Some(th) =>
      if |row.cells| < 2 then TooFewCells
      else
        Produced(TariffRecord(GetText(th.fragments, ""), GetText(row.cells[0].fragments, " "),
                              ParseDescription(row.cells[1])))
  }

  /** Cells after the second never change what a row gives. */
  lemma ExtraCellsIgnored(header: Option<Cell>, cells: seq<Cell>)
    requires |cells| >= 2
    ensures ClassifyRow(Row(header, cells)) == ClassifyRow(Row(header, cells[..2]))
  {
  }

  /** A header cell of whitespace alone yields a record whose tariff item is empty. */
  lemma EmptyTariffItemAccepted(cells: seq<Cell>)
    requires |cells| >= 2
    ensures ClassifyRow(Row(Some(Cell(["  ", "\n"], [])), cells)).Produced?
    ensures ClassifyRow(Row(Some(Cell(["  ", "\n"], [])), cells)).record.tariffItem == ""
  {
    GetTextEmpty(["  ", "\n"], "");
  }

  /** The records the row loop appends, in row order. */
  function ExtractRows(rows: seq<Row>): (r: seq<TariffRecord>)
    ensures |r| <= |rows|
    decreases |rows|
  {
    if rows == [] then []
    else
      var o := ClassifyRow(rows[|rows| - 1]);
      ExtractRows(rows[..|rows| - 1]) + (if o.Produced? then [o.record] else [])
  }

  /** The messages the row loop logs: one per row without a header. */
  function RowLog(rows: seq<Row>): (r: seq<Diagnostic>)
    ensures forall i :: 0 <= i < |r| ==> r[i] == RowError
    decreases |rows|
  {
    if rows == [] then []
    else RowLog(rows[..|rows| - 1]) + (if rows[|rows| - 1].header.None? then [RowError] else [])
  }

  /**
   * Every record's tariff item and heading come out stripped (no whitespace
   * at either end), though possibly empty.
   */
  lemma {:induction false} RecordsTrimmed(rows: seq<Row>)
    ensures forall i :: 0 <= i < |ExtractRows(rows)| ==>
      Trimmed(ExtractRows(rows)[i].tariffItem) && Trimmed(ExtractRows(rows)[i].hsHeading)
    decreases |rows|
  {
    if rows != [] {
      var row := rows[|rows| - 1];
      RecordsTrimmed(rows[..|rows| - 1]);
      if ClassifyRow(row).Produced? {
        GetTextTrimmed(row.header.value.fragments, "");
        GetTextTrimmed(row.cells[0].fragments, " ");
      }
    }
  }

  /** Rows are handled one after another: what a run of rows gives is what its parts give, in order. */
  lemma {:induction false} ExtractRowsAppend(a: seq<Row>, b: seq<Row>)
    ensures ExtractRows(a + b) == ExtractRows(a) + ExtractRows(b)
    ensures RowLog(a + b) == RowLog(a) + RowLog(b)
    decreases |b|
  {
    if b == [] {
      assert a + b == a;
    } else {
      var n := |b|;
      assert (a + b)[..|a + b| - 1] == a + b[..n - 1];
      assert (a + b)[|a + b| - 1] == b[n - 1];
      ExtractRowsAppend(a, b[..n - 1]);
    }
  }

  /** A skipped row, logged or not, does not stop or change what the rows after it give. */
  lemma SkippedRowTransparent(a: seq<Row>, row: Row, b: seq<Row>)
    requires !ClassifyRow(row).Produced?
    ensures ExtractRows(a + [row] + b) == ExtractRows(a) + ExtractRows(b)
  {
    assert [row][..0] == [];
    assert ExtractRows([row]) == [];
    ExtractRowsAppend(a, [row]);
    assert ExtractRows(a + [row]) == ExtractRows(a);
    ExtractRowsAppend(a + [row], b);
  }

  /**
   * Every row yields a record, a logged error, or (a headed row with fewer
   * than two cells) nothing at all: records plus messages never exceed the
   * rows, and match them exactly when no headed row is short of cells.
   */
  lemma {:induction false} RowAccounting(rows: seq<Row>)
    ensures |ExtractRows(rows)| + |RowLog(rows)| <= |rows|
    ensures |ExtractRows(rows)| + |RowLog(rows)| == |rows| <==>
      forall i :: 0 <= i < |rows| ==> !ClassifyRow(rows[i]).TooFewCells?
    decreases |rows|
  {
    if rows != [] {
      var init := rows[..|rows| - 1];
      RowAccounting(init);
      assert forall i :: 0 <= i < |init| ==> init[i] == rows[i];
    }
  }

  /**
   * The records come from the rows in document order: the k-th record is the
   * one produced by row idx[k], and the indexes strictly increase.
   */
  lemma {:induction false} ExtractRowsSources(rows: seq<Row>) returns (idx: seq<nat>)
    ensures |idx| == |ExtractRows(rows)|
    ensures forall k :: 0 <= k < |idx| ==>
      idx[k] < |rows| && ClassifyRow(rows[idx[k]]) == Produced(ExtractRows(rows)[k])
    ensures forall k, l :: 0 <= k < l < |idx| ==> idx[k] < idx[l]
    decreases |rows|
  {
    if rows == [] {
      idx := [];
    } else {
      var n := |rows|;
      var init := rows[..n - 1];
      idx := ExtractRowsSources(init);
      var o := ClassifyRow(rows[n - 1]);
      var before := ExtractRows(init);
      assert ExtractRows(rows) == before + (if o.Produced? then [o.record] else []);
      assert forall k :: 0 <= k < |idx| ==> rows[idx[k]] == init[idx[k]] && ExtractRows(rows)[k] == before[k];
      if o.Produced? {
        idx := idx + [n - 1];
      }
    }
  }

  /** What one call of `parse_data` produces: its answer, the records it appends, and what it logs. */
  datatype ParseOutcome = ParseOutcome(ok: bool, added: seq<TariffRecord>, logged: seq<Diagnostic>)

  /**
   * `parse_data` of the Canadian scraper on a page, given the records the
   * scraper already holds: only the first table is read; without it, or
   * without its body, nothing is added and the call fails; otherwise the rows
   * are walked and the answer is whether the list, old records included, is
   * non-empty.
   */
  function CanadianParse(doc: Document, prior: seq<TariffRecord>): ParseOutcome {
    if doc == [] then ParseOutcome(false, [], [NoTable])
    else if doc[0].body.None? then ParseOutcome(false, [], [NoTableBody])
    else
      var rows := doc[0].body.value;
      var added := ExtractRows(rows);
      ParseOutcome(prior + added != [], added, RowLog(rows))
  }

  /** Tables after the first are never read. */
  lemma OnlyFirstTable(doc: Document, prior: seq<TariffRecord>)
    requires doc != []
    ensures CanadianParse(doc, prior) == CanadianParse(doc[..1], prior)
  {
  }

  /**
   * The call succeeds exactly when the first table and its body exist and the
   * list is non-empty afterwards; a missing table or body adds nothing.
   */
  lemma CanadianParseResult(doc: Document, prior: seq<TariffRecord>)
    ensures var o := CanadianParse(doc, prior);
      && (o.ok <==> doc != [] && doc[0].body.Some? && (prior != [] || ExtractRows(doc[0].body.value) != []))
      && (doc == [] || doc[0].body.None? ==> o.added == [] && |o.logged| == 1 && o.logged[0].IsError())
      && |o.added| <= (if doc == [] || doc[0].body.None? then 0 else |doc[0].body.value|)
  {
  }

  /**
   * Parsing is not idempotent on one instance: parsing the same page again
   * appends the same records a second time, and a scraper that already holds
   * records reports success even when the page adds none.
   */
  lemma ParseTwiceDuplicates(doc: Document, prior: seq<TariffRecord>)
    ensures var first := CanadianParse(doc, prior);
      var second := CanadianParse(doc, prior + first.added);
      && second.added == first.added
      && second.logged == first.logged
      && (prior + first.added) + second.added == prior + first.added + first.added
      && (first.ok ==> second.ok)
  {
  }

  /** With records already held, a page whose table body yields none still reports success. */
  lemma PriorRecordsMakeSuccess(rows: seq<Row>, prior: seq<TariffRecord>)
    requires prior != []
    ensures CanadianParse([Table(Some(rows))], prior).ok
  {
  }

  /** A one-fragment cell whose text has no whitespace at either end reads back as that text. */
  lemma PlainText(s: string, sep: string)
    requires s != [] && !IsSpace(s[0]) && !IsSpace(s[|s| - 1])
    ensures GetText([s], sep) == s
  {
    GetTextSingle(s, sep);
    assert TrimStart(s) == s;
    assert TrimEnd(s) == s;
  }

  /** A row of three single-fragment cells with no surrounding whitespace yields exactly their texts. */
  lemma PlainRow(item: string, heading: string, description: string)
    requires item != [] && !IsSpace(item[0]) && !IsSpace(item[|item| - 1])
    requires heading != [] && !IsSpace(heading[0]) && !IsSpace(heading[|heading| - 1])
    requires description != [] && !IsSpace(description[0]) && !IsSpace(description[|description| - 1])
    ensures ClassifyRow(Row(Some(Cell([item], [])), [Cell([heading], []), Cell([description], [])]))
         == Produced(TariffRecord(item, heading, description))
  {
    PlainText(item, "");
    PlainText(heading, " ");
    PlainText(description, " ");
  }

  /** A page whose one table holds two well-formed rows. */
  function TwoRowPage(): Document {
    [Table(Some([
      Row(Some(Cell(["0101.21.00"], [])), [Cell(["01.01"], []), Cell(["Horses"], [])]),
      Row(Some(Cell(["0102.29.00"], [])), [Cell(["01.02"], []), Cell(["Cattle"], [])])]))]
  }

  /** The page of two well-formed rows gives exactly two records, field by field, and logs nothing. */
  lemma TwoRowExample()
    ensures CanadianParse(TwoRowPage(), []) == ParseOutcome(true, [
        TariffRecord("0101.21.00", "01.01", "Horses"),
        TariffRecord("0102.29.00", "01.02", "Cattle")], [])
  {
    var r1 := Row(Some(Cell(["0101.21.00"], [])), [Cell(["01.01"], []), Cell(["Horses"], [])]);
    var r2 := Row(Some(Cell(["0102.29.00"], [])), [Cell(["01.02"], []), Cell(["Cattle"], [])]);
    PlainRow("0101.21.00", "01.01", "Horses");
    PlainRow("0102.29.00", "01.02", "Cattle");
    var rec1 := TariffRecord("0101.21.00", "01.01", "Horses");
    var rec2 := TariffRecord("0102.29.00", "01.02", "Cattle");
    assert [r1, r2][..1] == [r1] && [r1][..0] == [];
    assert ExtractRows([r1]) == [rec1] && RowLog([r1]) == [];
    assert ExtractRows([r1, r2]) == [rec1, rec2] && RowLog([r1, r2]) == [];
  }
}
