/** The `NotionBlocks` component: it renders a page's Notion blocks in one
    left-to-right scan, merging consecutive bulleted items into one list and
    table rows into one table. The output is an abstract element tree in
    place of React markup. */
module NotionBlocks {
  import opened Wrappers
  import opened NotionTypes

  /** The payload `block[type]` of a text-bearing block. */
  datatype BlockContent = BlockContent(richText: Option<seq<RichText>>, language: Option<string>)

  datatype TableInfo = TableInfo(tableWidth: int, hasColumnHeader: bool, hasRowHeader: bool)

  datatype TableRowContent = TableRowContent(cells: seq<seq<RichText>>)

  datatype HeadingLevel = H1 | H2 | H3

  /** A block, by its `type`, with the payload stored under that type's key
      (absent when the block lacks it). `Unsupported` is every other type. */
  datatype Block =
    | Paragraph(paragraph: Option<BlockContent>)
    | Heading(level: HeadingLevel, heading: Option<BlockContent>)
    | BulletedListItem(item: Option<BlockContent>)
    | Code(code: Option<BlockContent>)
    | Table(table: Option<TableInfo>)
    | TableRow(tableRow: Option<TableRowContent>)
    | Unsupported(typeName: string)

  /** A rendered rich-text item: its text inside the annotation tags. */
  datatype Span =
    | Text(text: string)
    | Strong(inner: Span)
    | Em(inner: Span)
    | CodeSpan(inner: Span)
    | A(href: string, inner: Span)

  datatype Tag = StrongTag | EmTag | CodeTag | ATag(href: string)

  /** The tags around a span's text, outermost first. */
  function Tags(s: Span): seq<Tag> {
    match s
    case Text(_) => []
    case Strong(inner) => [StrongTag] + Tags(inner)
    case Em(inner) => [EmTag] + Tags(inner)
    case CodeSpan(inner) => [CodeTag] + Tags(inner)
    case A(href, inner) => [ATag(href)] + Tags(inner)
  }

  /** The text at the centre of a span. */
  function InnerText(s: Span): string {
    match s
    case Text(t) => t
    case Strong(inner) => InnerText(inner)
    case Em(inner) => InnerText(inner)
    case CodeSpan(inner) => InnerText(inner)
    case A(_, inner) => InnerText(inner)
  }

  datatype Cell = Cell(isHeader: bool, content: seq<Span>)

  datatype RenderedRow = RenderedRow(isHeaderRow: bool, cells: seq<Cell>)

  /** The rendered elements: `<p>`, `<h1>`..`<h3>`, a code `<pre>`, a list
      item, a `<ul>` of items, and a table. */
  datatype Element =
    | P(spans: seq<Span>)
    | Hn(level: HeadingLevel, spans: seq<Span>)
    | Pre(language: string, text: string)
    | Li(spans: seq<Span>)
    | Ul(items: seq<Element>)
    | TableNode(rows: seq<RenderedRow>)

  predicate Bold(t: RichText) { t.annotations.Some? && t.annotations.value.bold }
  predicate Italic(t: RichText) { t.annotations.Some? && t.annotations.value.italic }
  predicate InlineCode(t: RichText) { t.annotations.Some? && t.annotations.value.code }

  /** One item of `renderRichText`: bold innermost, then italic, then code,
      then the link outermost; underline and strikethrough are not rendered. */
  function RenderSpan(t: RichText): (s: Span)
    ensures InnerText(s) == t.plainText
    ensures Tags(s) ==
      (if t.link.Some? then [ATag(t.link.value)] else [])
      + (if InlineCode(t) then [CodeTag] else [])
      + (if Italic(t) then [EmTag] else [])
      + (if Bold(t) then [StrongTag] else [])
  {
    var plain := Text(t.plainText);
    var bold := if Bold(t) then Strong(plain) else plain;
    assert InnerText(bold) == t.plainText;
    assert Tags(bold) == if Bold(t) then [StrongTag] else [];
    var italic := if Italic(t) then Em(bold) else bold;
    assert InnerText(italic) == t.plainText;
    assert Tags(italic) == (if Italic(t) then [EmTag] else []) + Tags(bold);
    var code := if InlineCode(t) then CodeSpan(italic) else italic;
    assert InnerText(code) == t.plainText;
    assert Tags(code) == (if InlineCode(t) then [CodeTag] else []) + Tags(italic);
    if t.link.Some? then A(t.link.value, code) else code
  }

  /** `renderRichText`: one span per item, in order. */
  function RenderRichText(items: seq<RichText>): (r: seq<Span>)
    ensures |r| == |items|
    ensures forall i :: 0 <= i < |items| ==> r[i] == RenderSpan(items[i])
  {
    seq(|items|, i requires 0 <= i < |items| => RenderSpan(items[i]))
  }

  /** The header rule of `renderTable` for the cell at `rowIndex`, `cellIndex`. */
  predicate IsHeaderCell(info: TableInfo, rowIndex: int, cellIndex: int) {
    (info.hasColumnHeader && rowIndex == 0) || (info.hasRowHeader && cellIndex == 0)
  }

  function RenderRow(info: TableInfo, rowIndex: int, row: TableRowContent): RenderedRow {
    RenderedRow(info.hasColumnHeader && rowIndex == 0,
                seq(|row.cells|, j requires 0 <= j < |row.cells| =>
                  Cell(IsHeaderCell(info, rowIndex, j), RenderRichText(row.cells[j]))))
  }

  /** `renderTable`: one rendered row per row and one cell per cell; a cell is
      a header cell iff it is in the first row of a table with a column
      header, or first in its row of a table with a row header. */
  function RenderTable(info: TableInfo, rows: seq<TableRowContent>): (r: seq<RenderedRow>)
    ensures |r| == |rows|
    ensures forall i :: 0 <= i < |rows| ==>
      && r[i].isHeaderRow == (info.hasColumnHeader && i == 0)
      && |r[i].cells| == |rows[i].cells|
      && forall j :: 0 <= j < |rows[i].cells| ==>
           && (r[i].cells[j].isHeader <==>
                 (info.hasColumnHeader && i == 0) || (info.hasRowHeader && j == 0))
           && r[i].cells[j].content == RenderRichText(rows[i].cells[j])
  {
    seq(|rows|, i requires 0 <= i < |rows| => RenderRow(info, i, rows[i]))
  }

  /** The payload of a block whose type keys a `BlockContent`. */
  function Payload(b: Block): Option<BlockContent> {
    match b
    case Paragraph(v) => v
    case Heading(_, v) => v
    case BulletedListItem(v) => v
    case Code(v) => v
    case _ => None
  }

  /** `value?.rich_text`. */
  function RichTextOf(v: Option<BlockContent>): Option<seq<RichText>> {
    if v.Some? then v.value.richText else None
  }

  /** `value?.language || 'text'`. */
  function CodeLanguage(v: Option<BlockContent>): string {
    if v.Some? && v.value.language.Some? && v.value.language.value != "" then v.value.language.value
    else "text"
  }

  /** `value?.rich_text?.map(text => text.plain_text).join('') || ''`. */
  function CodeText(v: Option<BlockContent>): string {
    match RichTextOf(v)
    case Some(items) => JoinPlainText(items)
    case None => ""
  }

  /** `renderBlock`. */
  function RenderBlock(b: Block): (r: Option<Element>)
    // a code block always renders: its language, else "text"; its joined text, else ""
    ensures b.Code? ==> r.Some? && r.value.Pre?
    ensures b.Code? && b.code.Some? && b.code.value.language.Some? && b.code.value.language.value != "" ==>
      r.value.language == b.code.value.language.value
    ensures b.Code? && !(b.code.Some? && b.code.value.language.Some? && b.code.value.language.value != "") ==>
      r.value.language == "text"
    ensures b.Code? && RichTextOf(b.code).Some? ==> r.value.text == JoinPlainText(RichTextOf(b.code).value)
    ensures b.Code? && RichTextOf(b.code).None? ==> r.value.text == ""
    // the text blocks render their spans, when they have any rich text
    ensures b.Paragraph? && RichTextOf(b.paragraph).Some? ==> r == Some(P(RenderRichText(RichTextOf(b.paragraph).value)))
    ensures b.Heading? && RichTextOf(b.heading).Some? ==>
      r == Some(Hn(b.level, RenderRichText(RichTextOf(b.heading).value)))
    ensures IsListItem(b) ==> r == Some(Li(RenderRichText(RichTextOf(b.item).value)))
    ensures b.Table? || b.TableRow? || b.Unsupported? ==> r == None
    ensures b.Paragraph? || b.Heading? || b.BulletedListItem? ==>
      (r.Some? <==> RichTextOf(Payload(b)).Some?)
    ensures r.Some? ==> (r.value.Li? <==> b.BulletedListItem?)
    ensures r.Some? ==> !r.value.Ul? && !r.value.TableNode?
  {
    match b
    case Code(v) => Some(Pre(CodeLanguage(v), CodeText(v)))
    case BulletedListItem(v) =>
      if RichTextOf(v).Some? then Some(Li(RenderRichText(RichTextOf(v).value))) else None
    case Table(_) => None
    case TableRow(_) => None
    case Paragraph(v) =>
      if RichTextOf(v).Some? then Some(P(RenderRichText(RichTextOf(v).value))) else None
    case Heading(level, v) =>
      if RichTextOf(v).Some? then Some(Hn(level, RenderRichText(RichTextOf(v).value))) else None
    case Unsupported(_) => None
  }

  /** The scan's variables: `renderedBlocks`, `currentListItems` and
      `currentTableData` (its `tableInfo` and `rows`). */
  datatype ScanState = ScanState(rendered: seq<Element>, listItems: seq<Element>,
                                 tableInfo: Option<TableInfo>, rows: seq<TableRowContent>)

  const Start := ScanState([], [], None, [])

  /** `flushListItems`. */
  function FlushList(s: ScanState): ScanState {
    if |s.listItems| > 0 then s.(rendered := s.rendered + [Ul(s.listItems)], listItems := [])
    else s
  }

  /** A table is emitted only with table info and at least one row. */
  predicate TableReady(s: ScanState) {
    s.tableInfo.Some? && |s.rows| > 0
  }

  /** `flushTable`: the table state is reset only when a table is emitted. */
  function FlushTable(s: ScanState): ScanState {
    if TableReady(s) then
      s.(rendered := s.rendered + [TableNode(RenderTable(s.tableInfo.value, s.rows))],
         tableInfo := None, rows := [])
    else s
  }

  /** A block that renders into the open list. */
  predicate IsListItem(b: Block) {
    b.BulletedListItem? && RichTextOf(b.item).Some?
  }

  /** Open groups that will each become one emitted element. */
  function Pending(s: ScanState): nat {
    (if |s.listItems| > 0 then 1 else 0) + (if |s.rows| > 0 then 1 else 0)
  }

  /** A top-level element as the scan emits it: never a bare list item, a
      list of one or more items, a table of one or more rows. */
  predicate TopLevel(e: Element) {
    && !e.Li?
    && (e.Ul? ==> |e.items| > 0 && forall it :: it in e.items ==> it.Li?)
    && (e.TableNode? ==> |e.rows| > 0)
  }

  ghost predicate Grouped(s: ScanState) {
    && (forall e :: e in s.rendered ==> TopLevel(e))
    && (forall it :: it in s.listItems ==> it.Li?)
  }

  /** One iteration of `blocks.forEach`. */
  function Step(s: ScanState, b: Block): (r: ScanState)
    // a table block flushes the list, records its info, and emits nothing else
    ensures b.Table? ==>
      r == FlushList(s).(tableInfo := b.table)
    // a row never emits and never flushes; a row without payload is dropped
    ensures b.TableRow? ==>
      r == s.(rows := s.rows + if b.tableRow.Some? then [b.tableRow.value] else [])
    // any other block first flushes a ready table, then joins the list or
    // flushes it and emits its own element
    ensures !b.Table? && !b.TableRow? && IsListItem(b) ==>
      r == FlushTable(s).(listItems := FlushTable(s).listItems + [RenderBlock(b).value])
    ensures !b.Table? && !b.TableRow? && !IsListItem(b) ==>
      r.listItems == [] && r.tableInfo == FlushTable(s).tableInfo && r.rows == FlushTable(s).rows
      && r.rendered == FlushList(FlushTable(s)).rendered
           + if RenderBlock(b).Some? then [RenderBlock(b).value] else []
  {
    if b.Table? then FlushList(s).(tableInfo := b.table)
    else if b.TableRow? then
      if b.tableRow.Some? then s.(rows := s.rows + [b.tableRow.value]) else s
    else
      var t := FlushTable(s);
      var rendered := RenderBlock(b);
      if b.BulletedListItem? && rendered.Some? then t.(listItems := t.listItems + [rendered.value])
      else
        var u := FlushList(t);
        if rendered.Some? then u.(rendered := u.rendered + [rendered.value]) else u
  }

  /** Emitted elements are never taken back, each block opens at most one
      group, and every emitted element is a well-formed top-level element. */
  lemma StepInvariant(s: ScanState, b: Block)
    ensures s.rendered <= Step(s, b).rendered
    ensures |Step(s, b).rendered| + Pending(Step(s, b)) <= |s.rendered| + Pending(s) + 1
    ensures Grouped(s) ==> Grouped(Step(s, b))
  {
    var r := Step(s, b);
    if Grouped(s) && !b.Table? && !b.TableRow? {
      var t := FlushTable(s);
      assert forall e :: e in t.rendered ==> TopLevel(e);
      if !IsListItem(b) {
        var u := FlushList(t);
        assert forall e :: e in u.rendered ==> TopLevel(e);
      }
    }
  }

  /** The scan from state `s` over `blocks`. */
  function Scan(s: ScanState, blocks: seq<Block>): ScanState
    decreases |blocks|
  {
    if blocks == [] then s else Scan(Step(s, blocks[0]), blocks[1..])
  }

  lemma {:induction false} ScanInvariant(s: ScanState, blocks: seq<Block>)
    ensures s.rendered <= Scan(s, blocks).rendered
    ensures |Scan(s, blocks).rendered| + Pending(Scan(s, blocks)) <= |s.rendered| + Pending(s) + |blocks|
    ensures Grouped(s) ==> Grouped(Scan(s, blocks))
    decreases |blocks|
  {
    if blocks != [] {
      StepInvariant(s, blocks[0]);
      ScanInvariant(Step(s, blocks[0]), blocks[1..]);
    }
  }

  /** The flushes after the loop: the list first, then the table. */
  function Finish(s: ScanState): (r: seq<Element>)
    ensures s.rendered <= r
    ensures |r| <= |s.rendered| + Pending(s)
  {
    FlushTable(FlushList(s)).rendered
  }

  lemma FinishGrouped(s: ScanState)
    requires Grouped(s)
    ensures forall e :: e in Finish(s) ==> TopLevel(e)
  {
    assert forall e :: e in FlushList(s).rendered ==> TopLevel(e);
  }

  /** What the component renders for `blocks`: at most one element per block,
      each a top-level element, nothing for no blocks. */
  function Render(blocks: seq<Block>): (r: seq<Element>)
    ensures |r| <= |blocks|
    ensures forall e :: e in r ==> TopLevel(e)
    ensures blocks == [] ==> r == []
  {
    ScanInvariant(Start, blocks);
    FinishGrouped(Scan(Start, blocks));
    Finish(Scan(Start, blocks))
  }

  lemma {:induction false} ScanAppend(s: ScanState, a: seq<Block>, b: seq<Block>)
    ensures Scan(s, a + b) == Scan(Scan(s, a), b)
    decreases |a|
  {
    if a == [] {
      assert a + b == b;
    } else {
      assert (a + b)[0] == a[0];
      assert (a + b)[1..] == a[1..] + b;
      ScanAppend(Step(s, a[0]), a[1..], b);
    }
  }

  /** The component's scan as the source runs it: a loop over the blocks
      with the list and table buffers, then the two final flushes. */
  method RenderBlocks(blocks: seq<Block>) returns (renderedBlocks: seq<Element>)
    ensures renderedBlocks == Render(blocks)
  {
    renderedBlocks := [];
    var currentListItems: seq<Element> := [];
    var tableInfo: Option<TableInfo> := None;
    var rows: seq<TableRowContent> := [];
    var i := 0;
    while i < |blocks|
      invariant 0 <= i <= |blocks|
      invariant ScanState(renderedBlocks, currentListItems, tableInfo, rows) == Scan(Start, blocks[..i])
    {
      var block := blocks[i];
      if block.Table? {
        if |currentListItems| > 0 {
          renderedBlocks := renderedBlocks + [Ul(currentListItems)];
          currentListItems := [];
        }
        tableInfo := block.table;
      } else if block.TableRow? {
        if block.tableRow.Some? {
          rows := rows + [block.tableRow.value];
        }
      } else {
        if tableInfo.Some? && |rows| > 0 {
          renderedBlocks := renderedBlocks + [TableNode(RenderTable(tableInfo.value, rows))];
          tableInfo, rows := None, [];
        }
        var rendered := RenderBlock(block);
        if block.BulletedListItem? && rendered.Some? {
          currentListItems := currentListItems + [rendered.value];
        } else {
          if |currentListItems| > 0 {
            renderedBlocks := renderedBlocks + [Ul(currentListItems)];
            currentListItems := [];
          }
          if rendered.Some? {
            renderedBlocks := renderedBlocks + [rendered.value];
          }
        }
      }
      ScanAppend(Start, blocks[..i], [block]);
      assert blocks[..i + 1] == blocks[..i] + [block];
      i := i + 1;
    }
    if |currentListItems| > 0 {
      renderedBlocks := renderedBlocks + [Ul(currentListItems)];
      currentListItems := [];
    }
    if tableInfo.Some? && |rows| > 0 {
      renderedBlocks := renderedBlocks + [TableNode(RenderTable(tableInfo.value, rows))];
    }
    assert blocks[..i] == blocks;
  }
}
