/** What the scan of `NotionBlocks` groups together, stated independently of
    the scan: on a well-formed block sequence the rendered output is one list
    per maximal run of bulleted items, one table per table block with its
    rows, and each other block's own element. */
module NotionBlocksGrouping {
  import opened Wrappers
  import opened NotionTypes
  import opened NotionBlocks

  /** The shape the Notion page content is expected to have: a table block
      has its info and is immediately followed by its rows, every row has its
      payload and belongs to the table before it, and a table's last row is
      not followed directly by another table. */
  predicate WellFormed(bs: seq<Block>) {
    forall i :: 0 <= i < |bs| ==> WellFormedAt(bs, i)
  }

  predicate WellFormedAt(bs: seq<Block>, i: nat)
    requires i < |bs|
  {
    && (bs[i].Table? ==> bs[i].table.Some? && i + 1 < |bs| && bs[i + 1].TableRow?)
    && (bs[i].TableRow? ==>
          && bs[i].tableRow.Some?
          && 0 < i && (bs[i - 1].Table? || bs[i - 1].TableRow?)
          && (i + 1 < |bs| ==> !bs[i + 1].Table?))
  }

  /** The length of the run of list items at the front of `bs`. */
  function ListRun(bs: seq<Block>): (n: nat)
    ensures n <= |bs|
    ensures forall i :: 0 <= i < n ==> IsListItem(bs[i])
    ensures n < |bs| ==> !IsListItem(bs[n])
  {
    if bs != [] && IsListItem(bs[0]) then 1 + ListRun(bs[1..]) else 0
  }

  /** The length of the run of table rows at the front of `bs`. */
  function RowRun(bs: seq<Block>): (n: nat)
    ensures n <= |bs|
    ensures forall i :: 0 <= i < n ==> bs[i].TableRow?
    ensures n < |bs| ==> !bs[n].TableRow?
  {
    if bs != [] && bs[0].TableRow? then 1 + RowRun(bs[1..]) else 0
  }

  /** The elements of the blocks that render, in order. */
  function Rendered(bs: seq<Block>): (r: seq<Element>)
    ensures |r| <= |bs|
  {
    if bs == [] then []
    else (if RenderBlock(bs[0]).Some? then [RenderBlock(bs[0]).value] else []) + Rendered(bs[1..])
  }

  /** The payloads of the rows that have one, in order. */
  function Payloads(bs: seq<Block>): (r: seq<TableRowContent>)
    ensures |r| <= |bs|
  {
    if bs == [] then []
    else (if bs[0].TableRow? && bs[0].tableRow.Some? then [bs[0].tableRow.value] else [])
         + Payloads(bs[1..])
  }

  /** The reference grouping, segment by segment. */
  function Grouped(bs: seq<Block>): seq<Element>
    decreases |bs|
  {
    if bs == [] then []
    else if IsListItem(bs[0]) then
      var n := ListRun(bs);
      [Ul(Rendered(bs[..n]))] + Grouped(bs[n..])
    else if bs[0].Table? && bs[0].table.Some? then
      var m := RowRun(bs[1..]);
      [TableNode(RenderTable(bs[0].table.value, Payloads(bs[1..1 + m])))] + Grouped(bs[1 + m..])
    else
      (if RenderBlock(bs[0]).Some? then [RenderBlock(bs[0]).value] else []) + Grouped(bs[1..])
  }

  /** A state with no open list and no buffered rows. */
  predicate Clean(s: ScanState) {
    s.listItems == [] && s.rows == []
  }

  predicate AllListItems(bs: seq<Block>) {
    forall i :: 0 <= i < |bs| ==> IsListItem(bs[i])
  }

  predicate AllRows(bs: seq<Block>) {
    forall i :: 0 <= i < |bs| ==> bs[i].TableRow? && bs[i].tableRow.Some?
  }

  lemma WellFormedSuffix(bs: seq<Block>, n: nat)
    requires WellFormed(bs)
    requires n <= |bs|
    requires n == |bs| || !bs[n].TableRow?
    ensures WellFormed(bs[n..])
  {
    var t := bs[n..];
    forall i | 0 <= i < |t|
      ensures WellFormedAt(t, i)
    {
      assert WellFormedAt(bs, n + i);
      assert t[i] == bs[n + i];
      if i + 1 < |t| {
        assert t[i + 1] == bs[n + i + 1];
      }
      if 0 < i {
        assert t[i - 1] == bs[n + i - 1];
      }
    }
  }

  lemma {:induction false} RenderedOfListItems(bs: seq<Block>)
    requires AllListItems(bs)
    ensures |Rendered(bs)| == |bs|
    decreases |bs|
  {
    if bs != [] {
      assert AllListItems(bs[1..]) by {
        forall i | 0 <= i < |bs| - 1 ensures IsListItem(bs[1..][i]) {
          assert bs[1..][i] == bs[i + 1];
        }
      }
      RenderedOfListItems(bs[1..]);
    }
  }

  lemma {:induction false} PayloadsOfRows(bs: seq<Block>)
    requires AllRows(bs)
    ensures |Payloads(bs)| == |bs|
    decreases |bs|
  {
    if bs != [] {
      assert AllRows(bs[1..]) by {
        forall i | 0 <= i < |bs| - 1 ensures bs[1..][i].TableRow? && bs[1..][i].tableRow.Some? {
          assert bs[1..][i] == bs[i + 1];
        }
      }
      PayloadsOfRows(bs[1..]);
    }
  }

  lemma StepListItem(s: ScanState, b: Block)
    requires s.rows == []
    requires IsListItem(b)
    ensures Step(s, b) == s.(listItems := s.listItems + [RenderBlock(b).value])
  {
    assert FlushTable(s) == s;
  }

  /** A run of list items only extends the open list. */
  lemma {:induction false} ListRunScan(s: ScanState, bs: seq<Block>)
    requires s.rows == []
    requires AllListItems(bs)
    ensures Scan(s, bs) == s.(listItems := s.listItems + Rendered(bs))
    decreases |bs|
  {
    if bs != [] {
      var x := RenderBlock(bs[0]).value;
      var s1 := s.(listItems := s.listItems + [x]);
      assert IsListItem(bs[0]);
      StepListItem(s, bs[0]);
      assert Rendered(bs) == [x] + Rendered(bs[1..]);
      assert AllListItems(bs[1..]) by {
        forall i | 0 <= i < |bs| - 1 ensures IsListItem(bs[1..][i]) {
          assert bs[1..][i] == bs[i + 1];
        }
      }
      ListRunScan(s1, bs[1..]);
      assert s.listItems + [x] + Rendered(bs[1..]) == s.listItems + Rendered(bs);
    }
  }

  /** A run of rows only extends the buffered rows. */
  lemma {:induction false} RowRunScan(s: ScanState, bs: seq<Block>)
    requires forall i :: 0 <= i < |bs| ==> bs[i].TableRow?
    ensures Scan(s, bs) == s.(rows := s.rows + Payloads(bs))
    decreases |bs|
  {
    if bs != [] {
      var p := if bs[0].tableRow.Some? then [bs[0].tableRow.value] else [];
      var s1 := s.(rows := s.rows + p);
      assert Step(s, bs[0]) == s1;
      assert Payloads(bs) == p + Payloads(bs[1..]);
      RowRunScan(s1, bs[1..]);
      assert s.rows + p + Payloads(bs[1..]) == s.rows + Payloads(bs);
    }
  }

  /** Closing the open list early changes nothing when the next block would
      close it anyway. */
  lemma FinishAfterFlushList(s: ScanState, bs: seq<Block>)
    requires s.rows == []
    requires bs == [] || (!IsListItem(bs[0]) && !bs[0].TableRow?)
    ensures Finish(Scan(s, bs)) == Finish(Scan(FlushList(s), bs))
  {
    if bs != [] {
      assert Step(s, bs[0]) == Step(FlushList(s), bs[0]);
    }
  }

  /** Emitting the buffered table early changes nothing when the next block
      would emit it anyway. */
  lemma FinishAfterFlushTable(s: ScanState, bs: seq<Block>)
    requires s.listItems == []
    requires bs == [] || (!bs[0].Table? && !bs[0].TableRow?)
    ensures Finish(Scan(s, bs)) == Finish(Scan(FlushTable(s), bs))
  {
    if bs != [] {
      assert Step(s, bs[0]) == Step(FlushTable(s), bs[0]);
    }
  }

  /** A run of list items, then a block that is neither a list item nor a
      row, emits one list. */
  lemma ListScanSegment(s: ScanState, items: seq<Block>, rest: seq<Block>)
    requires Clean(s)
    requires items != [] && AllListItems(items)
    requires rest == [] || (!IsListItem(rest[0]) && !rest[0].TableRow?)
    ensures Finish(Scan(s, items + rest)) ==
      Finish(Scan(s.(rendered := s.rendered + [Ul(Rendered(items))]), rest))
  {
    ScanAppend(s, items, rest);
    ListRunScan(s, items);
    RenderedOfListItems(items);
    var s1 := s.(listItems := s.listItems + Rendered(items));
    assert s.listItems + Rendered(items) == Rendered(items);
    FinishAfterFlushList(s1, rest);
    assert FlushList(s1) == s.(rendered := s.rendered + [Ul(Rendered(items))]);
  }

  /** What well-formedness says about a run of list items at the front. */
  lemma ListRunFacts(bs: seq<Block>)
    requires WellFormed(bs)
    requires bs != [] && IsListItem(bs[0])
    ensures 1 <= ListRun(bs)
    ensures AllListItems(bs[..ListRun(bs)])
    ensures bs == bs[..ListRun(bs)] + bs[ListRun(bs)..]
    ensures ListRun(bs) == |bs| || (!IsListItem(bs[ListRun(bs)]) && !bs[ListRun(bs)].TableRow?)
    ensures WellFormed(bs[ListRun(bs)..])
  {
    var n := ListRun(bs);
    assert bs == bs[..n] + bs[n..];
    assert AllListItems(bs[..n]) by {
      forall i | 0 <= i < n ensures IsListItem(bs[..n][i]) {
        assert bs[..n][i] == bs[i];
      }
    }
    assert n == |bs| || !bs[n].TableRow? by {
      if n < |bs| {
        assert WellFormedAt(bs, n);
        assert IsListItem(bs[n - 1]);
      }
    }
    WellFormedSuffix(bs, n);
  }

  /** A table block, its rows, then a block that is neither a table nor a
      row, emits one table and clears the table state. */
  lemma TableScanSegment(s: ScanState, info: TableInfo, rows: seq<Block>, rest: seq<Block>)
    requires Clean(s)
    requires rows != [] && AllRows(rows)
    requires rest == [] || (!rest[0].Table? && !rest[0].TableRow?)
    ensures Finish(Scan(s, [Table(Some(info))] + rows + rest)) ==
      Finish(Scan(s.(rendered := s.rendered + [TableNode(RenderTable(info, Payloads(rows)))],
                     tableInfo := None), rest))
  {
    var t := Table(Some(info));
    var s2 := s.(tableInfo := Some(info));
    assert [t] + rows + rest == [t] + (rows + rest);
    ScanAppend(s, [t], rows + rest);
    assert Scan(s, [t]) == s2 by {
      assert Step(s, t) == s2;
      assert Scan(s, [t]) == Scan(Step(s, t), []);
    }
    ScanAppend(s2, rows, rest);
    assert AllRows(rows);
    RowRunScan(s2, rows);
    PayloadsOfRows(rows);
    var s3 := s2.(rows := Payloads(rows));
    assert s2.rows + Payloads(rows) == Payloads(rows);
    assert Scan(s, [t] + rows + rest) == Scan(s3, rest);
    FinishAfterFlushTable(s3, rest);
    assert FlushTable(s3) == s.(rendered := s.rendered + [TableNode(RenderTable(info, Payloads(rows)))],
                                tableInfo := None);
  }

  /** What well-formedness says about a table block at the front. */
  lemma TableRunFacts(bs: seq<Block>)
    requires WellFormed(bs)
    requires bs != [] && bs[0].Table?
    ensures bs[0].table.Some?
    ensures 1 <= RowRun(bs[1..]) && 1 + RowRun(bs[1..]) <= |bs|
    ensures AllRows(bs[1..1 + RowRun(bs[1..])])
    ensures bs == [Table(Some(bs[0].table.value))] + bs[1..1 + RowRun(bs[1..])] + bs[1 + RowRun(bs[1..])..]
    ensures 1 + RowRun(bs[1..]) == |bs|
      || (!bs[1 + RowRun(bs[1..])].Table? && !bs[1 + RowRun(bs[1..])].TableRow?)
    ensures WellFormed(bs[1 + RowRun(bs[1..])..])
  {
    var tail := bs[1..];
    var m := RowRun(tail);
    assert WellFormedAt(bs, 0);
    assert tail[0] == bs[1];
    var rows := bs[1..1 + m];
    assert AllRows(rows) by {
      forall i | 0 <= i < m ensures rows[i].TableRow? && rows[i].tableRow.Some? {
        assert rows[i] == bs[1 + i] == tail[i];
        assert WellFormedAt(bs, 1 + i);
      }
    }
    assert bs == [bs[0]] + rows + bs[1 + m..];
    if 1 + m < |bs| {
      assert tail[m] == bs[1 + m];
      assert bs[m].TableRow? by {
        assert tail[m - 1] == bs[m];
      }
      assert WellFormedAt(bs, m);
    }
    WellFormedSuffix(bs, 1 + m);
  }

  /** Any other block emits its own element, if it renders. */
  lemma OtherBlock(s: ScanState, bs: seq<Block>) returns (own: seq<Element>)
    requires Clean(s)
    requires WellFormed(bs)
    requires bs != [] && !IsListItem(bs[0]) && !(bs[0].Table? && bs[0].table.Some?)
    ensures own == if RenderBlock(bs[0]).Some? then [RenderBlock(bs[0]).value] else []
    ensures WellFormed(bs[1..])
    ensures Clean(Step(s, bs[0]))
    ensures Step(s, bs[0]).rendered == s.rendered + own
    ensures Finish(Scan(s, bs)) == Finish(Scan(Step(s, bs[0]), bs[1..]))
    ensures Grouped(bs) == own + Grouped(bs[1..])
  {
    own := if RenderBlock(bs[0]).Some? then [RenderBlock(bs[0]).value] else [];
    assert WellFormedAt(bs, 0);
    assert 1 < |bs| ==> !bs[1].TableRow? by {
      if 1 < |bs| {
        assert WellFormedAt(bs, 1);
      }
    }
    WellFormedSuffix(bs, 1);
    GroupedOther(bs);
  }

  /** From a clean state, the scan and its final flushes append exactly the
      reference grouping of a well-formed sequence. */
  lemma {:induction false} ScanMatchesGrouped(s: ScanState, bs: seq<Block>)
    requires Clean(s)
    requires WellFormed(bs)
    ensures Finish(Scan(s, bs)) == s.rendered + Grouped(bs)
    decreases |bs|, 1
  {
    if bs == [] {
    } else if IsListItem(bs[0]) {
      ListCase(s, bs);
    } else if bs[0].Table? && bs[0].table.Some? {
      TableCase(s, bs);
    } else {
      OtherCase(s, bs);
    }
  }

  lemma {:induction false} ListCase(s: ScanState, bs: seq<Block>)
    requires Clean(s)
    requires WellFormed(bs)
    requires bs != [] && IsListItem(bs[0])
    ensures Finish(Scan(s, bs)) == s.rendered + Grouped(bs)
    decreases |bs|, 0
  {
    var n := ListRun(bs);
    var ul := Ul(Rendered(bs[..n]));
    ListRunFacts(bs);
    ListScanSegment(s, bs[..n], bs[n..]);
    ScanMatchesGrouped(s.(rendered := s.rendered + [ul]), bs[n..]);
    assert Grouped(bs) == [ul] + Grouped(bs[n..]);
    AppendAssoc(s.rendered, [ul], Grouped(bs[n..]));
  }

  lemma {:induction false} TableCase(s: ScanState, bs: seq<Block>)
    requires Clean(s)
    requires WellFormed(bs)
    requires bs != [] && bs[0].Table? && bs[0].table.Some?
    ensures Finish(Scan(s, bs)) == s.rendered + Grouped(bs)
    decreases |bs|, 0
  {
    var m := RowRun(bs[1..]);
    var info := bs[0].table.value;
    var table := TableNode(RenderTable(info, Payloads(bs[1..1 + m])));
    TableRunFacts(bs);
    TableScanSegment(s, info, bs[1..1 + m], bs[1 + m..]);
    ScanMatchesGrouped(s.(rendered := s.rendered + [table], tableInfo := None), bs[1 + m..]);
    assert Grouped(bs) == [table] + Grouped(bs[1 + m..]);
    AppendAssoc(s.rendered, [table], Grouped(bs[1 + m..]));
  }

  lemma {:induction false} OtherCase(s: ScanState, bs: seq<Block>)
    requires Clean(s)
    requires WellFormed(bs)
    requires bs != [] && !IsListItem(bs[0]) && !(bs[0].Table? && bs[0].table.Some?)
    ensures Finish(Scan(s, bs)) == s.rendered + Grouped(bs)
    decreases |bs|, 0
  {
    var own := OtherBlock(s, bs);
    ScanMatchesGrouped(Step(s, bs[0]), bs[1..]);
    AppendAssoc(s.rendered, own, Grouped(bs[1..]));
  }

  /** Regrouping a concatenation, stated once so the case lemmas above need
      not prove it inside their larger contexts. */
  lemma AppendAssoc(a: seq<Element>, b: seq<Element>, c: seq<Element>)
    ensures a + b + c == a + (b + c)
  {
  }

  lemma GroupedOther(bs: seq<Block>)
    requires bs != [] && !IsListItem(bs[0]) && !(bs[0].Table? && bs[0].table.Some?)
    ensures Grouped(bs) == (if RenderBlock(bs[0]).Some? then [RenderBlock(bs[0]).value] else []) + Grouped(bs[1..])
  {
  }

  /** The component renders a well-formed page as its reference grouping. */
  lemma RenderIsGrouped(bs: seq<Block>)
    requires WellFormed(bs)
    ensures Render(bs) == Grouped(bs)
  {
    ScanMatchesGrouped(Start, bs);
  }

  /** A table with a column header followed by its two rows renders as
      one table whose first row is the header row. */
  lemma HeaderRowTable(info: TableInfo, r1: TableRowContent, r2: TableRowContent)
    requires info.hasColumnHeader
    ensures Render([Table(Some(info)), TableRow(Some(r1)), TableRow(Some(r2))])
         == [TableNode(RenderTable(info, [r1, r2]))]
    ensures RenderTable(info, [r1, r2])[0].isHeaderRow
    ensures !RenderTable(info, [r1, r2])[1].isHeaderRow
  {
    var bs := [Table(Some(info)), TableRow(Some(r1)), TableRow(Some(r2))];
    assert WellFormedAt(bs, 0) && WellFormedAt(bs, 1) && WellFormedAt(bs, 2);
    RenderIsGrouped(bs);
    assert RowRun(bs[1..]) == 2;
    assert Payloads(bs[1..3]) == [r1, r2];
    assert bs[3..] == [];
  }

  /** Two bulleted items then a paragraph: one list of both items, then the
      paragraph. */
  lemma ListThenParagraph(a: BlockContent, b: BlockContent, p: BlockContent)
    requires a.richText.Some? && b.richText.Some? && p.richText.Some?
    ensures Render([BulletedListItem(Some(a)), BulletedListItem(Some(b)), Paragraph(Some(p))])
         == [Ul([Li(RenderRichText(a.richText.value)), Li(RenderRichText(b.richText.value))]),
             P(RenderRichText(p.richText.value))]
  {
    var bs := [BulletedListItem(Some(a)), BulletedListItem(Some(b)), Paragraph(Some(p))];
    var s1 := Step(Start, bs[0]);
    var s2 := Step(s1, bs[1]);
    var s3 := Step(s2, bs[2]);
    var A := RenderRichText(a.richText.value);
    var B := RenderRichText(b.richText.value);
    assert s1 == ScanState([], [Li(A)], None, []);
    assert s2 == ScanState([], [Li(A), Li(B)], None, []);
    assert s3 == ScanState([Ul([Li(A), Li(B)]), P(RenderRichText(p.richText.value))], [], None, []);
    assert Scan(Start, bs) == Scan(s1, [bs[1], bs[2]]) by {
      assert bs[1..] == [bs[1], bs[2]];
    }
    assert Scan(s1, [bs[1], bs[2]]) == Scan(s2, [bs[2]]) by {
      assert [bs[1], bs[2]][1..] == [bs[2]];
    }
    assert Scan(s2, [bs[2]]) == s3 by {
      assert [bs[2]][1..] == [];
    }
  }

  /** A row seen before any table block is kept, and joins the next table. */
  lemma OrphanRowJoinsNextTable(r: TableRowContent, info: TableInfo, p: BlockContent)
    requires p.richText.Some?
    ensures Render([TableRow(Some(r)), Table(Some(info)), Paragraph(Some(p))])
         == [TableNode(RenderTable(info, [r])), P(RenderRichText(p.richText.value))]
  {
    var bs := [TableRow(Some(r)), Table(Some(info)), Paragraph(Some(p))];
    var s1 := Step(Start, bs[0]);
    var s2 := Step(s1, bs[1]);
    var s3 := Step(s2, bs[2]);
    assert s1 == ScanState([], [], None, [r]);
    assert s2 == ScanState([], [], Some(info), [r]);
    assert s3 == ScanState([TableNode(RenderTable(info, [r])), P(RenderRichText(p.richText.value))], [], None, []);
    assert Scan(Start, bs) == Scan(s1, [bs[1], bs[2]]) by {
      assert bs[1..] == [bs[1], bs[2]];
    }
    assert Scan(s1, [bs[1], bs[2]]) == Scan(s2, [bs[2]]) by {
      assert [bs[1], bs[2]][1..] == [bs[2]];
    }
    assert Scan(s2, [bs[2]]) == s3 by {
      assert [bs[2]][1..] == [];
    }
  }

  /** A row after a bulleted item still joins the earlier table, and at the
      end the list is emitted before the table. */
  lemma ListEmittedBeforeTable(info: TableInfo, a: BlockContent, r: TableRowContent)
    requires a.richText.Some?
    ensures Render([Table(Some(info)), BulletedListItem(Some(a)), TableRow(Some(r))])
         == [Ul([Li(RenderRichText(a.richText.value))]), TableNode(RenderTable(info, [r]))]
  {
    var bs := [Table(Some(info)), BulletedListItem(Some(a)), TableRow(Some(r))];
    var s1 := Step(Start, bs[0]);
    var s2 := Step(s1, bs[1]);
    var s3 := Step(s2, bs[2]);
    var A := RenderRichText(a.richText.value);
    assert s1 == ScanState([], [], Some(info), []);
    assert s2 == ScanState([], [Li(A)], Some(info), []);
    assert s3 == ScanState([], [Li(A)], Some(info), [r]);
    assert Finish(s3) == [Ul([Li(A)]), TableNode(RenderTable(info, [r]))];
    assert Scan(Start, bs) == Scan(s1, [bs[1], bs[2]]) by {
      assert bs[1..] == [bs[1], bs[2]];
    }
    assert Scan(s1, [bs[1], bs[2]]) == Scan(s2, [bs[2]]) by {
      assert [bs[1], bs[2]][1..] == [bs[2]];
    }
    assert Scan(s2, [bs[2]]) == s3 by {
      assert [bs[2]][1..] == [];
    }
  }

  /** Two tables with no other block between them render as one table with
      the second table's info and the rows of both. */
  lemma AdjacentTablesMerge(i1: TableInfo, r1: TableRowContent, i2: TableInfo, r2: TableRowContent)
    ensures Render([Table(Some(i1)), TableRow(Some(r1)), Table(Some(i2)), TableRow(Some(r2))])
         == [TableNode(RenderTable(i2, [r1, r2]))]
  {
    var bs := [Table(Some(i1)), TableRow(Some(r1)), Table(Some(i2)), TableRow(Some(r2))];
    var s1 := Step(Start, bs[0]);
    var s2 := Step(s1, bs[1]);
    var s3 := Step(s2, bs[2]);
    var s4 := Step(s3, bs[3]);
    assert s1 == ScanState([], [], Some(i1), []);
    assert s2 == ScanState([], [], Some(i1), [r1]);
    assert s3 == ScanState([], [], Some(i2), [r1]);
    assert s4 == ScanState([], [], Some(i2), [r1, r2]);
    assert Scan(Start, bs) == Scan(s1, [bs[1], bs[2], bs[3]]) by {
      assert bs[1..] == [bs[1], bs[2], bs[3]];
    }
    assert Scan(s1, [bs[1], bs[2], bs[3]]) == Scan(s2, [bs[2], bs[3]]) by {
      assert [bs[1], bs[2], bs[3]][1..] == [bs[2], bs[3]];
    }
    assert Scan(s2, [bs[2], bs[3]]) == Scan(s3, [bs[3]]) by {
      assert [bs[2], bs[3]][1..] == [bs[3]];
    }
    assert Scan(s3, [bs[3]]) == s4 by {
      assert [bs[3]][1..] == [];
    }
  }
}
