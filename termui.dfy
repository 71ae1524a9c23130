/**
 * The terminal UI's layout staging state machine. Widgets are pushed into a
 * buffer, `AddCol` drains the buffer into a new column, `AddRow` commits the
 * column list to the grid body, `Title` commits a one-column row directly,
 * and `Render` (through `Clean`) resets the staging lists.
 */
module Plateform {
  import opened Layout

  class TermUI {
    /** The committed grid, row after row. */
    var body: seq<Row>
    /** Widgets pushed since the last column was built. */
    var widgets: seq<Widget>
    /** Columns built since the last clean. */
    var col: seq<Column>
    /** The row list the size check reads; only ever reset to empty. */
    var row: seq<Row>

    /**
     * What every reachable state satisfies: nothing is ever appended to `row`,
     * and every column, staged or committed, was created with offset 0.
     */
    ghost predicate Valid()
      reads this
    {
      row == [] && ZeroOffsets(col) && AllZeroOffsets(body)
    }

    /** A new UI: an empty grid and empty staging lists. */
    constructor ()
      ensures Valid()
      ensures body == [] && widgets == [] && col == [] && row == []
    {
      body := [];
      widgets := [];
      col := [];
      row := [];
    }

    /** Appends one column of width `size` holding the buffered widgets, and empties the buffer. */
    method AddCol(size: int)
      modifies this
      ensures col == old(col) + [Column(size, 0, old(widgets))]
      ensures widgets == []
      ensures body == old(body) && row == old(row)
      ensures old(Valid()) ==> Valid()
    {
      col := col + [Column(size, 0, widgets)];
      widgets := [];
    }

    /**
     * Commits the current column list as one row of the body. It neither
     * checks the row's size nor clears `col`: a second call commits the same
     * columns again.
     */
    method AddRow()
      modifies this
      ensures body == old(body) + [old(col)]
      ensures col == old(col) && row == old(row) && widgets == old(widgets)
      ensures old(Valid()) ==> Valid()
    {
      body := body + [col];
      assert body[|body| - 1] == col;
    }

    /**
     * The row-size check: a nested loop sums the offsets of every column of
     * every row in `row`, and the total must not exceed `MaxRowSize`.
     */
    method ValidateRowSize() returns (r: Outcome)
      ensures r.Fail? <==> TotalOffset(row) > MaxRowSize
      ensures r.Fail? ==> r.error == RowTooBig(TotalOffset(row))
      ensures Valid() ==> r == Pass
    {
      var ts := 0;
      for i := 0 to |row|
        invariant ts == TotalOffset(row[..i])
      {
        var cols := row[i];
        for j := 0 to |cols|
          invariant ts == TotalOffset(row[..i]) + OffsetSum(cols[..j])
        {
          assert cols[..j + 1][..j] == cols[..j];
          ts := ts + cols[j].offset;
        }
        assert cols[..|cols|] == cols;
        assert row[..i + 1][..i] == row[..i];
      }
      assert row[..|row|] == row;
      if ts > MaxRowSize {
        r := Fail(RowTooBig(ts));
      } else {
        r := Pass;
      }
    }

    /** Pushes a text box; nothing but the buffer changes. */
    method TextBox(data: string, fg: uint16, bd: uint16, bdlabel: string, h: int)
      modifies this
      ensures widgets == old(widgets) + [Par(data, Plain(fg), Plain(bd), bdlabel, h)]
      ensures body == old(body) && col == old(col) && row == old(row)
      ensures old(Valid()) ==> Valid()
    {
      widgets := widgets + [Par(data, Plain(fg), Plain(bd), bdlabel, h)];
    }

    /**
     * Commits a title as a row of one column of width `size` and offset 0,
     * bypassing the staging lists.
     */
    method Title(title: string, textColor: uint16, borderColor: uint16, bold: bool,
                 height: int, size: int)
      modifies this
      ensures body == old(body) +
        [[Column(size, 0, [Par(title, TitleForeground(textColor, bold), Plain(borderColor), "", height)])]]
      ensures widgets == old(widgets) && col == old(col) && row == old(row)
      ensures old(Valid()) ==> Valid()
    {
      var fg := Plain(textColor);
      if bold {
        fg := WithBold(Plain(textColor));
      }
      body := body + [[Column(size, 0, [Par(title, fg, Plain(borderColor), "", height)])]];
      assert body[|body| - 1][0].offset == 0;
    }

    /** Pushes a bar chart; nothing but the buffer changes. */
    method BarChart(data: seq<int>, dimensions: seq<string>, title: string, bd: uint16,
                    fg: uint16, nc: uint16, height: int, gap: int, barWidth: int,
                    barColor: uint16)
      modifies this
      ensures widgets == old(widgets) +
        [Widget.BarChart(data, dimensions, title, Plain(bd), Plain(fg), Plain(nc), height, gap,
                         barWidth, Plain(barColor))]
      ensures body == old(body) && col == old(col) && row == old(row)
      ensures old(Valid()) ==> Valid()
    {
      widgets := widgets +
        [Widget.BarChart(data, dimensions, title, Plain(bd), Plain(fg), Plain(nc), height, gap,
                         barWidth, Plain(barColor))];
    }

    /** Pushes a stacked bar chart (the library's eight-series bar chart); nothing but the buffer changes. */
    method StackedBarChart(data: seq<seq<int>>, dimensions: seq<string>, title: string,
                           bd: uint16, fg: uint16, nc: uint16, height: int, gap: int,
                           barWidth: int)
      requires |data| == 8
      modifies this
      ensures widgets == old(widgets) +
        [MBarChart(data, dimensions, title, Plain(bd), Plain(fg), Plain(nc), height, gap, barWidth)]
      ensures body == old(body) && col == old(col) && row == old(row)
      ensures old(Valid()) ==> Valid()
    {
      widgets := widgets +
        [MBarChart(data, dimensions, title, Plain(bd), Plain(fg), Plain(nc), height, gap, barWidth)];
    }

    /** Pushes a table; nothing but the buffer changes. */
    method Table(data: seq<seq<string>>, title: string, bd: uint16, fg: uint16)
      modifies this
      ensures widgets == old(widgets) + [Widget.Table(data, title, Plain(fg), Plain(bd))]
      ensures body == old(body) && col == old(col) && row == old(row)
      ensures old(Valid()) ==> Valid()
    {
      widgets := widgets + [Widget.Table(data, title, Plain(fg), Plain(bd))];
    }

    /** Resets the staging row and column lists; the body and the widget buffer stay. */
    method Clean()
      modifies this
      ensures row == [] && col == []
      ensures body == old(body) && widgets == old(widgets)
      ensures old(Valid()) ==> Valid()
    {
      row := [];
      col := [];
    }

    /** Draws the body (not modelled), then cleans the staging lists. */
    method Render()
      modifies this
      ensures row == [] && col == []
      ensures body == old(body) && widgets == old(widgets)
      ensures old(Valid()) ==> Valid()
    {
      Clean();
    }
  }

  /**
   * The zero-offset half of the invariant: the committed rows and the staged
   * columns add up to offset 0, so the size check could not fail on them either.
   */
  lemma ValidOffsetsZero(t: TermUI)
    requires t.Valid()
    ensures TotalOffset(t.body) == 0 && OffsetSum(t.col) == 0
  {
    ZeroOffsetsTotal(t.body);
    ZeroOffsetsSum(t.col);
  }

  /** Cleaning twice leaves the same state as cleaning once. */
  method CleanTwice(t: TermUI)
    modifies t
    ensures t.row == [] && t.col == []
    ensures t.body == old(t.body) && t.widgets == old(t.widgets)
  {
    t.Clean();
    ghost var once := (t.body, t.widgets, t.col, t.row);
    t.Clean();
    assert (t.body, t.widgets, t.col, t.row) == once;
  }

  /** Rendering any number of times leaves the committed rows as they were. */
  method RenderRepeatedly(t: TermUI, n: nat)
    modifies t
    ensures t.body == old(t.body) && t.widgets == old(t.widgets)
    ensures n > 0 ==> t.row == [] && t.col == []
  {
    for k := 0 to n
      invariant t.body == old(t.body) && t.widgets == old(t.widgets)
      invariant k > 0 ==> t.row == [] && t.col == []
    {
      t.Render();
    }
  }

  /**
   * A column built after a push holds only what was pushed since the
   * previous column: `AddCol(a)`, a table push, `AddCol(b)`.
   */
  method NoStaleWidgets(t: TermUI, a: int, cells: seq<seq<string>>, title: string,
                        bd: uint16, fg: uint16, b: int)
    modifies t
    ensures t.col == old(t.col) +
      [Column(a, 0, old(t.widgets)), Column(b, 0, [Widget.Table(cells, title, Plain(fg), Plain(bd))])]
    ensures t.widgets == [] && t.body == old(t.body) && t.row == old(t.row)
  {
    ghost var before := t.col;
    t.AddCol(a);
    ghost var first := t.col[|t.col| - 1];
    t.Table(cells, title, bd, fg);
    assert t.widgets == [Widget.Table(cells, title, Plain(fg), Plain(bd))];
    t.AddCol(b);
    assert t.col == before + [first] + [t.col[|t.col| - 1]];
  }

  /** Without a clean in between, a second `AddRow` commits the same columns again. */
  method AddRowTwice(t: TermUI)
    modifies t
    ensures t.body == old(t.body) + [old(t.col), old(t.col)]
    ensures t.col == old(t.col) && t.row == old(t.row) && t.widgets == old(t.widgets)
  {
    t.AddRow();
    t.AddRow();
  }

  /** `AddCol(6); AddCol(6); AddRow()` on a new UI: one row of two empty columns of width 6. */
  method TwoHalfColumns() returns (body: seq<Row>)
    ensures body == [[Column(6, 0, []), Column(6, 0, [])]]
  {
    var t := new TermUI();
    t.AddCol(6);
    t.AddCol(6);
    assert t.col == [Column(6, 0, []), Column(6, 0, [])];
    t.AddRow();
    body := t.body;
  }

  /**
   * `AddCol(7); AddCol(6); AddRow()`: the row is committed although its
   * widths add up to 13, and the size check still passes, since it sums
   * offsets over `row`, not widths over the committed columns.
   */
  method OversizedRowIsCommitted() returns (body: seq<Row>, width: int, check: Outcome)
    ensures body == [[Column(7, 0, []), Column(6, 0, [])]]
    ensures width == 13 > MaxRowSize
    ensures check == Pass
  {
    var t := new TermUI();
    t.AddCol(7);
    t.AddCol(6);
    assert t.col == [Column(7, 0, []), Column(6, 0, [])];
    assert t.col[..1] == [Column(7, 0, [])];
    assert SizeSum(t.col[..1]) == 7;
    t.AddRow();
    body := t.body;
    width := SizeSum(t.body[0]);
    check := t.ValidateRowSize();
  }

  /**
   * Three widgets, `AddCol(12)`, `AddRow()`, `Render()`: the body keeps one
   * row of one column holding the three widgets, and the staging lists are empty.
   */
  method RenderKeepsLayout(w1: string, w2: string, w3: string)
    returns (body: seq<Row>, col: seq<Column>, row: seq<Row>)
    ensures body == [[Column(12, 0, [Par(w1, Plain(0), Plain(0), "", 3),
                                     Par(w2, Plain(0), Plain(0), "", 3),
                                     Par(w3, Plain(0), Plain(0), "", 3)])]]
    ensures col == [] && row == []
  {
    var t := new TermUI();
    t.TextBox(w1, 0, 0, "", 3);
    t.TextBox(w2, 0, 0, "", 3);
    t.TextBox(w3, 0, 0, "", 3);
    assert t.widgets == [Par(w1, Plain(0), Plain(0), "", 3), Par(w2, Plain(0), Plain(0), "", 3),
                         Par(w3, Plain(0), Plain(0), "", 3)];
    ghost var pushed := t.widgets;
    t.AddCol(12);
    assert t.col == [Column(12, 0, pushed)];
    t.AddRow();
    assert t.body == [[Column(12, 0, pushed)]];
    t.Render();
    body, col, row := t.body, t.col, t.row;
  }
}
