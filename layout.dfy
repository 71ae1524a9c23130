/**
 * The values the dashboard layout is built from: widgets (opaque records of
 * the parameters they were configured with), columns, rows, and the offset
 * sums that the row-size check folds over.
 */
module Layout {
  import Decimal

  /** Go's `uint16`, the type every colour parameter arrives in. */
  newtype uint16 = x: int | 0 <= x < 0x1_0000

  /**
   * A terminal colour attribute. The library's bold attribute is a bit OR'd
   * into the colour; its numeric value belongs to the library, so it is kept
   * here as a flag next to the colour.
   */
  datatype Attribute = Attribute(color: uint16, bold: bool)

  /** The conversion `termui.Attribute(c)`: the colour as given, with no bold OR applied. */
  function Plain(c: uint16): Attribute {
    Attribute(c, false)
  }

  /** `a | termui.AttrBold`. */
  function WithBold(a: Attribute): Attribute {
    a.(bold := true)
  }

  /** The text colour of a title: the given colour, made bold exactly when asked. */
  function TitleForeground(textColor: uint16, bold: bool): (a: Attribute)
    ensures a.color == textColor
    ensures a.bold <==> bold
  {
    if bold then WithBold(Plain(textColor)) else Plain(textColor)
  }

  /**
   * One constructor per kind of library widget the terminal UI builds, with
   * the parameters it sets on it. Text boxes and titles are both paragraphs.
   */
  datatype Widget =
    | Par(text: string, textFg: Attribute, borderFg: Attribute, borderLabel: string, height: int)
    | BarChart(data: seq<int>, dataLabels: seq<string>, borderLabel: string, borderFg: Attribute,
               textColor: Attribute, numColor: Attribute, height: int, barGap: int, barWidth: int,
               barColor: Attribute)
    | MBarChart(stacks: seq<seq<int>>, dataLabels: seq<string>, borderLabel: string,
                borderFg: Attribute, textColor: Attribute, numColor: Attribute, height: int,
                barGap: int, barWidth: int)
    | Table(cells: seq<seq<string>>, borderLabel: string, fgColor: Attribute, borderFg: Attribute)

  /** A column of the grid: its width in layout units, its offset, and its widgets in order. */
  datatype Column = Column(size: int, offset: int, widgets: seq<Widget>)

  /** A row of the grid is its columns, left to right. */
  type Row = seq<Column>

  /** The width budget of one row, in layout units. */
  const MaxRowSize := 12

  /** Sum of the offsets of `cols`. */
  function OffsetSum(cols: seq<Column>): int
  {
    if cols == [] then 0 else OffsetSum(cols[..|cols| - 1]) + cols[|cols| - 1].offset
  }

  /** Sum, over every row, of the offsets of its columns: the nested fold of the row check. */
  function TotalOffset(rows: seq<Row>): int
  {
    if rows == [] then 0 else TotalOffset(rows[..|rows| - 1]) + OffsetSum(rows[|rows| - 1])
  }

  /** Sum of the widths of `cols`. */
  function SizeSum(cols: seq<Column>): int
  {
    if cols == [] then 0 else SizeSum(cols[..|cols| - 1]) + cols[|cols| - 1].size
  }

  /** All columns of all rows, row after row. */
  function Flatten(rows: seq<Row>): seq<Column>
  {
    if rows == [] then [] else Flatten(rows[..|rows| - 1]) + rows[|rows| - 1]
  }

  predicate ZeroOffsets(cols: seq<Column>) {
    forall i :: 0 <= i < |cols| ==> cols[i].offset == 0
  }

  predicate AllZeroOffsets(rows: seq<Row>) {
    forall i :: 0 <= i < |rows| ==> ZeroOffsets(rows[i])
  }

  lemma {:induction false} OffsetSumAppend(a: seq<Column>, b: seq<Column>)
    ensures OffsetSum(a + b) == OffsetSum(a) + OffsetSum(b)
    decreases |b|
  {
    if b == [] {
      assert a + b == a;
    } else {
      var n := |b| - 1;
      assert (a + b)[..|a + b| - 1] == a + b[..n];
      OffsetSumAppend(a, b[..n]);
    }
  }

  /** The nested fold equals the plain sum of offsets over the flattened grid. */
  lemma {:induction false} TotalOffsetIsFlatSum(rows: seq<Row>)
    ensures TotalOffset(rows) == OffsetSum(Flatten(rows))
    decreases |rows|
  {
    if rows != [] {
      var init := rows[..|rows| - 1];
      TotalOffsetIsFlatSum(init);
      OffsetSumAppend(Flatten(init), rows[|rows| - 1]);
    }
  }

  lemma {:induction false} ZeroOffsetsSum(cols: seq<Column>)
    requires ZeroOffsets(cols)
    ensures OffsetSum(cols) == 0
    decreases |cols|
  {
    if cols != [] {
      ZeroOffsetsSum(cols[..|cols| - 1]);
    }
  }

  /** Rows whose columns all have offset 0 add up to 0, whatever their widths. */
  lemma {:induction false} ZeroOffsetsTotal(rows: seq<Row>)
    requires AllZeroOffsets(rows)
    ensures TotalOffset(rows) == 0
    decreases |rows|
  {
    if rows != [] {
      ZeroOffsetsTotal(rows[..|rows| - 1]);
      ZeroOffsetsSum(rows[|rows| - 1]);
    }
  }

  /** The error of the row-size check, carrying the offending total. */
  datatype RowSizeError = RowTooBig(size: int)

  /** Result of the row-size check: `nil` or an error. */
  datatype Outcome = Pass | Fail(error: RowSizeError)

  const MessagePrefix := "could not create row: size "
  const MessageSuffix := " too big"

  /** The text of the error, as `errors.Errorf` formats it. */
  function ErrorMessage(e: RowSizeError): string {
    MessagePrefix + Decimal.FormatInt(e.size) + MessageSuffix
  }

  /** The total can be read back out of the error text. */
  lemma ErrorMessageCarriesTotal(e: RowSizeError)
    ensures var m := ErrorMessage(e);
      |m| > |MessagePrefix| + |MessageSuffix| &&
      m[..|MessagePrefix|] == MessagePrefix &&
      m[|m| - |MessageSuffix|..] == MessageSuffix &&
      Decimal.ParseInt(m[|MessagePrefix|..|m| - |MessageSuffix|]) == Decimal.Some(e.size)
  {
    var m := ErrorMessage(e);
    var digits := Decimal.FormatInt(e.size);
    assert m[|MessagePrefix|..|m| - |MessageSuffix|] == digits;
    Decimal.FormatIntRoundTrip(e.size);
  }
}
