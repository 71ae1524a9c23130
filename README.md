# devdash terminal UI layout, modelled in Dafny

devdash draws a terminal dashboard as a grid of widgets. Its `termUI` type
(`internal/plateform/termui.go`) builds that grid in stages:

- the widget constructors (`TextBox`, `BarChart`, `StackedBarChart`, `Table`) push widgets into a buffer;
- `AddCol(size)` drains the buffer into a new column of width `size` and offset 0;
- `AddRow` commits the list of columns built so far as a new row of the grid body;
- `Title` commits a one-column row holding a paragraph straight to the body;
- `Render` draws the body and then `clean` resets the staging lists.

`validateRowSize` folds over a second row list: it sums the offset of every
column of every row, and it reports an error carrying that total when the
sum is above the budget of 12 layout units.

The model has three modules:

- `Plateform` (`termui.dfy`):
  - the class `TermUI`, whose fields `body`, `widgets`, `col` and `row` are sequences its methods reassign;
  - the invariant `Valid()`: `row` is empty, and every staged or committed column has offset 0;
  - client methods that run fixed call sequences against `TermUI`: repeated clean and render, a push between two `AddCol` calls, a repeated `AddRow`, and three scenarios on a new UI.
- `Layout` (`layout.dfy`): widgets as opaque records of their parameters, colour attributes with an abstract bold flag, columns and rows, the offset folds, and the row-size error.
- `Decimal` (`decimal.dfy`): the `%d` rendering of the total inside the error text.

The model follows the code as written, and shows these quirks:

- `AddRow` never calls `validateRowSize`. It neither rejects an oversized row nor clears `col`.
- `validateRowSize` reads `row`. Nothing ever appends to `row`: it starts empty and `clean` only resets it. So the check always passes.
- The check sums offsets, not widths, and every column is created with offset 0. So even over the committed rows it could not fail.
- As a result, `AddCol(7); AddCol(6); AddRow()` commits a row 13 units wide, and the check still passes (`OversizedRowIsCommitted`). A check of the committed columns against `maxRowSize` would reject this row and report 13.

## Model

| member | source | states |
|---|---|---|
| `Plateform.TermUI.constructor` | internal/plateform/termui.go:38-41 | a new UI has an empty body, an empty widget buffer and empty `col` and `row` lists, and satisfies the invariant |
| `Plateform.TermUI.AddCol` | internal/plateform/termui.go:48-51 | `col` grows by exactly one column at the end: width `size`, offset 0, exactly the buffered widgets in push order; the earlier columns stay; the buffer ends empty; body and row are untouched; the invariant is kept |
| `Plateform.TermUI.AddRow` | internal/plateform/termui.go:53-56 | the body grows by exactly one row, the current `col` list in order; `col`, `row` and the buffer are unchanged (no size check, no clearing); the invariant is kept |
| `Plateform.TermUI.ValidateRowSize` | internal/plateform/termui.go:58-71 | the nested loop returns an error exactly when the sum of the offsets of every column of every row in `row` exceeds 12; the error carries that sum; it changes nothing; in every state satisfying the invariant it passes |
| `Plateform.TermUI.TextBox` | internal/plateform/termui.go:73-88 | the buffer grows by one paragraph at the end, with the given text, colours, border label and height; body, `col` and `row` are untouched |
| `Plateform.TermUI.Title` | internal/plateform/termui.go:90-107 | the body grows by one row of a single column (width `size`, offset 0) holding the title paragraph, whose text colour is bold exactly when `bold` holds; the buffer, `col` and `row` are untouched |
| `Plateform.TermUI.BarChart` | internal/plateform/termui.go:109-135 | the buffer grows by one bar chart at the end, carrying the given data, labels and styling; body, `col` and `row` are untouched |
| `Plateform.TermUI.StackedBarChart` | internal/plateform/termui.go:137-162 | the buffer grows by one eight-series bar chart at the end, carrying the given data, labels and styling; body, `col` and `row` are untouched |
| `Plateform.TermUI.Table` | internal/plateform/termui.go:164-178 | the buffer grows by one table at the end, carrying the given cells, title and colours; body, `col` and `row` are untouched |
| `Plateform.TermUI.Clean` | internal/plateform/termui.go:197-201 | `row` and `col` end empty; the body and the buffer are unchanged; the invariant is kept |
| `Plateform.TermUI.Render` | internal/plateform/termui.go:191-195 | what `Clean` does: the committed rows and the buffer are unchanged, and the staging lists end empty |
| `Plateform.CleanTwice` | internal/plateform/termui.go:198-200 | a second clean leaves the state exactly as the first one left it |
| `Plateform.RenderRepeatedly` | internal/plateform/termui.go:191-195 | any number of renders leaves the committed rows and the buffer as they were |
| `Plateform.NoStaleWidgets` | internal/plateform/termui.go:48-50 | after `AddCol`, a push and another `AddCol`, the second new column holds only the widget pushed in between |
| `Plateform.AddRowTwice` | internal/plateform/termui.go:53-56 | two `AddRow` calls in a row commit the same column list twice |
| `Plateform.TwoHalfColumns` | internal/plateform/termui.go:48-56 | `AddCol(6); AddCol(6); AddRow()` on a new UI gives a body of one row of two columns of width 6 |
| `Plateform.OversizedRowIsCommitted` | internal/plateform/termui.go:53-70 | `AddCol(7); AddCol(6); AddRow()` commits a row whose widths add up to 13, and the size check afterwards passes |
| `Plateform.RenderKeepsLayout` | internal/plateform/termui.go:191-201 | three pushes, `AddCol(12)`, `AddRow()`, `Render()`: the body is exactly one row of one width-12 column holding the three text boxes in push order, and the staging lists are empty |
| `Layout.TitleForeground` | internal/plateform/termui.go:99-102 | the title's text colour is `textColor`, with the bold attribute exactly when `bold` holds |
| `Layout.TotalOffsetIsFlatSum` | internal/plateform/termui.go:59-64 | the nested fold over rows and their columns equals the sum of offsets over all columns of the grid taken in order |
| `Layout.OffsetSumAppend` | internal/plateform/termui.go:61-63 | the inner fold is additive over concatenation of column lists |
| `Layout.ZeroOffsetsSum` | internal/plateform/termui.go:61-63 | columns that all have offset 0 sum to 0 |
| `Plateform.ValidOffsetsZero` | internal/plateform/termui.go:49 | in every state satisfying the invariant, the offsets of the committed rows and of the staged columns total 0, so the size check could not fail even if it read them |
| `Layout.ZeroOffsetsTotal` | internal/plateform/termui.go:59-64 | rows whose columns all have offset 0 total 0, whatever their widths: the check cannot fail on them |
| `Layout.ErrorMessageCarriesTotal` | internal/plateform/termui.go:67 | the error text is the fixed prefix, the decimal total and the fixed suffix, and the total reads back out of it |
| `Decimal.NatDigits` | internal/plateform/termui.go:67 | `%d` of a natural number is a non-empty string of digits with no leading zero |
| `Decimal.FormatIntRoundTrip` | internal/plateform/termui.go:67 | what `%d` prints for an integer parses back to that integer |

## Left out

- Terminal lifecycle: `termui.Init` and its error, `Close`, and the grid's position, background colour and terminal width. These are foreign I/O calls. The constructor starts with an empty body and empty staging lists.
- Drawing: the `termui.Render` call inside `Render` is foreign I/O. `Render` is modelled as its call to `clean`.
- `body.Align()`: an opaque reflow inside the library, taken as not changing the row sequence.
- `KQuit` and `Loop`: a key binding and a blocking library event loop.
- `debugPrint` and the package-global `debug` flag: they only print.
- Widget internals belong to the library and are kept as opaque records of the parameters set on them. This covers colour conversions, `bc.Buffer()`, `ta.SetSize()`, bar and table content, the numeric value of the bold bit, and the eight-entry number-colour array of the stacked bar chart (kept as its one configured colour).
- The library's own row type: a title row is a library row with a widget and no columns, and a column with several widgets nests one sub-row per widget. Here both are a `Column(size, offset, widgets)`, and a title row is the one-column row `[Column(size, 0, [title])]`.
- Plateform.TermUI.ValidateRowSize: sums with unbounded integers, while Go's `int` wraps at 64 bits; no state the code can reach has a non-zero offset, so the wrap cannot occur.
- Layout.Plain: a colour argument that already carries the library's bold bit is modelled as not bold.
- Plateform.AddRowTwice: committed rows share column objects with `col` and with each other; only the left-out `Align` and drawing can observe it.
