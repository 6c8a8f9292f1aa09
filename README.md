# grid — a Dafny model

The `grid` crate is a thin helper on top of a retained-mode UI toolkit. It
arranges cells into a grid. A **cell** pairs an element with a container style.
A **factory** is a deferred producer of a cell, called once per render pass.
The **grid** holds a ragged sequence of rows of factories and four lengths:
cell width, cell height, gutter and padding. Fluent builder methods set them.
Rendering calls every factory in stored order and puts
each produced element in a fixed-size, centred, styled container. It lays each
grid row out as a row spaced by the gutter, stacks the rows in a column spaced
by the gutter, and pads the whole column once.

The model has four modules:

- `Cells` (`cells.dfy`): the `Cell` datatype, `CellFrom` (converting an element
  into a cell) and `WithStyle` (setting its style). It also has the `Factory`
  datatype with one variant per constructor and `Produce`, which calls a
  factory. Last come the `Item` conversion into factories that the row
  appenders apply.
- `Nodes` (`nodes.dfy`): the toolkit's widget tree as an abstract datatype.
  `Leaf` is a sized, aligned container with a style closure over the theme;
  `RowNode` and `ColumnNode` hold children and a spacing; `Padded` pads one
  child. This module also has the observations proved about trees: the leaf
  cells in reading order, the count of padding containers, uniform spacing,
  and the erased layout `Shape`.
- `Grids` (`grids.dfy`): `GridState`, the value a grid holds. It has the
  builder operations and `Render` as functions on it, with their properties
  proved as lemmas. It also has the class `Grid`, whose methods update its
  fields in place. Each method is proved to change the state exactly as the
  matching function does and nothing else.
- `Calendar` (`calendar.dfy`): the month calendar the demo binary builds. It
  is used as one worked example of the library model.

Element, style, length and theme are type parameters. The grid only stores and
forwards them. The toolkit's default style and default length have no
counterpart for an opaque type, so they are parameters: `defaultStyle` for
`Render` and `Produce`, and `zero` for the constructor and `Default`.

The demo builds six rows: the header and five weeks, the last of three days
(`Calendar.CalendarRows`). The builder checks no length; it stores whatever it
is given, and so does the model.

## Model

| member | source | states |
|---|---|---|
| `Cells.WithStyle` | src/lib.rs:23-29 | setting a cell's style replaces the style as a whole and keeps the content |
| `Cells.WithStyleLastWins` | src/lib.rs:26-28 | a second style replaces the first (no merge), and re-setting a cell's own style changes nothing |
| `Cells.ProduceStyles` | src/lib.rs:35-60 | an element factory yields its element with the default style; an element-and-style factory yields its element with exactly its style; a function factory yields what the function returns; element factories give the same content whatever default is used |
| `Cells.CellFrom` | src/lib.rs:15-20 | no contract; the element with the default style. Specified by `PlainItemDefaultStyle` and `ElementFactoriesAreFunctions`, which tie it to the element factory |
| `Cells.ElementFactoriesAreFunctions` | src/lib.rs:41-55 | the two element factories behave like function factories that convert the element into a cell, and then (for the second) set the style |
| `Cells.PlainItemDefaultStyle` | src/lib.rs:63-68 | converting a plain element into a factory goes through the element factory, so each call yields the element with the default style, as converting the element into a cell does (src/lib.rs:15-20) |
| `Cells.Produce` | src/lib.rs:41-60 | no contract; calling the factory's closure (src/lib.rs:112). Specified by `ProduceStyles`, one clause per constructor |
| `Cells.IntoFactory` | src/lib.rs:63-68 | no contract; a plain element goes through the element factory and a factory converts into itself. Specified by `PlainItemDefaultStyle` |
| `Cells.IntoFactories` | src/lib.rs:138-159 | no contract; the item-by-item conversion of one row in iteration order. Specified through the ensures of `Grids.AppendRow` and `Grids.AppendRows`, which give every converted item's position |
| `Nodes.Uniform` | src/lib.rs:126 | no contract; a single length converted to the same padding on all four sides. Used by the ensures of `Grids.Render` and `Grids.RenderPaddedOnce` |
| `Grids.Default` | src/lib.rs:80-91 | no contract; no rows and every length the default length. Specified by `Grids.Grid.constructor` and `Grids.RenderDefault` |
| `Grids.AppendRow` | src/lib.rs:138-146 | one row is added after all existing rows, which are kept. It holds the items' factories in iteration order. The four lengths are unchanged |
| `Grids.IntoRows` | src/lib.rs:154-157 | no contract; each row of the argument converted item by item, in order. Specified through the ensures of `Grids.AppendRows` |
| `Grids.AppendRows` | src/lib.rs:148-159 | one new row per element of `rss` is added after the existing ones, in order, each converted item by item. The four lengths are unchanged |
| `Grids.AppendRowsIsAppendEach` | src/lib.rs:148-159 | adding several rows at once equals adding them one at a time, first to last |
| `Grids.AppendRowsCons` | src/lib.rs:148-159 | adding several rows at once is adding the first row and then the rest |
| `Grids.IntoRowsCons` | src/lib.rs:154-157 | converting rows converts the first row and then the rest, in order |
| `Grids.IntoRowsConcat` | src/lib.rs:154-157 | converting two runs of rows one after the other is converting their concatenation |
| `Grids.AppendRowsConcat` | src/lib.rs:148-159 | adding rows `a` then rows `b` equals adding `a + b` |
| `Grids.SetCellWidth` | src/lib.rs:161-166 | sets the cell width; rows and the other three lengths are unchanged |
| `Grids.SetCellHeight` | src/lib.rs:168-173 | sets the cell height; rows and the other three lengths are unchanged |
| `Grids.SetGutter` | src/lib.rs:175-180 | sets the gutter; rows and the other three lengths are unchanged |
| `Grids.SetPadding` | src/lib.rs:182-187 | sets the padding; rows and the other three lengths are unchanged |
| `Grids.SettersLastWins` | src/lib.rs:161-187 | each setter keeps only the last value given; in particular setting one value twice is the same as setting it once |
| `Grids.RenderCell` | src/lib.rs:110-118 | no contract; calls one factory and wraps its content in a centred, cell width by cell height container styled by the cell's style for every theme. Specified through the ensures of `Grids.Render` (`IsCellLeaf`) |
| `Grids.RenderRow` | src/lib.rs:109-121 | no contract; one container per factory of the row, in order, spaced by the gutter. Specified through the ensures of `Grids.Render` (`IsGridRow`) and `Grids.RenderedRowCells` |
| `Grids.Render` | src/lib.rs:93-129 | the result is one padding container with uniform padding, and inside it one column spaced by the gutter with one child per grid row. Child `i` is a row spaced by the gutter with exactly one leaf per factory of `rows[i]`; ragged rows are neither padded nor rejected. Leaf `(i, j)` holds the content of what factory `rows[i][j]` produces and is cell width by cell height, centred on both axes. Its style closure returns that cell's style for every theme |
| `Grids.RenderReadingOrder` | src/lib.rs:107-124 | the leaves of the rendered grid, read row by row and left to right, are exactly the cells the factories produce in stored order, content and style, under every theme |
| `Grids.RenderedRowCells` | src/lib.rs:109-121 | the leaves of one rendered row are the cells its factories produce, in order |
| `Grids.RenderPaddedOnce` | src/lib.rs:107-127 | the rendered tree contains exactly one padding container, the outermost, and its padding is the grid's padding on every side |
| `Grids.RenderSpacedByGutter` | src/lib.rs:119-124 | every row and the column in the rendered tree have spacing equal to the gutter |
| `Grids.ProduceFlatten` | src/lib.rs:107-124 | producing the cells of rows added by the row appenders (src/lib.rs:154-157) and reading them row by row gives the cells of all their items joined, in the same order |
| `Grids.FlattenConcat` | src/lib.rs:107-124 | reading the cells of two runs of rows one after the other is reading the first run and then the second |
| `Grids.RenderShape` | src/lib.rs:107-127 | the layout of the rendered grid (sizes, alignment, spacing, padding and nesting, contents erased) is fixed by the row lengths and the four lengths alone |
| `Grids.RenderShapeIgnoresFactories` | src/lib.rs:107-127 | two renders give the same layout even when the factories produce different cells: grids with equal row lengths and equal lengths render to equal layouts, whatever the default style |
| `Grids.RenderDefault` | src/lib.rs:80-91 | a new grid renders to an empty column spaced and padded by the default length, with no leaves |
| `Grids.Grid.constructor` | src/lib.rs:131-136 | a new grid has no rows, and all four lengths are the default length (src/lib.rs:80-91) |
| `Grids.Grid.WithRow` | src/lib.rs:138-146 | updates the grid in place exactly as `AppendRow` does |
| `Grids.Grid.WithRows` | src/lib.rs:148-159 | extends the rows in place, one converted row per step, and ends as `AppendRows` does |
| `Grids.Grid.CellWidth` | src/lib.rs:161-166 | updates the grid in place exactly as `SetCellWidth` does |
| `Grids.Grid.CellHeight` | src/lib.rs:168-173 | updates the grid in place exactly as `SetCellHeight` does |
| `Grids.Grid.Gutter` | src/lib.rs:175-180 | updates the grid in place exactly as `SetGutter` does |
| `Grids.Grid.Padding` | src/lib.rs:182-187 | updates the grid in place exactly as `SetPadding` does |
| `Grids.Grid.ToElement` | src/lib.rs:93-129 | renders the grid's current state. It has no modifies clause, so rendering leaves the grid unchanged |
| `Calendar.Chunks` | src/bin/grid.rs:44-47 | splitting into chunks of `n`: the chunks joined give back the input, none is empty or longer than `n`, and all but the last are exactly `n` long |
| `Calendar.DayCell` | src/bin/grid.rs:23-41 | no contract; the day number with the default style, then the style set to white on red for today and black on white otherwise. Specified by `Calendar.DayItemCell` and `Calendar.CalendarCells` |
| `Calendar.HeaderItems` | src/bin/grid.rs:19 | no contract; the seven weekday names as plain elements. Specified by `Calendar.CalendarCells` (default-styled names) |
| `Calendar.DayItems` | src/bin/grid.rs:21-43 | no contract; one function factory per day 1 to 31. Specified by `Calendar.DayItemCell` and `Calendar.WeeksOfMonth` |
| `Calendar.CalendarState` | src/bin/grid.rs:18-51 | no contract; the builder calls of the demo as functions on the grid value. Specified by `Calendar.CalendarStateParts`, `Calendar.CalendarRows` and `Calendar.CalendarCells` |
| `Calendar.DayItemCell` | src/bin/grid.rs:22-42 | calling the factory of day `i + 1` yields that day's number, white on red when it is today and black on white otherwise |
| `Calendar.HeaderItemCells` | src/bin/grid.rs:19 | calling the header row's factories yields the seven weekday names, in order, with the default style |
| `Calendar.DayItemCells` | src/bin/grid.rs:21-43 | calling the 31 day factories in order yields the day cells 1 to 31, today white on red and the rest black on white |
| `Calendar.BuildCalendar` | src/bin/grid.rs:18-51 | the builder calls of the demo, in its order, leave the grid in `CalendarState` |
| `Calendar.WeeksOfMonth` | src/bin/grid.rs:21-47 | the days 1 to 31 in chunks of seven are four full weeks and a last week of three, entry `j` of week `k` being day `7k+j+1` |
| `Calendar.CalendarStateParts` | src/bin/grid.rs:18-51 | the calendar holds the header row followed by the weeks, with 50 by 50 cells, no gutter and padding 5 |
| `Calendar.CalendarRows` | src/bin/grid.rs:18-51 | the calendar has six rows of 7, 7, 7, 7, 7 and 3 cells |
| `Calendar.CalendarWeekCells` | src/bin/grid.rs:20-47 | cell `j` of week row `r` is the cell of day `7(r-1)+j+1` |
| `Calendar.CalendarCells` | src/bin/grid.rs:18-48 | the calendar's cells, row by row, are the seven weekday names with the default style, then the days 1 to 31, today white on red and the rest black on white |
| `Calendar.CalendarRendering` | src/bin/grid.rs:18-51 | the rendered calendar has the layout of six rows 7/7/7/7/7/3 and shows header then days in order; for a day of the month, exactly that day's leaf is white on red and every other day is black on white |
| `Calendar.DemoHighlightsTenth` | src/bin/grid.rs:17-41 | with today the tenth, the third leaf of the second week row shows day 10 white on red, whatever the theme |

## Left out

- The toolkit (`Element`, `Container`, `Row`, `Column`, `Theme`, `Renderer`, `StyleFn`, `container::Catalog`): it is a foreign library, so its layout and drawing are not modelled. The grid's use of it is modelled by the abstract `Nodes.Node` tree.
- `Pixels` is a 32-bit float and `padding.0` reads that float. Lengths are an opaque type that is only stored and forwarded, so no floating-point arithmetic is modelled.
- The `Into` conversions (`Into<Element>`, `Into<Style>`, `Into<Pixels>`) and the element's `Clone` are identities on values in the model.
- Content identity: in the source a factory builds a freshly owned element on every call. In the model a factory is a mathematical function, so two calls yield equal cells. `RenderShapeIgnoresFactories` states the layout part of the claim for arbitrary, differing factories.
- A factory function that panics aborts the render pass. Failure inside a factory is not modelled: every factory here is total.
- Lifetimes, `Box<dyn Fn>` and the generic message and renderer parameters `M` and `R`: these are ownership and trait plumbing with no behaviour.
- `Cell::style` takes the cell by value and returns it. Cells are values produced by factories, so it is the functional update `WithStyle`.
- Fluent builder calls take the grid by value and return it. The `Grid` class methods update the one object in place and return nothing; a chain becomes consecutive calls (as in `BuildCalendar`). `GridState` supplies the value semantics.
- The row appenders accept any iterator of items convertible into factories, and in the source one call uses a single item type. The model takes sequences of `Item`, which may mix plain elements and factories within one row.
- The demo's `run`, `update` and `view` (including centring the grid in the window) are application plumbing and are not modelled; `itertools` chunking is modelled by `Calendar.Chunks`.
