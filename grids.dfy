/** The grid builder and its rendering.

    `GridState` is the value a grid holds: a ragged sequence of rows of cell
    factories and four lengths. The builder operations and the rendering are
    functions on it, with the properties the builder and the renderer promise
    proved as lemmas; the class `Grid` at the end is the builder object whose
    methods update its fields in place, each proved to move its state exactly
    as the matching function does.
 */
module Grids {
  import opened Cells
  import opened Nodes

  datatype GridState<E, S, P> = GridState(
    rows: seq<seq<Factory<E, S>>>,
    cellWidth: P,
    cellHeight: P,
    gutter: P,
    padding: P)

  /** The grid a new builder starts from: no rows, every length the toolkit's
      default length `zero`. */
  function Default<E, S, P>(zero: P): GridState<E, S, P>
  {
    GridState([], zero, zero, zero, zero)
  }

  /** The four lengths of `a` and `b` agree. */
  ghost predicate SameLengths<E, S, P>(a: GridState<E, S, P>, b: GridState<E, S, P>)
  {
    a.cellWidth == b.cellWidth && a.cellHeight == b.cellHeight && a.gutter == b.gutter && a.padding == b.padding
  }

  /** Each row converted item by item. */
  function IntoRows<E, S>(rss: seq<seq<Item<E, S>>>): seq<seq<Factory<E, S>>>
  {
    seq(|rss|, k requires 0 <= k < |rss| => IntoFactories(rss[k]))
  }

  // ---------------------------------------------------------------------------
  // Builder operations
  // ---------------------------------------------------------------------------

  /** Adding one row: it goes after every existing row and holds the items'
      factories in iteration order; nothing else changes. */
  function AppendRow<E, S, P>(g: GridState<E, S, P>, items: seq<Item<E, S>>): (r: GridState<E, S, P>)
    ensures |r.rows| == |g.rows| + 1 && r.rows[..|g.rows|] == g.rows
    ensures |r.rows[|g.rows|]| == |items|
    ensures forall j :: 0 <= j < |items| ==> r.rows[|g.rows|][j] == IntoFactory(items[j])
    ensures SameLengths(r, g)
  {
    g.(rows := g.rows + [IntoFactories(items)])
  }

  /** Adding several rows: `|rss|` new rows after the existing ones, in order,
      each converted item by item; nothing else changes. */
  function AppendRows<E, S, P>(g: GridState<E, S, P>, rss: seq<seq<Item<E, S>>>): (r: GridState<E, S, P>)
    ensures |r.rows| == |g.rows| + |rss| && r.rows[..|g.rows|] == g.rows
    ensures forall k :: 0 <= k < |rss| ==> |r.rows[|g.rows| + k]| == |rss[k]|
    ensures forall k, j :: 0 <= k < |rss| && 0 <= j < |rss[k]| ==>
              r.rows[|g.rows| + k][j] == IntoFactory(rss[k][j])
    ensures SameLengths(r, g)
  {
    g.(rows := g.rows + IntoRows(rss))
  }

  /** Adding the rows of `rss` one at a time, first to last. */
  function AppendEach<E, S, P>(g: GridState<E, S, P>, rss: seq<seq<Item<E, S>>>): GridState<E, S, P>
    decreases |rss|
  {
    if rss == [] then g else AppendEach(AppendRow(g, rss[0]), rss[1..])
  }

  /** Adding several rows at once is adding them one at a time. */
  lemma {:induction false} AppendRowsIsAppendEach<E, S, P>(g: GridState<E, S, P>, rss: seq<seq<Item<E, S>>>)
    ensures AppendRows(g, rss) == AppendEach(g, rss)
    decreases |rss|
  {
    if rss != [] {
      AppendRowsIsAppendEach(AppendRow(g, rss[0]), rss[1..]);
      AppendRowsCons(g, rss);
    }
  }

  /** Adding several rows at once is adding the first and then the rest. */
  lemma AppendRowsCons<E, S, P>(g: GridState<E, S, P>, rss: seq<seq<Item<E, S>>>)
    requires rss != []
    ensures AppendRows(g, rss) == AppendRows(AppendRow(g, rss[0]), rss[1..])
  {
    IntoRowsCons(rss);
    var x, rest := IntoFactories(rss[0]), IntoRows(rss[1..]);
    assert g.rows + ([x] + rest) == (g.rows + [x]) + rest;
  }

  /** Converting rows converts the first row and then the rest. */
  lemma IntoRowsCons<E, S>(rss: seq<seq<Item<E, S>>>)
    requires rss != []
    ensures IntoRows(rss) == [IntoFactories(rss[0])] + IntoRows(rss[1..])
  {
    assert IntoRows(rss)[1..] == IntoRows(rss[1..]);
  }

  /** Adding the rows of `a` and then those of `b` is adding the rows of `a + b`. */
  lemma AppendRowsConcat<E, S, P>(g: GridState<E, S, P>, a: seq<seq<Item<E, S>>>, b: seq<seq<Item<E, S>>>)
    ensures AppendRows(AppendRows(g, a), b) == AppendRows(g, a + b)
  {
    IntoRowsConcat(a, b);
    var ra, rb := IntoRows(a), IntoRows(b);
    assert (g.rows + ra) + rb == g.rows + (ra + rb);
  }

  /** Converting two runs of rows is converting each and concatenating. */
  lemma IntoRowsConcat<E, S>(a: seq<seq<Item<E, S>>>, b: seq<seq<Item<E, S>>>)
    ensures IntoRows(a + b) == IntoRows(a) + IntoRows(b)
  {
  }

  function SetCellWidth<E, S, P>(g: GridState<E, S, P>, v: P): (r: GridState<E, S, P>)
    ensures r.cellWidth == v
    ensures r.rows == g.rows && r.cellHeight == g.cellHeight && r.gutter == g.gutter && r.padding == g.padding
  {
    g.(cellWidth := v)
  }

  function SetCellHeight<E, S, P>(g: GridState<E, S, P>, v: P): (r: GridState<E, S, P>)
    ensures r.cellHeight == v
    ensures r.rows == g.rows && r.cellWidth == g.cellWidth && r.gutter == g.gutter && r.padding == g.padding
  {
    g.(cellHeight := v)
  }

  function SetGutter<E, S, P>(g: GridState<E, S, P>, v: P): (r: GridState<E, S, P>)
    ensures r.gutter == v
    ensures r.rows == g.rows && r.cellWidth == g.cellWidth && r.cellHeight == g.cellHeight && r.padding == g.padding
  {
    g.(gutter := v)
  }

  function SetPadding<E, S, P>(g: GridState<E, S, P>, v: P): (r: GridState<E, S, P>)
    ensures r.padding == v
    ensures r.rows == g.rows && r.cellWidth == g.cellWidth && r.cellHeight == g.cellHeight && r.gutter == g.gutter
  {
    g.(padding := v)
  }

  /** Each setter keeps only the last value it was given, so setting the same
      value twice is the same as setting it once. */
  lemma SettersLastWins<E, S, P>(g: GridState<E, S, P>, a: P, b: P)
    ensures SetCellWidth(SetCellWidth(g, a), b) == SetCellWidth(g, b)
    ensures SetCellHeight(SetCellHeight(g, a), b) == SetCellHeight(g, b)
    ensures SetGutter(SetGutter(g, a), b) == SetGutter(g, b)
    ensures SetPadding(SetPadding(g, a), b) == SetPadding(g, b)
  {
  }

  // ---------------------------------------------------------------------------
  // Rendering
  // ---------------------------------------------------------------------------

  /** `n` is the container a grid puts around cell `c`: `w` by `h`, the content
      centred on both axes, and the cell's style whatever the theme. */
  ghost predicate IsCellLeaf<E, S, P, T(!new)>(n: Node<E, S, P, T>, c: Cell<E, S>, w: P, h: P)
  {
    && n.Leaf? && n.content == c.content
    && n.width == w && n.height == h
    && n.alignX == Center && n.alignY == Center
    && forall theme: T :: n.styleFn(theme) == c.style
  }

  /** `n` is the rendering of grid row `row` of grid `g`: a row spaced by the
      gutter with one cell container per factory, each holding what that
      factory produced, in the row's order. */
  ghost predicate IsGridRow<E, S, P, T(!new)>(n: Node<E, S, P, T>, row: seq<Factory<E, S>>, g: GridState<E, S, P>, defaultStyle: S)
  {
    && n.RowNode? && n.spacing == g.gutter
    && |n.children| == |row|
    && forall j :: 0 <= j < |row| ==>
         IsCellLeaf(n.children[j], Produce(row[j], defaultStyle), g.cellWidth, g.cellHeight)
  }

  /** Calling one factory and wrapping its content in a centred, fixed-size,
      styled container. */
  function RenderCell<E, S, P, T(!new)>(f: Factory<E, S>, g: GridState<E, S, P>, defaultStyle: S): Node<E, S, P, T>
  {
    var c := Produce(f, defaultStyle);
    Leaf(c.content, g.cellWidth, g.cellHeight, Center, Center, (_: T) => c.style)
  }

  function RenderRow<E, S, P, T(!new)>(row: seq<Factory<E, S>>, g: GridState<E, S, P>, defaultStyle: S): Node<E, S, P, T>
  {
    RowNode(seq(|row|, j requires 0 <= j < |row| => RenderCell(row[j], g, defaultStyle)), g.gutter)
  }

  /** Converting a grid into a widget: one row per grid row, in order, inside
      one column spaced by the gutter, inside one padding container. Ragged
      rows stay ragged. */
  function Render<E, S, P, T(!new)>(g: GridState<E, S, P>, defaultStyle: S): (n: Node<E, S, P, T>)
    ensures n.Padded? && n.padding == Uniform(g.padding)
    ensures n.child.ColumnNode? && n.child.spacing == g.gutter
    ensures |n.child.children| == |g.rows|
    ensures forall i :: 0 <= i < |g.rows| ==> IsGridRow(n.child.children[i], g.rows[i], g, defaultStyle)
  {
    Padded(
      ColumnNode(seq(|g.rows|, i requires 0 <= i < |g.rows| => RenderRow(g.rows[i], g, defaultStyle)), g.gutter),
      Uniform(g.padding))
  }

  /** The cells of one row, produced in order. */
  function ProduceRow<E, S>(row: seq<Factory<E, S>>, defaultStyle: S): seq<Cell<E, S>>
  {
    seq(|row|, j requires 0 <= j < |row| => Produce(row[j], defaultStyle))
  }

  function ProduceRows<E, S>(rows: seq<seq<Factory<E, S>>>, defaultStyle: S): seq<seq<Cell<E, S>>>
  {
    seq(|rows|, i requires 0 <= i < |rows| => ProduceRow(rows[i], defaultStyle))
  }

  /** The rows of `css` joined end to end. */
  function Flatten<X>(css: seq<seq<X>>): seq<X>
    decreases |css|
  {
    if css == [] then [] else css[0] + Flatten(css[1..])
  }

  lemma {:induction false} FlattenSingletons<X>(xs: seq<X>)
    ensures Flatten(seq(|xs|, j requires 0 <= j < |xs| => [xs[j]])) == xs
    decreases |xs|
  {
    var ss := seq(|xs|, j requires 0 <= j < |xs| => [xs[j]]);
    if xs != [] {
      FlattenSingletons(xs[1..]);
      assert ss[1..] == seq(|xs[1..]|, j requires 0 <= j < |xs[1..]| => [xs[1..][j]]);
    }
  }

  /** Joining two runs of rows is joining each run and concatenating. */
  lemma {:induction false} FlattenConcat<X>(a: seq<seq<X>>, b: seq<seq<X>>)
    ensures Flatten(a + b) == Flatten(a) + Flatten(b)
    decreases |a|
  {
    if a == [] {
      assert a + b == b;
    } else {
      FlattenConcat(a[1..], b);
      assert (a + b)[1..] == a[1..] + b;
    }
  }

  /** Joining rows of items and then producing their cells gives the same
      cells, in the same order, as producing each converted row and joining. */
  lemma {:induction false} ProduceFlatten<E, S>(rss: seq<seq<Item<E, S>>>, defaultStyle: S)
    ensures Flatten(ProduceRows(IntoRows(rss), defaultStyle)) == ProduceRow(IntoFactories(Flatten(rss)), defaultStyle)
    decreases |rss|
  {
    if rss != [] {
      ProduceFlatten(rss[1..], defaultStyle);
      assert IntoRows(rss)[1..] == IntoRows(rss[1..]);
      assert ProduceRows(IntoRows(rss), defaultStyle)[1..] == ProduceRows(IntoRows(rss[1..]), defaultStyle);
      assert ProduceRow(IntoFactories(rss[0] + Flatten(rss[1..])), defaultStyle)
          == ProduceRow(IntoFactories(rss[0]), defaultStyle) + ProduceRow(IntoFactories(Flatten(rss[1..])), defaultStyle);
      assert ProduceRows(IntoRows(rss), defaultStyle)[0] == ProduceRow(IntoFactories(rss[0]), defaultStyle);
    }
  }

  /** The leaves of a sequence of trees, read in order, are the leaves of each
      tree joined end to end. */
  lemma {:induction false} LeafCellsAllFlatten<E, S, P, T(!new)>(ns: seq<Node<E, S, P, T>>, css: seq<seq<Cell<E, S>>>, theme: T)
    requires |ns| == |css|
    requires forall i :: 0 <= i < |ns| ==> LeafCells(ns[i], theme) == css[i]
    ensures LeafCellsAll(ns, theme) == Flatten(css)
    decreases |ns|
  {
    if ns != [] {
      LeafCellsAllFlatten(ns[1..], css[1..], theme);
    }
  }

  /** The leaves of a rendered row, read left to right, are the cells its
      factories produce, in order, under every theme. */
  lemma RenderedRowCells<E, S, P, T(!new)>(n: Node<E, S, P, T>, row: seq<Factory<E, S>>, g: GridState<E, S, P>, defaultStyle: S, theme: T)
    requires IsGridRow(n, row, g, defaultStyle)
    ensures LeafCells(n, theme) == ProduceRow(row, defaultStyle)
  {
    var cells := ProduceRow(row, defaultStyle);
    var singles := seq(|cells|, j requires 0 <= j < |cells| => [cells[j]]);
    forall j | 0 <= j < |n.children|
      ensures LeafCells(n.children[j], theme) == singles[j]
    {
      assert IsCellLeaf(n.children[j], Produce(row[j], defaultStyle), g.cellWidth, g.cellHeight);
    }
    LeafCellsAllFlatten(n.children, singles, theme);
    FlattenSingletons(cells);
  }

  /** Reading order: the leaves of the rendered grid, read row by row and left
      to right, are exactly the cells produced by calling the factories in
      stored order, with each cell's content and style, under every theme. */
  lemma RenderReadingOrder<E, S, P, T(!new)>(g: GridState<E, S, P>, defaultStyle: S, theme: T)
    ensures LeafCells(Render<E, S, P, T>(g, defaultStyle), theme) == Flatten(ProduceRows(g.rows, defaultStyle))
  {
    var n := Render<E, S, P, T>(g, defaultStyle);
    var css := ProduceRows(g.rows, defaultStyle);
    forall i | 0 <= i < |g.rows|
      ensures LeafCells(n.child.children[i], theme) == css[i]
    {
      RenderedRowCells(n.child.children[i], g.rows[i], g, defaultStyle, theme);
    }
    LeafCellsAllFlatten(n.child.children, css, theme);
  }

  lemma {:induction false} PaddingCountAllZero<E, S, P, T(!new)>(ns: seq<Node<E, S, P, T>>)
    requires forall i :: 0 <= i < |ns| ==> PaddingCount(ns[i]) == 0
    ensures PaddingCountAll(ns) == 0
    decreases |ns|
  {
    if ns != [] {
      PaddingCountAllZero(ns[1..]);
    }
  }

  /** The padding is applied exactly once, by the outermost container. */
  lemma RenderPaddedOnce<E, S, P, T(!new)>(g: GridState<E, S, P>, defaultStyle: S)
    ensures Render<E, S, P, T>(g, defaultStyle).padding == Uniform(g.padding)
    ensures PaddingCount(Render<E, S, P, T>(g, defaultStyle)) == 1
  {
    var n := Render<E, S, P, T>(g, defaultStyle);
    forall i | 0 <= i < |g.rows|
      ensures PaddingCount(n.child.children[i]) == 0
    {
      var r := n.child.children[i];
      assert IsGridRow(r, g.rows[i], g, defaultStyle);
      forall j | 0 <= j < |r.children|
        ensures PaddingCount(r.children[j]) == 0
      {
        assert IsCellLeaf(r.children[j], Produce(g.rows[i][j], defaultStyle), g.cellWidth, g.cellHeight);
      }
      PaddingCountAllZero(r.children);
    }
    PaddingCountAllZero(n.child.children);
  }

  /** The gutter spaces every row and the column alike. */
  lemma RenderSpacedByGutter<E, S, P, T(!new)>(g: GridState<E, S, P>, defaultStyle: S)
    ensures SpacedBy(Render<E, S, P, T>(g, defaultStyle), g.gutter)
  {
    var n := Render<E, S, P, T>(g, defaultStyle);
    forall i | 0 <= i < |g.rows|
      ensures SpacedBy(n.child.children[i], g.gutter)
    {
      var r := n.child.children[i];
      assert IsGridRow(r, g.rows[i], g, defaultStyle);
      forall j | 0 <= j < |r.children|
        ensures SpacedBy(r.children[j], g.gutter)
      {
        assert IsCellLeaf(r.children[j], Produce(g.rows[i][j], defaultStyle), g.cellWidth, g.cellHeight);
      }
    }
  }

  /** The number of factories in each row. */
  function RowLengths<E, S>(rows: seq<seq<Factory<E, S>>>): seq<nat>
  {
    seq(|rows|, i requires 0 <= i < |rows| => |rows[i]|)
  }

  /** The layout of a grid whose rows hold `lengths` cells. */
  function GridShape<P>(lengths: seq<nat>, w: P, h: P, gutter: P, padding: P): Shape<P>
  {
    PaddedShape(
      ColumnShape(
        seq(|lengths|, i requires 0 <= i < |lengths| =>
          RowShape(seq(lengths[i], _ => BoxShape(w, h, Center, Center)), gutter)),
        gutter),
      Uniform(padding))
  }

  /** The layout of a rendered grid depends on nothing but its row lengths and
      its four lengths. */
  lemma RenderShape<E, S, P, T(!new)>(g: GridState<E, S, P>, defaultStyle: S)
    ensures ShapeOf(Render<E, S, P, T>(g, defaultStyle))
         == GridShape(RowLengths(g.rows), g.cellWidth, g.cellHeight, g.gutter, g.padding)
  {
    var n := Render<E, S, P, T>(g, defaultStyle);
    var want := GridShape(RowLengths(g.rows), g.cellWidth, g.cellHeight, g.gutter, g.padding);
    var rowShapes := seq(|g.rows|, i requires 0 <= i < |g.rows| => ShapeOf(n.child.children[i]));
    var col := n.child;
    assert ShapeOf(n) == PaddedShape(ShapeOf(col), Uniform(g.padding));
    assert ShapeOf(col) == ColumnShape(rowShapes, g.gutter);
    forall i | 0 <= i < |g.rows|
      ensures rowShapes[i] == want.child.children[i]
    {
      var r := n.child.children[i];
      assert IsGridRow(r, g.rows[i], g, defaultStyle);
      var boxes := seq(|r.children|, j requires 0 <= j < |r.children| => ShapeOf(r.children[j]));
      assert r == RowNode(r.children, g.gutter);
      assert ShapeOf(r) == RowShape(boxes, g.gutter);
      forall j | 0 <= j < |r.children|
        ensures boxes[j] == BoxShape(g.cellWidth, g.cellHeight, Center, Center)
      {
        assert IsCellLeaf(r.children[j], Produce(g.rows[i][j], defaultStyle), g.cellWidth, g.cellHeight);
      }
      assert boxes == want.child.children[i].children;
    }
    assert rowShapes == want.child.children;
  }

  /** Rendering twice gives the same layout, whatever the factories produce on
      each pass: two grids with the same row lengths and the same four
      lengths render to the same layout, even when their factories differ. */
  lemma RenderShapeIgnoresFactories<E, S, P, T(!new)>(g1: GridState<E, S, P>, g2: GridState<E, S, P>, d1: S, d2: S)
    requires RowLengths(g1.rows) == RowLengths(g2.rows)
    requires SameLengths(g1, g2)
    ensures ShapeOf(Render<E, S, P, T>(g1, d1)) == ShapeOf(Render<E, S, P, T>(g2, d2))
  {
    RenderShape<E, S, P, T>(g1, d1);
    RenderShape<E, S, P, T>(g2, d2);
  }

  /** A new grid renders to an empty column, spaced and padded by the default
      length. */
  lemma RenderDefault<E, S, P, T(!new)>(zero: P, defaultStyle: S, theme: T)
    ensures ShapeOf(Render<E, S, P, T>(Default(zero), defaultStyle)) == PaddedShape(ColumnShape([], zero), Uniform(zero))
    ensures LeafCells(Render<E, S, P, T>(Default(zero), defaultStyle), theme) == []
  {
    RenderShape<E, S, P, T>(Default(zero), defaultStyle);
    assert RowLengths(Default<E, S, P>(zero).rows) == [];
    assert GridShape([], zero, zero, zero, zero).child.children == [];
    RenderReadingOrder<E, S, P, T>(Default(zero), defaultStyle, theme);
    assert ProduceRows(Default<E, S, P>(zero).rows, defaultStyle) == [];
  }

  // ---------------------------------------------------------------------------
  // The builder object
  // ---------------------------------------------------------------------------

  /** A grid of cells. Each builder method updates this object in place. */
  class Grid<E, S, P> {
    var rows: seq<seq<Factory<E, S>>>
    var cellWidth: P
    var cellHeight: P
    var gutter: P
    var padding: P

    /** The value this grid holds. */
    function State(): GridState<E, S, P>
      reads this
    {
      GridState(rows, cellWidth, cellHeight, gutter, padding)
    }

    /** A new grid: no rows, and every length the toolkit's default `zero`. */
    constructor(zero: P)
      ensures State() == Default(zero)
      ensures rows == [] && cellWidth == zero && cellHeight == zero && gutter == zero && padding == zero
    {
      rows := [];
      cellWidth := zero;
      cellHeight := zero;
      gutter := zero;
      padding := zero;
    }

    method WithRow(items: seq<Item<E, S>>)
      modifies this
      ensures State() == AppendRow(old(State()), items)
    {
      rows := rows + [IntoFactories(items)];
    }

    method WithRows(rss: seq<seq<Item<E, S>>>)
      modifies this
      ensures State() == AppendRows(old(State()), rss)
    {
      var i := 0;
      while i < |rss|
        invariant 0 <= i <= |rss|
        invariant State() == AppendRows(old(State()), rss[..i])
      {
        assert IntoRows(rss[..i + 1]) == IntoRows(rss[..i]) + [IntoFactories(rss[i])];
        rows := rows + [IntoFactories(rss[i])];
        i := i + 1;
      }
      assert rss[..i] == rss;
    }

    method CellWidth(v: P)
      modifies this
      ensures State() == SetCellWidth(old(State()), v)
    {
      cellWidth := v;
    }

    method CellHeight(v: P)
      modifies this
      ensures State() == SetCellHeight(old(State()), v)
    {
      cellHeight := v;
    }

    method Gutter(v: P)
      modifies this
      ensures State() == SetGutter(old(State()), v)
    {
      gutter := v;
    }

    method Padding(v: P)
      modifies this
      ensures State() == SetPadding(old(State()), v)
    {
      padding := v;
    }

    /** Converting the grid into a widget. It only reads the grid. */
    method ToElement<T(!new)>(defaultStyle: S) returns (n: Node<E, S, P, T>)
      ensures n == Render(State(), defaultStyle)
    {
      n := Render(State(), defaultStyle);
    }
  }
}
