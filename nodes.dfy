/** The widget tree the grid renders into, as an abstract datatype.

    The rendering toolkit is not part of this model; of it the grid uses a
    fixed-size styled container around one element, a row and a column of
    widgets with uniform spacing, and a container that pads its one child.
    `P` is the toolkit's length type and `T` its theme type; both are opaque.
 */
module Nodes {
  import opened Cells

  /** How a container places its content along one axis. */
  datatype Alignment = Start | Center | End

  /** Padding on the four sides of a container. */
  datatype Insets<P> = Insets(top: P, right: P, bottom: P, left: P)

  /** The same padding on every side, as a single length converts to. */
  function Uniform<P>(p: P): Insets<P>
  {
    Insets(p, p, p, p)
  }

  datatype Node<E, S, P, !T> =
      /** A container of the given size around one element; its style is
          computed from the theme by `styleFn`. */
    | Leaf(content: E, width: P, height: P, alignX: Alignment, alignY: Alignment, styleFn: T -> S)
      /** Children laid out left to right, `spacing` apart. */
    | RowNode(children: seq<Node<E, S, P, T>>, spacing: P)
      /** Children laid out top to bottom, `spacing` apart. */
    | ColumnNode(children: seq<Node<E, S, P, T>>, spacing: P)
      /** A container that pads its child. */
    | Padded(child: Node<E, S, P, T>, padding: Insets<P>)

  /** The number of padding containers anywhere in a tree. */
  function PaddingCount<E, S, P, T>(n: Node<E, S, P, T>): nat
    decreases n
  {
    match n
    case Leaf(_, _, _, _, _, _) => 0
    case RowNode(cs, _) => PaddingCountAll(cs)
    case ColumnNode(cs, _) => PaddingCountAll(cs)
    case Padded(c, _) => 1 + PaddingCount(c)
  }

  function PaddingCountAll<E, S, P, T>(ns: seq<Node<E, S, P, T>>): nat
    decreases ns
  {
    if ns == [] then 0 else PaddingCount(ns[0]) + PaddingCountAll(ns[1..])
  }

  /** Every row and every column anywhere in the tree is spaced by `s`. */
  ghost predicate SpacedBy<E, S, P, T>(n: Node<E, S, P, T>, s: P)
    decreases n
  {
    match n
    case Leaf(_, _, _, _, _, _) => true
    case RowNode(cs, sp) => sp == s && forall i :: 0 <= i < |cs| ==> SpacedBy(cs[i], s)
    case ColumnNode(cs, sp) => sp == s && forall i :: 0 <= i < |cs| ==> SpacedBy(cs[i], s)
    case Padded(c, _) => SpacedBy(c, s)
  }

  /** The cells shown by the leaves of a tree under theme `theme`, in reading
      order: children first to last, depth first. */
  function LeafCells<E, S, P, T>(n: Node<E, S, P, T>, theme: T): seq<Cell<E, S>>
    decreases n
  {
    match n
    case Leaf(e, _, _, _, _, styleFn) => [Cell(e, styleFn(theme))]
    case RowNode(cs, _) => LeafCellsAll(cs, theme)
    case ColumnNode(cs, _) => LeafCellsAll(cs, theme)
    case Padded(c, _) => LeafCells(c, theme)
  }

  function LeafCellsAll<E, S, P, T>(ns: seq<Node<E, S, P, T>>, theme: T): seq<Cell<E, S>>
    decreases ns
  {
    if ns == [] then [] else LeafCells(ns[0], theme) + LeafCellsAll(ns[1..], theme)
  }

  /** The layout of a tree with its contents and styles erased: what it looks
      like before any element is drawn. */
  datatype Shape<P> =
    | BoxShape(width: P, height: P, alignX: Alignment, alignY: Alignment)
    | RowShape(children: seq<Shape<P>>, spacing: P)
    | ColumnShape(children: seq<Shape<P>>, spacing: P)
    | PaddedShape(child: Shape<P>, padding: Insets<P>)

  function ShapeOf<E, S, P, T>(n: Node<E, S, P, T>): Shape<P>
    decreases n
  {
    match n
    case Leaf(_, w, h, ax, ay, _) => BoxShape(w, h, ax, ay)
    case RowNode(cs, sp) => RowShape(seq(|cs|, i requires 0 <= i < |cs| => ShapeOf(cs[i])), sp)
    case ColumnNode(cs, sp) => ColumnShape(seq(|cs|, i requires 0 <= i < |cs| => ShapeOf(cs[i])), sp)
    case Padded(c, p) => PaddedShape(ShapeOf(c), p)
  }
}
