/** Cells and cell factories of the grid.

    A cell pairs one piece of content with one style. A factory is a deferred
    producer of a cell; the grid calls it once per render pass. Content `E` and
    style `S` are opaque: the grid only stores and forwards them. The toolkit's
    default style has no counterpart for an opaque type, so every operation that
    uses it takes it as the parameter `defaultStyle`.
 */
module Cells {

  /** A grid cell: the element shown in it and the style of its container. */
  datatype Cell<E, S> = Cell(content: E, style: S)

  /** Converting an element into a cell: the element with the default style. */
  function CellFrom<E, S>(element: E, defaultStyle: S): Cell<E, S>
  {
    Cell(element, defaultStyle)
  }

  /** Setting the style of a cell: the style is replaced as a whole and the
      content is kept. */
  function WithStyle<E, S>(c: Cell<E, S>, style: S): (r: Cell<E, S>)
    ensures r.content == c.content && r.style == style
  {
    c.(style := style)
  }

  /** Setting a style twice keeps only the second one (no merge of styles), and
      setting the style a cell already has changes nothing. */
  lemma WithStyleLastWins<E, S>(c: Cell<E, S>, s1: S, s2: S)
    ensures WithStyle(WithStyle(c, s1), s2) == WithStyle(c, s2)
    ensures WithStyle(c, c.style) == c
  {
  }

  /** A deferred producer of a cell, one variant per way the source builds one. */
  datatype Factory<E, S> =
    | FromElement(element: E)                    // clones the element, default style
    | FromElementAndStyle(element: E, style: S)  // clones the element, fixed style
    | FromFunction(make: () -> Cell<E, S>)       // any zero-argument function

  /** Calling a factory once. */
  function Produce<E, S>(f: Factory<E, S>, defaultStyle: S): Cell<E, S>
  {
    match f
    case FromElement(e) => CellFrom(e, defaultStyle)
    case FromElementAndStyle(e, s) => Cell(e, s)
    case FromFunction(make) => make()
  }

  /** What every call of a factory yields: the stored element with the default
      style, the stored element with exactly the stored style, or whatever the
      wrapped function returns. The first two do not depend on anything but the
      factory, so every call of them yields the same cell. */
  lemma ProduceStyles<E, S>(f: Factory<E, S>, defaultStyle: S)
    ensures f.FromElement? ==>
              Produce(f, defaultStyle).content == f.element && Produce(f, defaultStyle).style == defaultStyle
    ensures f.FromElementAndStyle? ==>
              Produce(f, defaultStyle).content == f.element && Produce(f, defaultStyle).style == f.style
    ensures f.FromFunction? ==> Produce(f, defaultStyle) == f.make()
    ensures !f.FromFunction? ==> forall d :: Produce(f, d).content == Produce(f, defaultStyle).content
  {
  }

  /** The two element factories are special cases of the function factory: a
      function that converts the element into a cell, and one that then sets
      the style. */
  lemma ElementFactoriesAreFunctions<E, S>(e: E, s: S, defaultStyle: S)
    ensures Produce(FromElement(e), defaultStyle)
         == Produce(FromFunction(() => CellFrom(e, defaultStyle)), defaultStyle)
    ensures Produce(FromElementAndStyle(e, s), defaultStyle)
         == Produce(FromFunction(() => WithStyle(CellFrom(e, defaultStyle), s)), defaultStyle)
  {
  }

  /** An item handed to the row appenders: anything convertible into a factory.
      A plain element converts through the element factory; a factory converts
      into itself. */
  datatype Item<E, S> = Plain(element: E) | Made(factory: Factory<E, S>)

  /** The conversion of one item into a factory. */
  function IntoFactory<E, S>(item: Item<E, S>): Factory<E, S>
  {
    match item
    case Plain(e) => FromElement(e)
    case Made(f) => f
  }

  /** Converting a plain element into a factory yields the default style and
      the element on every call. */
  lemma PlainItemDefaultStyle<E, S>(e: E, defaultStyle: S)
    ensures Produce(IntoFactory(Plain(e)), defaultStyle) == CellFrom(e, defaultStyle)
  {
  }

  /** The item-by-item conversion of one row, in iteration order. */
  function IntoFactories<E, S>(items: seq<Item<E, S>>): seq<Factory<E, S>>
  {
    seq(|items|, j requires 0 <= j < |items| => IntoFactory(items[j]))
  }
}
