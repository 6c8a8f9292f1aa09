/** The month calendar the demo application builds with the grid: a header row
    of the seven weekday names, then the days 1 to 31 in weeks of seven, with
    the current day drawn white on red and every other day black on white.
    Content, style and lengths are concrete here; the toolkit's default style
    is the style with neither a background nor a text colour.
 */
module Calendar {
  import opened Cells
  import opened Nodes
  import opened Grids

  /** What a calendar cell shows: a weekday name or a day number. */
  datatype Label = Weekday(name: string) | DayNumber(day: nat)

  datatype Option<X> = None | Some(value: X)

  datatype Rgb = Rgb(red: nat, green: nat, blue: nat)

  /** The part of a container style the calendar sets. */
  datatype Look = Look(background: Option<Rgb>, textColor: Option<Rgb>)

  const DefaultLook: Look := Look(None, None)
  const TodayLook: Look := Look(Some(Rgb(255, 0, 0)), Some(Rgb(255, 255, 255)))
  const DayLook: Look := Look(Some(Rgb(255, 255, 255)), Some(Rgb(0, 0, 0)))

  const DaysPerWeek: nat := 7
  const DaysInMonth: nat := 31

  /** The day the demo highlights. */
  const Today: nat := 10

  const WeekdayNames: seq<string> := ["Sun", "Mon", "Tue", "Wed", "Thu", "Fri", "Sat"]

  /** Consecutive pieces of `s`, each `n` long except the last, which holds
      what is left; no piece is empty. */
  function Chunks<X>(s: seq<X>, n: nat): (r: seq<seq<X>>)
    requires n > 0
    ensures Flatten(r) == s
    ensures forall k :: 0 <= k < |r| ==> 0 < |r[k]| <= n
    ensures forall k :: 0 <= k < |r| - 1 ==> |r[k]| == n
    decreases |s|
  {
    if s == [] then []
    else if |s| <= n then [s]
    else
      var rest := Chunks(s[n..], n);
      assert ([s[..n]] + rest)[1..] == rest;
      [s[..n]] + rest
  }

  /** The cell of day `day`, built as the demo builds it: the day number with
      the default style, then the style set to one of the two day styles. */
  function DayCell(day: nat, today: nat): Cell<Label, Look>
  {
    WithStyle(CellFrom(DayNumber(day), DefaultLook), if day == today then TodayLook else DayLook)
  }

  function HeaderItems(): seq<Item<Label, Look>>
  {
    seq(|WeekdayNames|, j requires 0 <= j < |WeekdayNames| => Plain(Weekday(WeekdayNames[j])))
  }

  /** One function factory per day of the month: each call rebuilds the cell. */
  function DayItems(today: nat): seq<Item<Label, Look>>
  {
    seq(DaysInMonth, i requires 0 <= i => Made(FromFunction(() => DayCell(i + 1, today))))
  }

  /** The calendar grid: 50 by 50 cells, no gutter, padding 5. */
  function CalendarState(today: nat): GridState<Label, Look, nat>
  {
    var withRows := AppendRows(AppendRow(Default(0), HeaderItems()), Chunks(DayItems(today), DaysPerWeek));
    SetPadding(SetCellWidth(SetCellHeight(withRows, 50), 50), 5)
  }

  /** Building the calendar with the builder object. */
  method BuildCalendar(today: nat) returns (g: Grid<Label, Look, nat>)
    ensures fresh(g)
    ensures g.State() == CalendarState(today)
  {
    g := new Grid(0);
    g.WithRow(HeaderItems());
    g.WithRows(Chunks(DayItems(today), DaysPerWeek));
    g.CellHeight(50);
    g.CellWidth(50);
    g.Padding(5);
  }

  /** The header cells: the weekday names with the default style. */
  function HeaderCells(): seq<Cell<Label, Look>>
  {
    seq(|WeekdayNames|, j requires 0 <= j < |WeekdayNames| => Cell(Weekday(WeekdayNames[j]), DefaultLook))
  }

  /** The day cells: each day's number, white on red for `today` and black on
      white for every other day. */
  function DayCells(today: nat): seq<Cell<Label, Look>>
  {
    seq(DaysInMonth, i requires 0 <= i => Cell(DayNumber(i + 1), if i + 1 == today then TodayLook else DayLook))
  }

  /** The weeks of the month: four full weeks and a last week of three days,
      day `7 * k + j + 1` being entry `j` of week `k`. */
  lemma WeeksOfMonth(today: nat)
    ensures var days := DayItems(today);
            Chunks(days, DaysPerWeek) == [days[..7], days[7..14], days[14..21], days[21..28], days[28..]]
    ensures forall k, j :: 0 <= k < 5 && 0 <= j < |Chunks(DayItems(today), DaysPerWeek)[k]| ==>
              Chunks(DayItems(today), DaysPerWeek)[k][j] == DayItems(today)[7 * k + j]
  {
    var days := DayItems(today);
    var s1, s2, s3, s4 := days[7..], days[14..], days[21..], days[28..];
    assert s1[7..] == s2 && s2[7..] == s3 && s3[7..] == s4;
    assert Chunks(s4, 7) == [s4];
    assert Chunks(s3, 7) == [s3[..7], s4];
    assert Chunks(s2, 7) == [s2[..7], s3[..7], s4];
    assert Chunks(s1, 7) == [s1[..7], s2[..7], s3[..7], s4];
    assert s1[..7] == days[7..14] && s2[..7] == days[14..21] && s3[..7] == days[21..28];
  }

  /** The calendar holds the header row followed by the weeks, and its
      lengths are 50 by 50 cells, no gutter and padding 5. */
  lemma CalendarStateParts(today: nat)
    ensures CalendarState(today).rows == [IntoFactories(HeaderItems())] + IntoRows(Chunks(DayItems(today), DaysPerWeek))
    ensures CalendarState(today).cellWidth == 50 && CalendarState(today).cellHeight == 50
    ensures CalendarState(today).gutter == 0 && CalendarState(today).padding == 5
  {
    var header := AppendRow(Default<Label, Look, nat>(0), HeaderItems());
    assert header.rows == [IntoFactories(HeaderItems())];
  }

  /** The calendar has six rows: a header of seven, four full weeks and a
      last week of three days. */
  lemma CalendarRows(today: nat)
    ensures RowLengths(CalendarState(today).rows) == [7, 7, 7, 7, 7, 3]
  {
    CalendarStateParts(today);
    WeeksOfMonth(today);
  }

  /** Calling the factory of the `i`-th day yields that day's cell. */
  lemma DayItemCell(today: nat, i: nat)
    requires i < DaysInMonth
    ensures Produce(IntoFactory(DayItems(today)[i]), DefaultLook) == DayCells(today)[i]
  {
  }

  /** Cell `j` of week row `r` is day `7 * (r - 1) + j + 1`. */
  lemma CalendarWeekCells(today: nat)
    ensures |CalendarState(today).rows| == 6
    ensures forall r, j :: 1 <= r < 6 && 0 <= j < |CalendarState(today).rows[r]| ==>
              7 * (r - 1) + j < DaysInMonth &&
              Produce(CalendarState(today).rows[r][j], DefaultLook) == DayCells(today)[7 * (r - 1) + j]
  {
    var g := CalendarState(today);
    var chunks := Chunks(DayItems(today), DaysPerWeek);
    CalendarStateParts(today);
    WeeksOfMonth(today);
    forall r, j | 1 <= r < 6 && 0 <= j < |g.rows[r]|
      ensures 7 * (r - 1) + j < DaysInMonth
      ensures Produce(g.rows[r][j], DefaultLook) == DayCells(today)[7 * (r - 1) + j]
    {
      assert g.rows[r] == IntoFactories(chunks[r - 1]);
      assert g.rows[r][j] == IntoFactory(DayItems(today)[7 * (r - 1) + j]);
      DayItemCell(today, 7 * (r - 1) + j);
    }
  }

  /** The cells of the calendar, read row by row, are the seven weekday names
      with the default style followed by the days 1 to 31. */
  lemma CalendarCells(today: nat)
    ensures Flatten(ProduceRows(CalendarState(today).rows, DefaultLook)) == HeaderCells() + DayCells(today)
  {
    var g := CalendarState(today);
    var days := DayItems(today);
    var chunks := Chunks(days, DaysPerWeek);
    var headerRows := [IntoFactories(HeaderItems())];
    CalendarStateParts(today);
    ProduceFlatten(chunks, DefaultLook);
    ProduceFlatten([HeaderItems()], DefaultLook);
    assert IntoRows([HeaderItems()]) == headerRows;
    assert ProduceRows(g.rows, DefaultLook)
        == ProduceRows(headerRows, DefaultLook) + ProduceRows(IntoRows(chunks), DefaultLook);
    FlattenConcat(ProduceRows(headerRows, DefaultLook), ProduceRows(IntoRows(chunks), DefaultLook));
    assert Flatten([HeaderItems()]) == HeaderItems();
    HeaderItemCells();
    DayItemCells(today);
  }

  /** Calling the header's factories yields the weekday names with the default style. */
  lemma HeaderItemCells()
    ensures ProduceRow(IntoFactories(HeaderItems()), DefaultLook) == HeaderCells()
  {
  }

  /** Calling the days' factories yields the day cells, in order. */
  lemma DayItemCells(today: nat)
    ensures ProduceRow(IntoFactories(DayItems(today)), DefaultLook) == DayCells(today)
  {
    forall i | 0 <= i < DaysInMonth
      ensures ProduceRow(IntoFactories(DayItems(today)), DefaultLook)[i] == DayCells(today)[i]
    {
      DayItemCell(today, i);
    }
  }

  /** The rendered calendar: six rows of 50 by 50 cells with no gutter inside
      padding 5, showing the weekday names and then the days 1 to 31 in order;
      for a day of the month, exactly the leaf of that day is white on red. */
  lemma CalendarRendering<T(!new)>(today: nat, theme: T)
    ensures ShapeOf(Render<Label, Look, nat, T>(CalendarState(today), DefaultLook))
         == GridShape<nat>([7, 7, 7, 7, 7, 3], 50, 50, 0, 5)
    ensures LeafCells(Render<Label, Look, nat, T>(CalendarState(today), DefaultLook), theme)
         == HeaderCells() + DayCells(today)
    ensures 1 <= today <= DaysInMonth ==>
              forall k :: 0 <= k < |HeaderCells() + DayCells(today)| ==>
                ((HeaderCells() + DayCells(today))[k].style == TodayLook <==> k == |WeekdayNames| + today - 1)
  {
    CalendarRows(today);
    CalendarStateParts(today);
    CalendarCells(today);
    RenderShape<Label, Look, nat, T>(CalendarState(today), DefaultLook);
    RenderReadingOrder<Label, Look, nat, T>(CalendarState(today), DefaultLook, theme);
  }

  /** In the demo, today is the tenth: the third cell of the third row (the
      second week) shows day 10 white on red, whatever the theme. */
  lemma DemoHighlightsTenth<T(!new)>(theme: T)
    ensures var n := Render<Label, Look, nat, T>(CalendarState(Today), DefaultLook);
            && n.child.children[2].children[2].content == DayNumber(10)
            && n.child.children[2].children[2].styleFn(theme) == TodayLook
  {
    var g := CalendarState(Today);
    CalendarRows(Today);
    CalendarWeekCells(Today);
    assert |g.rows[2]| == RowLengths(g.rows)[2];
    var n := Render<Label, Look, nat, T>(g, DefaultLook);
    assert IsGridRow(n.child.children[2], g.rows[2], g, DefaultLook);
    assert Produce(g.rows[2][2], DefaultLook) == DayCells(Today)[9];
  }
}
