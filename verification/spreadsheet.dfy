/** The spreadsheet lookalike: an 8 by 5 sheet of strings with a parallel
    sheet of cell formats, one cell edited at a time, a formatting toolbar
    for the cell being edited, and columns resized by dragging. */
module Spreadsheet {
  import opened Options
  import Content

  const Rows: int := 8
  const Cols: int := 5

  /** The width of the row-number column, left of column A. */
  const RowHeaderWidth: int := 40

  /** The narrowest a dragged column can be made. */
  const MinWidth: int := 60

  /** The formatting of one cell. */
  datatype Format = Format(bold: bool, italic: bool, underline: bool, align: string, color: string, background: string)

  /** The three flags the toolbar toggles. */
  datatype Flag = Bold | Italic | Underline

  /** The toolbar state `formatOptions`: which buttons show as pressed. */
  datatype Toolbar = Toolbar(bold: bool, italic: bool, underline: bool)

  // ---------------------------------------------------------------------
  // The first sheet

  predicate InRange(r: int, c: int) {
    0 <= r < Rows && 0 <= c < Cols
  }

  /** The text of each cell at start: title row, tagline row, an empty row,
      the four numbered sections and the call to action. */
  function InitialCell(r: int, c: int): string
    requires InRange(r, c)
  {
    if r == 0 then (if c == 0 then Content.Title else if c == 1 then Content.Subtitle else "")
    else if r == 1 then (if c == 0 then Content.Tagline else "")
    else if r == 2 then ""
    else if r < 7 then
      var s := if r == 3 then Content.Section1 else if r == 4 then Content.Section2
               else if r == 5 then Content.Section3 else Content.Section4;
      if c == 0 then s.step else if c == 1 then s.title else if c == 2 then s.description else ""
    else if c == 0 then Content.Cta else ""
  }

  /** The format every cell starts from. */
  const Plain: Format := Format(false, false, false, "left", "", "")

  /** The cells the start-up code makes bold, in the order it does so; the
      call to action (7, 0) is handled on its own. */
  const BoldCells: seq<(int, int)> := [(0, 0), (3, 0), (4, 0), (5, 0), (6, 0), (3, 1), (4, 1), (5, 1), (6, 1)]

  /** The format of each cell at start. */
  function InitialFormat(r: int, c: int): Format {
    if (r, c) == (7, 0) then Plain.(bold := true, background := "#3b82f6", color := "white")
    else if (r, c) in BoldCells then Plain.(bold := true)
    else Plain
  }

  /** The column widths at start. */
  const InitialWidths: seq<int> := [80, 200, 400, 120, 120]

  // ---------------------------------------------------------------------
  // Formats and the toolbar

  function Get(f: Format, flag: Flag): bool {
    match flag
    case Bold => f.bold
    case Italic => f.italic
    case Underline => f.underline
  }

  /** `{ ...f, [flag]: !f[flag] }`. */
  function Flip(f: Format, flag: Flag): (g: Format)
    ensures Get(g, flag) == !Get(f, flag)
    ensures forall other :: other != flag ==> Get(g, other) == Get(f, other)
    ensures g.align == f.align && g.color == f.color && g.background == f.background
  {
    match flag
    case Bold => f.(bold := !f.bold)
    case Italic => f.(italic := !f.italic)
    case Underline => f.(underline := !f.underline)
  }

  /** The toolbar buttons for a cell's format. */
  function ToolbarOf(f: Format): Toolbar {
    Toolbar(f.bold, f.italic, f.underline)
  }

  function Pressed(t: Toolbar, flag: Flag): bool {
    match flag
    case Bold => t.bold
    case Italic => t.italic
    case Underline => t.underline
  }

  /** `{ ...prev, [flag]: !prev[flag] }` on the toolbar. */
  function Press(t: Toolbar, flag: Flag): (u: Toolbar)
    ensures Pressed(u, flag) == !Pressed(t, flag)
    ensures forall other :: other != flag ==> Pressed(u, other) == Pressed(t, other)
  {
    match flag
    case Bold => t.(bold := !t.bold)
    case Italic => t.(italic := !t.italic)
    case Underline => t.(underline := !t.underline)
  }

  // ---------------------------------------------------------------------
  // Moving with Tab

  /** A cell's position in row-major order. */
  function Index(r: int, c: int): int {
    Cols * r + c
  }

  /** The cell Tab opens after (r, c): the next one in the row, else the first
      of the next row, else none. */
  function NextCell(r: int, c: int): Option<(int, int)> {
    if c < Cols - 1 then Some((r, c + 1))
    else if r < Rows - 1 then Some((r + 1, 0))
    else None
  }

  // ---------------------------------------------------------------------
  // Column resizing

  /** The sum of the widths. */
  function Sum(ws: seq<int>): int {
    if ws == [] then 0 else Sum(ws[..|ws| - 1]) + ws[|ws| - 1]
  }

  /** Where column `i` starts: the row-number column and the columns to its left. */
  function ColumnStart(ws: seq<int>, i: int): int
    requires 0 <= i <= |ws|
  {
    RowHeaderWidth + Sum(ws[..i])
  }

  /** `Math.max(60, x - start)`. */
  function NewWidth(x: int, start: int): int {
    if x - start > MinWidth then x - start else MinWidth
  }

  /** The widths after dragging column `i` to pointer position `x`. */
  function Resized(ws: seq<int>, i: int, x: int): seq<int>
    requires 0 <= i < |ws|
  {
    ws[i := NewWidth(x, ColumnStart(ws, i))]
  }

  // ---------------------------------------------------------------------
  // The component

  /** A fresh copy of the first sheet's text. */
  method InitialSheet() returns (data: array2<string>)
    ensures fresh(data) && data.Length0 == Rows && data.Length1 == Cols
    ensures forall r, c :: InRange(r, c) ==> data[r, c] == InitialCell(r, c)
  {
    data := new string[Rows, Cols]((r, c) requires InRange(r, c) => InitialCell(r, c));
  }

  /** A fresh array of the starting column widths. */
  method InitialColumns() returns (widths: array<int>)
    ensures fresh(widths) && widths[..] == InitialWidths
    ensures forall k :: 0 <= k < widths.Length ==> widths[k] >= MinWidth
  {
    widths := new int[Cols](i requires 0 <= i < Cols => InitialWidths[i]);
    assert widths[..] == InitialWidths;
  }

  class Sheet {
    var data: array2<string>
    var formats: array2<Format>
    var widths: array<int>
    var activeCell: Option<(int, int)>
    var editValue: string
    var isEditing: bool
    var dragging: Option<int>
    var toolbar: Toolbar

    /** The sheet keeps its 8 by 5 shape and 5 columns no narrower than 60,
        and the active cell and the dragged column exist. */
    ghost predicate Valid()
      reads this, widths
    {
      && data.Length0 == Rows && data.Length1 == Cols
      && formats.Length0 == Rows && formats.Length1 == Cols
      && widths.Length == Cols
      && (forall k :: 0 <= k < Cols ==> widths[k] >= MinWidth)
      && (activeCell.Some? ==> InRange(activeCell.value.0, activeCell.value.1))
      && (dragging.Some? ==> 0 <= dragging.value < Cols)
    }

    constructor ()
      ensures Valid() && fresh(data) && fresh(formats) && fresh(widths)
      ensures forall r, c :: InRange(r, c) ==> data[r, c] == InitialCell(r, c) && formats[r, c] == InitialFormat(r, c)
      ensures widths[..] == InitialWidths
      ensures activeCell == None && editValue == "" && !isEditing && dragging == None
      ensures toolbar == Toolbar(false, false, false)
    {
      var d := InitialSheet();
      var w := InitialColumns();
      data := d;
      formats := new Format[Rows, Cols]((r, c) => InitialFormat(r, c));
      widths := w;
      activeCell := None;
      editValue := "";
      isEditing := false;
      dragging := None;
      toolbar := Toolbar(false, false, false);
    }

    /** A click on cell (row, col): it becomes the edited cell, its text goes
        into the editor and its flags into the toolbar. */
    method StartEditing(row: int, col: int)
      requires Valid() && InRange(row, col)
      modifies this
      ensures Valid()
      ensures activeCell == Some((row, col)) && editValue == data[row, col] && isEditing
      ensures toolbar == ToolbarOf(formats[row, col])
      ensures data == old(data) && formats == old(formats) && widths == old(widths) && dragging == old(dragging)
    {
      activeCell := Some((row, col));
      editValue := data[row, col];
      isEditing := true;
      if row < formats.Length0 && col < formats.Length1 {
        toolbar := ToolbarOf(formats[row, col]);
      }
    }

    /** Typing in the cell editor. */
    method EditInput(value: string)
      modifies this
      ensures editValue == value
      ensures data == old(data) && formats == old(formats) && widths == old(widths)
      ensures activeCell == old(activeCell) && isEditing == old(isEditing)
      ensures dragging == old(dragging) && toolbar == old(toolbar)
    {
      editValue := value;
    }

    /** Commits the editor's text into the active cell, and only that cell,
        and closes the editor. */
    method FinishEditing()
      requires Valid()
      modifies this, data
      ensures Valid()
      ensures data == old(data) && formats == old(formats) && widths == old(widths)
      ensures old(activeCell).Some? ==>
        var (r, c) := old(activeCell).value;
        data[r, c] == old(editValue)
        && forall i, j :: InRange(i, j) && (i, j) != (r, c) ==> data[i, j] == old(data[i, j])
      ensures old(activeCell).None? ==> forall i, j :: InRange(i, j) ==> data[i, j] == old(data[i, j])
      ensures activeCell == None && !isEditing
      ensures editValue == old(editValue) && dragging == old(dragging) && toolbar == old(toolbar)
    {
      if activeCell.Some? {
        var (row, col) := activeCell.value;
        data[row, col] := editValue;
      }
      isEditing := false;
      activeCell := None;
    }

    /** The editor's key handler: Enter commits, Escape abandons, Tab commits
        and opens the next cell in row-major order (none after the last). */
    method HandleKeyDown(key: string)
      requires Valid()
      modifies this, data
      ensures Valid()
      ensures data == old(data) && formats == old(formats) && widths == old(widths) && dragging == old(dragging)
      ensures key == "Escape" ==>
        activeCell == None && !isEditing && editValue == old(editValue) && toolbar == old(toolbar)
        && forall i, j :: InRange(i, j) ==> data[i, j] == old(data[i, j])
      ensures key == "Enter" || key == "Tab" ==>
        old(activeCell).Some? ==>
          var (r, c) := old(activeCell).value;
          data[r, c] == old(editValue)
          && forall i, j :: InRange(i, j) && (i, j) != (r, c) ==> data[i, j] == old(data[i, j])
      ensures key == "Enter" || key == "Tab" ==>
        old(activeCell).None? ==> forall i, j :: InRange(i, j) ==> data[i, j] == old(data[i, j])
      ensures key == "Enter" ==> activeCell == None && !isEditing && editValue == old(editValue) && toolbar == old(toolbar)
      ensures key == "Tab" ==>
        var next := if old(activeCell).Some? then NextCell(old(activeCell).value.0, old(activeCell).value.1) else None;
        if next.Some? then
          activeCell == next && isEditing
          && editValue == data[next.value.0, next.value.1]
          && toolbar == ToolbarOf(formats[next.value.0, next.value.1])
        else
          activeCell == None && !isEditing && editValue == old(editValue) && toolbar == old(toolbar)
      ensures key !in {"Enter", "Escape", "Tab"} ==>
        activeCell == old(activeCell) && isEditing == old(isEditing) && editValue == old(editValue)
        && toolbar == old(toolbar) && forall i, j :: InRange(i, j) ==> data[i, j] == old(data[i, j])
    {
      if key == "Enter" {
        FinishEditing();
      } else if key == "Escape" {
        isEditing := false;
        activeCell := None;
      } else if key == "Tab" {
        var captured := activeCell;
        FinishEditing();
        if captured.Some? {
          var (row, col) := captured.value;
          if col < data.Length1 - 1 {
            StartEditing(row, col + 1);
          } else if row < data.Length0 - 1 {
            StartEditing(row + 1, 0);
          }
        }
      }
    }

    /** A toolbar button: flips that flag of the active cell's format, and
        only that flag of that cell, and the button with it. */
    method ToggleFormat(flag: Flag)
      requires Valid()
      modifies this, formats
      ensures Valid()
      ensures data == old(data) && formats == old(formats) && widths == old(widths)
      ensures activeCell == old(activeCell) && editValue == old(editValue)
      ensures isEditing == old(isEditing) && dragging == old(dragging)
      ensures activeCell.Some? ==>
        var (r, c) := activeCell.value;
        formats[r, c] == Flip(old(formats[r, c]), flag)
        && (forall i, j :: InRange(i, j) && (i, j) != (r, c) ==> formats[i, j] == old(formats[i, j]))
        && toolbar == Press(old(toolbar), flag)
      ensures activeCell.None? ==>
        toolbar == old(toolbar) && forall i, j :: InRange(i, j) ==> formats[i, j] == old(formats[i, j])
    {
      if activeCell.Some? {
        var (row, col) := activeCell.value;
        formats[row, col] := Flip(formats[row, col], flag);
        toolbar := Press(toolbar, flag);
      }
    }

    /** Mouse down on the resize handle of column `index`. */
    method StartResize(index: int)
      requires Valid() && 0 <= index < Cols
      modifies this
      ensures Valid()
      ensures dragging == Some(index)
      ensures data == old(data) && formats == old(formats) && widths == old(widths)
      ensures activeCell == old(activeCell) && editValue == old(editValue)
      ensures isEditing == old(isEditing) && toolbar == old(toolbar)
    {
      dragging := Some(index);
    }

    /** Where the dragged column starts: the loop of the mouse-move handler. */
    method ColumnLeft(index: int) returns (left: int)
      requires 0 <= index <= widths.Length
      ensures left == ColumnStart(widths[..], index)
    {
      left := RowHeaderWidth;
      var i := 0;
      while i < index
        invariant 0 <= i <= index
        invariant left == RowHeaderWidth + Sum(widths[..i])
      {
        assert widths[..i + 1][..i] == widths[..i];
        left := left + widths[i];
        i := i + 1;
      }
    }

    /** The pointer moved to `x` (relative to the sheet's left edge) while a
        column is dragged: that column's width becomes max(60, x - its start). */
    method HandleMouseMove(x: int)
      requires Valid()
      modifies widths
      ensures Valid()
      ensures dragging.Some? ==> widths[..] == Resized(old(widths[..]), dragging.value, x)
      ensures dragging.None? ==> widths[..] == old(widths[..])
    {
      if dragging.Some? {
        var index := dragging.value;
        var left := ColumnLeft(index);
        widths[index] := NewWidth(x, left);
      }
    }

    /** Mouse up ends the drag. */
    method HandleMouseUp()
      requires Valid()
      modifies this
      ensures Valid()
      ensures dragging == None
      ensures data == old(data) && formats == old(formats) && widths == old(widths)
      ensures activeCell == old(activeCell) && editValue == old(editValue)
      ensures isEditing == old(isEditing) && toolbar == old(toolbar)
    {
      dragging := None;
    }
  }

  // ---------------------------------------------------------------------
  // Properties

  /** The first sheet opens with the product copy in place. */
  lemma InitialCells()
    ensures InitialCell(0, 0) == Content.Title && InitialCell(0, 1) == Content.Subtitle
    ensures InitialCell(1, 0) == Content.Tagline && InitialCell(7, 0) == Content.Cta
    ensures forall r, c :: 3 <= r < 7 && c == 0 ==> |InitialCell(r, c)| == 2
    ensures forall c :: 0 <= c < Cols ==> InitialCell(2, c) == ""
  {
  }

  /** The bold cells at start are the title cell, the number and the title of
      each section, and the call to action, which alone is coloured. */
  lemma InitialBold(r: int, c: int)
    ensures InitialFormat(r, c).bold <==> (r, c) == (0, 0) || (3 <= r <= 6 && 0 <= c <= 1) || (r, c) == (7, 0)
    ensures InitialFormat(r, c).background != "" <==> (r, c) == (7, 0)
    ensures !InitialFormat(r, c).italic && !InitialFormat(r, c).underline && InitialFormat(r, c).align == "left"
  {
    if 3 <= r <= 6 && 0 <= c <= 1 {
      assert BoldCells[r - 2 + 4 * c] == (r, c) by {
        if c == 0 { assert BoldCells[r - 2] == (r, 0); }
      }
    }
  }

  /** Flipping a flag twice restores the format. */
  lemma FlipTwice(f: Format, flag: Flag)
    ensures Flip(Flip(f, flag), flag) == f
  {
  }

  /** The toolbar keeps mirroring the cell: flipping a flag of the cell and
      pressing that button agree. */
  lemma FlipMirrors(f: Format, flag: Flag)
    ensures ToolbarOf(Flip(f, flag)) == Press(ToolbarOf(f), flag)
  {
  }

  /** Tab moves exactly one cell on in row-major order, and stops only after
      the last cell (7, 4). */
  lemma NextCellOrder(r: int, c: int)
    requires InRange(r, c)
    ensures NextCell(r, c).None? <==> (r, c) == (Rows - 1, Cols - 1)
    ensures NextCell(r, c).Some? ==>
      var (r', c') := NextCell(r, c).value;
      InRange(r', c') && Index(r', c') == Index(r, c) + 1
  {
  }

  /** The cell at a row-major position. */
  function CellAt(k: int): (p: (int, int))
    requires 0 <= k < Rows * Cols
    ensures InRange(p.0, p.1) && Index(p.0, p.1) == k
  {
    (k / Cols, k % Cols)
  }

  /** The cell `k` presses of Tab after opening (0, 0). */
  function TabWalk(k: nat): Option<(int, int)> {
    if k == 0 then Some((0, 0))
    else
      match TabWalk(k - 1)
      case Some((r, c)) => NextCell(r, c)
      case None => None
  }

  /** Tab from the first cell visits every cell once, in row-major order, and
      runs out after the 40th. */
  lemma {:induction false} TabWalkVisitsAll(k: nat)
    ensures k < Rows * Cols ==> TabWalk(k) == Some(CellAt(k))
    ensures k >= Rows * Cols ==> TabWalk(k) == None
  {
    if k > 0 {
      TabWalkVisitsAll(k - 1);
      if k - 1 < Rows * Cols {
        var (r, c) := CellAt(k - 1);
        NextCellOrder(r, c);
        if k < Rows * Cols {
          var (r', c') := NextCell(r, c).value;
          IndexInjective(r', c', CellAt(k).0, CellAt(k).1);
        }
      }
    }
  }

  lemma IndexInjective(r: int, c: int, r': int, c': int)
    requires InRange(r, c) && InRange(r', c') && Index(r, c) == Index(r', c')
    ensures r == r' && c == c'
  {
  }

  /** A resized column is never narrower than 60, and when the pointer is
      further right than that its right edge lands on the pointer. */
  lemma ResizeFollowsPointer(ws: seq<int>, i: int, x: int)
    requires 0 <= i < |ws|
    ensures Resized(ws, i, x)[i] >= MinWidth
    ensures x - ColumnStart(ws, i) >= MinWidth ==> ColumnStart(Resized(ws, i, x), i + 1) == x
    ensures forall k :: 0 <= k < |ws| && k != i ==> Resized(ws, i, x)[k] == ws[k]
  {
    var ws' := Resized(ws, i, x);
    assert ws'[..i + 1][..i] == ws'[..i] == ws[..i];
  }

  /** Resizing keeps every width at 60 or more. */
  lemma ResizeKeepsMinimum(ws: seq<int>, i: int, x: int)
    requires 0 <= i < |ws|
    requires forall k :: 0 <= k < |ws| ==> ws[k] >= MinWidth
    ensures forall k :: 0 <= k < |ws| ==> Resized(ws, i, x)[k] >= MinWidth
  {
  }

  /** Every column starts right of the one before it, by at least 60. */
  lemma ColumnStartsIncrease(ws: seq<int>, i: int)
    requires 0 <= i < |ws|
    requires forall k :: 0 <= k < |ws| ==> ws[k] >= MinWidth
    ensures ColumnStart(ws, i + 1) >= ColumnStart(ws, i) + MinWidth
  {
    assert ws[..i + 1][..i] == ws[..i];
  }
}
