/**
 * The widget's control vocabulary and the static HTML templates of
 * src/html_template.ts.
 *
 * The templates are modelled as data (a toolbar of buttons, a grid panel of
 * rows of cells) and rendered to the exact text the source spells out; the
 * SVG icon markup is a parameter (`icon`), since it is opaque decoration.
 */
module Template {
  import opened Text
  import opened Wrappers

  /** Every control the widget offers; the class name a button carries is the
      only link between the templates and the viewer's click dispatch. */
  datatype Action = CopyCode | Up | Down | Left | Right | ZoomIn | ZoomOut | Reset

  /** The CSS class naming each control in src/html_template.ts. */
  function ClassName(a: Action): (r: string)
    ensures r != [] && ' ' !in r
  {
    match a
    case CopyCode => "copy-code"
    case Up => "up"
    case Down => "down"
    case Left => "left"
    case Right => "right"
    case ZoomIn => "zoom-in"
    case ZoomOut => "zoom-out"
    case Reset => "reset"
  }

  /** Reads a class name back into the control it names. */
  function ParseClass(name: string): (r: Option<Action>)
    ensures r.Some? ==> ClassName(r.value) == name
  {
    if name == "copy-code" then Some(CopyCode)
    else if name == "up" then Some(Up)
    else if name == "down" then Some(Down)
    else if name == "left" then Some(Left)
    else if name == "right" then Some(Right)
    else if name == "zoom-in" then Some(ZoomIn)
    else if name == "zoom-out" then Some(ZoomOut)
    else if name == "reset" then Some(Reset)
    else None
  }

  /** Distinct controls carry distinct class names, so the class identifies the control. */
  lemma ClassNameRoundTrip(a: Action)
    ensures ParseClass(ClassName(a)) == Some(a)
  {
  }

  lemma ClassNameInjective(a: Action, b: Action)
    ensures ClassName(a) == ClassName(b) <==> a == b
  {
    ClassNameRoundTrip(a);
    ClassNameRoundTrip(b);
  }

  /** The accessible label of each control. */
  function AriaLabel(a: Action): string {
    match a
    case CopyCode => "Copy Code"
    case Up => "Pan up"
    case Down => "Pan down"
    case Left => "Pan left"
    case Right => "Pan right"
    case ZoomIn => "Zoom in"
    case ZoomOut => "Zoom out"
    case Reset => "Reset view"
  }

  datatype Button = Button(action: Action, title: Option<string>)

  datatype Cell = ButtonCell(button: Button) | EmptyCell

  /** The toolbar: one copy button whose title the viewer swaps to "Copied!". */
  const Toolbar: seq<Button> := [Button(CopyCode, Some("Copy Code"))]

  /** The directional pad: three rows of three cells. */
  const Grid: seq<seq<Cell>> := [
    [EmptyCell, Control(Up), Control(ZoomIn)],
    [Control(Left), Control(Reset), Control(Right)],
    [EmptyCell, Control(Down), Control(ZoomOut)]
  ]

  function Control(a: Action): Cell {
    ButtonCell(Button(a, None))
  }

  /** The buttons of the grid, row by row. */
  function GridButtons(rows: seq<seq<Cell>>): (r: seq<Button>)
    ensures |r| <= |Flatten(rows)|
  {
    if rows == [] then [] else RowButtons(rows[0]) + GridButtons(rows[1..])
  }

  function RowButtons(row: seq<Cell>): (r: seq<Button>)
    ensures |r| <= |row|
  {
    if row == [] then []
    else (if row[0].ButtonCell? then [row[0].button] else []) + RowButtons(row[1..])
  }

  function Flatten(rows: seq<seq<Cell>>): seq<Cell> {
    if rows == [] then [] else rows[0] + Flatten(rows[1..])
  }

  /** The toolbar holds exactly the copy button, titled "Copy Code". */
  lemma ToolbarShape()
    ensures |Toolbar| == 1
    ensures Toolbar[0].action == CopyCode && Toolbar[0].title == Some("Copy Code")
    ensures ClassName(Toolbar[0].action) == "copy-code"
  {
  }

  /** The grid is three rows of three; its seven buttons are the seven view
      controls, each exactly once, in reading order, with two empty cells. */
  lemma GridShape()
    ensures |Grid| == 3 && forall r :: 0 <= r < 3 ==> |Grid[r]| == 3
    ensures GridButtons(Grid) == GridOrder
    ensures var flat := Flatten(Grid);
      |flat| == 9 && forall i :: 0 <= i < 9 ==> (flat[i].EmptyCell? <==> i == 0 || i == 6)
    ensures forall a: Action :: a != CopyCode <==> Button(a, None) in GridButtons(Grid)
  {
    GridButtonsInOrder();
    assert Grid[1..][1..][1..] == [];
    assert Grid[1..][1..] == [Grid[2]];
    assert Grid[1..] == [Grid[1], Grid[2]];
    assert Flatten(Grid) == Grid[0] + Grid[1] + Grid[2];
  }

  /** The grid's buttons in reading order. */
  const GridOrder: seq<Button> := [
    Button(Up, None), Button(ZoomIn, None),
    Button(Left, None), Button(Reset, None), Button(Right, None),
    Button(Down, None), Button(ZoomOut, None)]

  lemma GridButtonsInOrder()
    ensures GridButtons(Grid) == GridOrder
  {
    var r0 := RowButtons(Grid[0]);
    assert r0 == [Button(Up, None), Button(ZoomIn, None)] by {
      assert Grid[0][1..][1..][1..] == [];
      assert Grid[0][1..][1..] == [Control(ZoomIn)];
      assert Grid[0][1..] == [Control(Up), Control(ZoomIn)];
    }
    var r1 := RowButtons(Grid[1]);
    assert r1 == [Button(Left, None), Button(Reset, None), Button(Right, None)] by {
      assert Grid[1][1..][1..][1..] == [];
      assert Grid[1][1..][1..] == [Control(Right)];
      assert Grid[1][1..] == [Control(Reset), Control(Right)];
    }
    var r2 := RowButtons(Grid[2]);
    assert r2 == [Button(Down, None), Button(ZoomOut, None)] by {
      assert Grid[2][1..][1..][1..] == [];
      assert Grid[2][1..][1..] == [Control(ZoomOut)];
      assert Grid[2][1..] == [Control(Down), Control(ZoomOut)];
    }
    assert Grid[1..][1..][1..] == [];
    assert Grid[1..][1..] == [Grid[2]];
    assert Grid[1..] == [Grid[1], Grid[2]];
    assert GridButtons(Grid) == r0 + r1 + r2;
  }

  /** `<button class="btn NAME" aria-label="LABEL"[ title="T"]>ICON</button>`. */
  function ButtonHtml(b: Button, icon: Action -> string): string {
    "<button class=\"" + ButtonAttributes(b) + icon(b.action) + "</button>"
  }

  /** The attributes of a button's opening tag, up to and including its `>`. */
  function ButtonAttributes(b: Button): string {
    ClassAttribute(b.action) + "\" aria-label=\"" + AriaLabel(b.action) + "\""
    + (if b.title.Some? then " title=\"" + b.title.value + "\"" else "")
    + ">"
  }

  /** The `class` attribute of a control's button. */
  function ClassAttribute(a: Action): string {
    "btn " + ClassName(a)
  }

  function CellHtml(c: Cell, icon: Action -> string): string {
    match c
    case ButtonCell(b) => ButtonHtml(b, icon)
    case EmptyCell => "<div class=\"empty-cell\"></div>"
  }

  /** `toolbarTemplate` of src/html_template.ts. */
  function ToolbarHtml(icon: Action -> string): string {
    "<div class=\"mermaid-toolbar\">\n      " + ButtonHtml(Toolbar[0], icon) + "\n    </div>"
  }

  function RowHtml(row: seq<Cell>, icon: Action -> string): string {
    if row == [] then ""
    else "          " + CellHtml(row[0], icon) + "\n" + RowHtml(row[1..], icon)
  }

  function RowsHtml(rows: seq<seq<Cell>>, icon: Action -> string): string {
    if rows == [] then ""
    else "        <div class=\"grid-row\">\n" + RowHtml(rows[0], icon) + "        </div>\n"
         + RowsHtml(rows[1..], icon)
  }

  /** `girdPanelTemplate` of src/html_template.ts. */
  function GridHtml(icon: Action -> string): string {
    GridOpen + RowsHtml(Grid, icon) + "      </div>"
  }

  const GridOpen: string := "<div class=" + "\"mermaid-viewer-grid-panel\">\n"

  /** The class list of an attribute whose words are separated by spaces:
      the words between runs of spaces. Browsers split on any ASCII
      whitespace; the templates use single spaces only, so spaces suffice. */
  function ClassList(attr: string): set<string>
    decreases |attr|
  {
    if attr == [] then {}
    else if attr[0] == ' ' then ClassList(attr[1..])
    else
      var w := TakeUntil(attr, ' ');
      {w} + ClassList(attr[|w|..])
  }

  lemma {:induction false} ClassListWord(w: string)
    requires w != [] && ' ' !in w
    ensures ClassList(w) == {w}
  {
    TakeUntilAll(w, ' ');
    assert w[|w|..] == [];
  }

  lemma {:induction false} TakeUntilAll(s: string, c: char)
    requires c !in s
    ensures TakeUntil(s, c) == s
  {
    if s != [] {
      TakeUntilAll(s[1..], c);
    }
  }

  /** A button's class attribute lists exactly `btn` and its control's class name. */
  lemma ClassAttributeList(a: Action)
    ensures ClassList(ClassAttribute(a)) == {"btn", ClassName(a)}
  {
    var attr := ClassAttribute(a);
    TakeUntilJoin("btn", " " + ClassName(a), ' ');
    assert attr == "btn" + (" " + ClassName(a));
    assert attr[3..] == " " + ClassName(a);
    assert attr[3..][1..] == ClassName(a);
    ClassListWord(ClassName(a));
  }

  /** No template opens a `<style` element, given icons that do not. */
  lemma ToolbarNoStyleTag(icon: Action -> string)
    requires forall a :: NoStyleTag(icon(a))
    ensures NoStyleTag(ToolbarHtml(icon))
  {
    ButtonNoStyleTag(Toolbar[0], icon);
    var b := ButtonHtml(Toolbar[0], icon);
    NoStyleTagJoin("<div class=\"mermaid-toolbar\">\n      ", b);
    NoStyleTagJoin("<div class=\"mermaid-toolbar\">\n      " + b, "\n    </div>");
  }

  lemma ButtonNoStyleTag(b: Button, icon: Action -> string)
    requires forall a :: NoStyleTag(icon(a))
    requires b.title.Some? ==> '<' !in b.title.value
    ensures NoStyleTag(ButtonHtml(b, icon)) && ButtonHtml(b, icon)[0] == '<'
  {
    var attrs := ButtonAttributes(b);
    AttributesNoAngle(b);
    NoStyleTagJoin("<button class=\"", attrs);
    assert attrs[|attrs| - 1] == '>';
    NoStyleTagSeam("<button class=\"", attrs, icon(b.action));
    NoStyleTagJoin("<button class=\"" + attrs + icon(b.action), "</button>");
  }

  lemma AttributesNoAngle(b: Button)
    requires b.title.Some? ==> '<' !in b.title.value
    ensures '<' !in ButtonAttributes(b)
  {
    LabelsNoAngle(b.action);
  }

  lemma LabelsNoAngle(a: Action)
    ensures '<' !in ClassAttribute(a) && '<' !in AriaLabel(a)
  {
    match a
    case CopyCode =>
    case Up =>
    case Down =>
    case Left =>
    case Right =>
    case ZoomIn =>
    case ZoomOut =>
    case Reset =>
  }

  lemma {:induction false} RowNoStyleTag(row: seq<Cell>, icon: Action -> string)
    requires forall a :: NoStyleTag(icon(a))
    requires forall k :: 0 <= k < |row| && row[k].ButtonCell? && row[k].button.title.Some? ==> '<' !in row[k].button.title.value
    ensures NoStyleTag(RowHtml(row, icon))
    ensures RowHtml(row, icon) == [] || RowHtml(row, icon)[0] == ' '
  {
    if row != [] {
      var c := CellHtml(row[0], icon);
      if row[0].ButtonCell? {
        ButtonNoStyleTag(row[0].button, icon);
      }
      RowNoStyleTag(row[1..], icon);
      LineNoStyleTag(c, RowHtml(row[1..], icon));
    }
  }

  lemma LineNoStyleTag(cell: string, rest: string)
    requires NoStyleTag(cell) && NoStyleTag(rest)
    ensures NoStyleTag("          " + cell + "\n" + rest)
  {
    NoStyleTagJoin("          ", cell);
    NoStyleTagJoin("          " + cell, "\n");
    NoStyleTagJoin("          " + cell + "\n", rest);
  }

  lemma {:induction false} RowsNoStyleTag(rows: seq<seq<Cell>>, icon: Action -> string)
    requires forall a :: NoStyleTag(icon(a))
    requires forall r, k :: 0 <= r < |rows| && 0 <= k < |rows[r]| && rows[r][k].ButtonCell? ==> rows[r][k].button.title == None
    ensures NoStyleTag(RowsHtml(rows, icon))
    ensures RowsHtml(rows, icon) == [] || RowsHtml(rows, icon)[0] == ' '
  {
    if rows != [] {
      var head := "        <div class=\"grid-row\">\n";
      RowNoStyleTag(rows[0], icon);
      RowsNoStyleTag(rows[1..], icon);
      var row := RowHtml(rows[0], icon);
      NoStyleTagJoin(head, row);
      NoStyleTagJoin(head + row, "        </div>\n");
      NoStyleTagJoin(head + row + "        </div>\n", RowsHtml(rows[1..], icon));
    }
  }

  lemma GridNoStyleTag(icon: Action -> string)
    requires forall a :: NoStyleTag(icon(a))
    ensures NoStyleTag(GridHtml(icon))
  {
    GridRowsNoStyleTag(icon);
    PanelNoStyleTag(RowsHtml(Grid, icon));
  }

  lemma PanelNoStyleTag(rows: string)
    requires NoStyleTag(rows)
    ensures NoStyleTag(GridOpen + rows + "      </div>")
  {
    NoStyleTagJoin("<div class=", "\"mermaid-viewer-grid-panel\">\n");
    NoStyleTagJoin(GridOpen, rows);
    NoStyleTagJoin(GridOpen + rows, "      </div>");
  }

  lemma GridRowsNoStyleTag(icon: Action -> string)
    requires forall a :: NoStyleTag(icon(a))
    ensures NoStyleTag(RowsHtml(Grid, icon))
  {
    GridUntitled();
    RowsNoStyleTag(Grid, icon);
  }

  /** Only the toolbar's button has a title. */
  lemma GridUntitled()
    ensures forall r, k :: 0 <= r < |Grid| && 0 <= k < |Grid[r]| && Grid[r][k].ButtonCell? ==> Grid[r][k].button.title == None
  {
  }
}
