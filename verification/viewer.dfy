/**
 * The client-side viewer of assets/viewer.js: `initMermaidDiagram` looks up
 * the widget's elements, and then the grid panel's clicks, the toolbar's
 * clicks and the mouse drive a small pan/zoom state machine.
 *
 * Numbers are `real`, so `1.2` is exactly six fifths; the rounding of
 * JavaScript doubles is not modelled. The DOM is reduced to which elements
 * are present and to the class list of the button a click lands on.
 */
module Viewer {
  import opened Wrappers

  /** The state the source keeps in closure variables. `startX`, `startY`,
      `initTx` and `initTy` are undefined until the first mousedown; they are
      0 here and read only while dragging. */
  datatype View = View(
    scale: real, tx: real, ty: real,
    dragging: bool, startX: real, startY: real, initTx: real, initTy: real)

  const ZoomFactor: real := 1.2
  const MaxScale: real := 5.0
  const MinScale: real := 0.2
  const PanStep: real := 40.0

  const Initial: View := View(1.0, 0.0, 0.0, false, 0.0, 0.0, 0.0, 0.0)

  function Min(a: real, b: real): real { if a <= b then a else b }
  function Max(a: real, b: real): real { if a >= b then a else b }

  /** The grid panel's seven branches. */
  datatype Command = ZoomIn | ZoomOut | Reset | PanUp | PanDown | PanLeft | PanRight

  /** The branch a click on a button with class list `classes` takes: the
      first class checked, in the source's order, that the button carries. */
  function Dispatch(classes: set<string>): Option<Command> {
    if "zoom-in" in classes then Some(ZoomIn)
    else if "zoom-out" in classes then Some(ZoomOut)
    else if "reset" in classes then Some(Reset)
    else if "up" in classes then Some(PanUp)
    else if "down" in classes then Some(PanDown)
    else if "left" in classes then Some(PanLeft)
    else if "right" in classes then Some(PanRight)
    else None
  }

  /** The class each branch tests for, in the order the branches are tried. */
  const Branches: seq<(string, Command)> := [
    ("zoom-in", ZoomIn), ("zoom-out", ZoomOut), ("reset", Reset),
    ("up", PanUp), ("down", PanDown), ("left", PanLeft), ("right", PanRight)]

  /** The reference reading of an `if`/`else if` chain: the first entry of
      `branches` whose class the button carries. */
  function FirstMatch(branches: seq<(string, Command)>, classes: set<string>): Option<Command> {
    if branches == [] then None
    else if branches[0].0 in classes then Some(branches[0].1)
    else FirstMatch(branches[1..], classes)
  }

  /** What one grid command does to the view. */
  function Apply(cmd: Command, v: View): (r: View)
    ensures r.dragging == v.dragging && r.startX == v.startX && r.startY == v.startY
    ensures r.initTx == v.initTx && r.initTy == v.initTy
    ensures (cmd == ZoomIn || cmd == ZoomOut) ==> r.tx == v.tx && r.ty == v.ty
    ensures (cmd == PanUp || cmd == PanDown) ==> r.scale == v.scale && r.tx == v.tx
    ensures (cmd == PanLeft || cmd == PanRight) ==> r.scale == v.scale && r.ty == v.ty
    ensures cmd == ZoomIn ==> r.scale <= MaxScale && (r.scale == MaxScale || r.scale > v.scale || v.scale <= 0.0)
    ensures cmd == ZoomOut ==> r.scale >= MinScale && (r.scale == MinScale || r.scale < v.scale || v.scale <= 0.0)
  {
    match cmd
    case ZoomIn => v.(scale := Min(v.scale * ZoomFactor, MaxScale))
    case ZoomOut => v.(scale := Max(v.scale / ZoomFactor, MinScale))
    case Reset => v.(scale := 1.0, tx := 0.0, ty := 0.0)
    case PanUp => v.(ty := v.ty + PanStep)
    case PanDown => v.(ty := v.ty - PanStep)
    case PanLeft => v.(tx := v.tx + PanStep)
    case PanRight => v.(tx := v.tx - PanStep)
  }

  /** A click on the grid panel; `button` is the class list of the button
      the click landed in, if any. */
  function Click(v: View, button: Option<set<string>>): View {
    if button.None? then v
    else
      match Dispatch(button.value)
      case None => v
      case Some(cmd) => Apply(cmd, v)
  }

  /** Which optional elements `initMermaidDiagram` finds under the widget. */
  datatype Dom = Dom(container: bool, viewContainer: bool, content: bool, code: bool,
                     toolbar: bool, gridPanel: bool)

  /** A running viewer: its state and which click handlers were installed. */
  datatype Instance = Instance(view: View, toolbarWired: bool, gridWired: bool)

  /** `initMermaidDiagram`: nothing without the container, view container,
      content and code elements; otherwise the initial view, with the click
      handlers wired where their elements exist. */
  function Init(dom: Dom): (r: Option<Instance>)
    ensures r.Some? <==> dom.container && dom.viewContainer && dom.content && dom.code
    ensures r.Some? ==> r.value.view == Initial
    ensures r.Some? ==> r.value.toolbarWired == dom.toolbar && r.value.gridWired == dom.gridPanel
  {
    if !dom.container then None
    else if !dom.viewContainer || !dom.content || !dom.code then None
    else Some(Instance(Initial, dom.toolbar, dom.gridPanel))
  }

  datatype Event =
    | GridClick(button: Option<set<string>>)
    | ToolbarClick(button: Option<set<string>>)
    | MouseDown(x: real, y: real)
    | MouseMove(x: real, y: real)
    | MouseUp

  /** `mousedown` on the view container starts a drag from the mouse position. */
  function Press(v: View, x: real, y: real): (r: View)
    ensures r.dragging && r.startX == x && r.startY == y
    ensures r.initTx == v.tx && r.initTy == v.ty
    ensures r.scale == v.scale && r.tx == v.tx && r.ty == v.ty
  {
    v.(dragging := true, startX := x, startY := y, initTx := v.tx, initTy := v.ty)
  }

  /** `mousemove` anywhere: while dragging, the translation is the one at the
      press plus the mouse's offset from where it was pressed. */
  function Move(v: View, x: real, y: real): View {
    if !v.dragging then v
    else v.(tx := v.initTx + (x - v.startX), ty := v.initTy + (y - v.startY))
  }

  /** `mouseup` anywhere ends a drag. */
  function Release(v: View): View {
    if v.dragging then v.(dragging := false) else v
  }

  function Step(inst: Instance, e: Event): Instance {
    match e
    case GridClick(button) => if inst.gridWired then inst.(view := Click(inst.view, button)) else inst
    case ToolbarClick(_) => inst
    case MouseDown(x, y) => inst.(view := Press(inst.view, x, y))
    case MouseMove(x, y) => inst.(view := Move(inst.view, x, y))
    case MouseUp => inst.(view := Release(inst.view))
  }

  /** Whether an event copies the diagram source to the clipboard: a toolbar
      click on a button of class `copy-code`. */
  function Copies(inst: Instance, e: Event): bool {
    && e.ToolbarClick? && inst.toolbarWired
    && e.button.Some? && "copy-code" in e.button.value
  }

  function Run(inst: Instance, events: seq<Event>): Instance
    decreases |events|
  {
    if events == [] then inst else Run(Step(inst, events[0]), events[1..])
  }

  /** The same grid command `k` times. */
  function Repeat(cmd: Command, k: nat, v: View): View {
    if k == 0 then v else Apply(cmd, Repeat(cmd, k - 1, v))
  }

  function Pow(x: real, k: nat): real {
    if k == 0 then 1.0 else x * Pow(x, k - 1)
  }

  predicate InBounds(v: View) {
    MinScale <= v.scale <= MaxScale
  }
}
