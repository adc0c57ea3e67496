/**
 * The contract between src/html_template.ts and assets/viewer.js: the
 * templates name each button by a CSS class, and the viewer's click
 * handlers test for those same class names, spelled out separately in each
 * file. Every button of the grid panel reaches the viewer branch its label
 * promises, every branch has a button, and the copy button is served by
 * the toolbar's handler alone.
 */
module Wiring {
  import opened Wrappers
  import Template
  import Viewer

  /** The viewer branch each control is meant to trigger, as its label says
      ("Pan up", "Zoom in", "Reset view", …); the copy button has none. */
  function Intended(a: Template.Action): Option<Viewer.Command> {
    match a
    case CopyCode => None
    case Up => Some(Viewer.PanUp)
    case Down => Some(Viewer.PanDown)
    case Left => Some(Viewer.PanLeft)
    case Right => Some(Viewer.PanRight)
    case ZoomIn => Some(Viewer.ZoomIn)
    case ZoomOut => Some(Viewer.ZoomOut)
    case Reset => Some(Viewer.Reset)
  }

  /** A click on the button of any control, read through the class list its
      `class` attribute gives the browser, takes the branch the control is
      meant for (none, for the copy button). */
  lemma ButtonDispatch(a: Template.Action)
    ensures Viewer.Dispatch(Template.ClassList(Template.ClassAttribute(a))) == Intended(a)
  {
    Template.ClassAttributeList(a);
  }

  /** Every button of the grid panel is handled, by the branch it is meant for. */
  lemma GridButtonsAreHandled()
    ensures forall b :: b in Template.GridButtons(Template.Grid) ==>
      && Intended(b.action).Some?
      && Viewer.Dispatch(Template.ClassList(Template.ClassAttribute(b.action))) == Intended(b.action)
  {
    forall b | b in Template.GridButtons(Template.Grid)
      ensures Intended(b.action).Some?
      ensures Viewer.Dispatch(Template.ClassList(Template.ClassAttribute(b.action))) == Intended(b.action)
    {
      GridButtonIsNotCopy(b);
      ButtonDispatch(b.action);
    }
  }

  lemma GridButtonIsNotCopy(b: Template.Button)
    requires b in Template.GridButtons(Template.Grid)
    ensures b.action != Template.CopyCode
  {
    Template.GridButtonsInOrder();
  }

  /** Every branch of the viewer's grid dispatch has a button in the grid. */
  lemma EveryBranchHasAButton(cmd: Viewer.Command)
    ensures exists b :: b in Template.GridButtons(Template.Grid) && Intended(b.action) == Some(cmd)
  {
    Template.GridButtonsInOrder();
    var i :=
      match cmd
      case PanUp => 0
      case ZoomIn => 1
      case PanLeft => 2
      case Reset => 3
      case PanRight => 4
      case PanDown => 5
      case ZoomOut => 6;
    var b := Template.GridOrder[i];
    assert Intended(b.action) == Some(cmd);
    assert b in Template.GridButtons(Template.Grid);
  }

  /** The toolbar's one button carries `copy-code`, so a click on it copies;
      the grid dispatch would ignore it. */
  lemma ToolbarButtonCopies(inst: Viewer.Instance)
    requires inst.toolbarWired
    ensures var classes := Template.ClassList(Template.ClassAttribute(Template.Toolbar[0].action));
      && Viewer.Copies(inst, Viewer.ToolbarClick(Some(classes)))
      && Viewer.Dispatch(classes) == None
  {
    Template.ClassAttributeList(Template.CopyCode);
  }
}
