/**
 * What the viewer of assets/viewer.js promises: the scale stays between
 * 0.2 and 5, reset returns to the initial view, opposite pan steps cancel,
 * zooming in and out cancel away from the bounds, a click the dispatch does
 * not recognise changes nothing, and a drag follows the mouse.
 */
module ViewerProperties {
  import opened Wrappers
  import opened Viewer

  /** The `if`/`else if` chain takes the first branch, in the source's order,
      whose class the button carries. */
  lemma DispatchIsFirstMatch(classes: set<string>)
    ensures Dispatch(classes) == FirstMatch(Branches, classes)
  {
    var b0 := Branches;
    var b1, b2, b3 := b0[1..], b0[2..], b0[3..];
    var b4, b5, b6 := b0[4..], b0[5..], b0[6..];
    assert b0[1..] == b1 && b1[1..] == b2 && b2[1..] == b3 && b3[1..] == b4;
    assert b4[1..] == b5 && b5[1..] == b6 && b6[1..] == [];
    assert FirstMatch(b6, classes) == if "right" in classes then Some(PanRight) else None;
    assert FirstMatch(b5, classes) == if "left" in classes then Some(PanLeft) else FirstMatch(b6, classes);
    assert FirstMatch(b4, classes) == if "down" in classes then Some(PanDown) else FirstMatch(b5, classes);
    assert FirstMatch(b3, classes) == if "up" in classes then Some(PanUp) else FirstMatch(b4, classes);
    assert FirstMatch(b2, classes) == if "reset" in classes then Some(Reset) else FirstMatch(b3, classes);
    assert FirstMatch(b1, classes) == if "zoom-out" in classes then Some(ZoomOut) else FirstMatch(b2, classes);
    assert FirstMatch(b0, classes) == if "zoom-in" in classes then Some(ZoomIn) else FirstMatch(b1, classes);
  }

  /** A click dispatches to a command exactly when the button carries one of
      the seven classes the chain tests. */
  lemma DispatchRecognises(classes: set<string>)
    ensures Dispatch(classes).Some? <==> exists i :: 0 <= i < |Branches| && Branches[i].0 in classes
  {
    DispatchIsFirstMatch(classes);
    FirstMatchSome(Branches, classes);
  }

  lemma {:induction false} FirstMatchSome(branches: seq<(string, Command)>, classes: set<string>)
    ensures FirstMatch(branches, classes).Some? <==> exists i :: 0 <= i < |branches| && branches[i].0 in classes
  {
    if branches != [] {
      FirstMatchSome(branches[1..], classes);
      if branches[0].0 !in classes {
        forall i | 0 <= i < |branches| && branches[i].0 in classes
          ensures 0 <= i - 1 < |branches[1..]| && branches[1..][i - 1].0 in classes
        {
        }
      } else {
        assert branches[0].0 in classes;
      }
    }
  }

  /** The branch found is one the button carries, and no branch tried before
      it matches. */
  lemma {:induction false} FirstMatchIsFirst(branches: seq<(string, Command)>, classes: set<string>)
    ensures FirstMatch(branches, classes).Some? ==>
      exists i :: 0 <= i < |branches| && branches[i].0 in classes
        && FirstMatch(branches, classes) == Some(branches[i].1)
        && forall j :: 0 <= j < i ==> branches[j].0 !in classes
  {
    if branches != [] && branches[0].0 !in classes {
      FirstMatchIsFirst(branches[1..], classes);
      if FirstMatch(branches, classes).Some? {
        var i :| 0 <= i < |branches[1..]| && branches[1..][i].0 in classes
          && FirstMatch(branches[1..], classes) == Some(branches[1..][i].1)
          && forall j :: 0 <= j < i ==> branches[1..][j].0 !in classes;
        assert forall j :: 0 <= j < i + 1 ==> branches[j].0 !in classes by {
          forall j | 0 <= j < i + 1
            ensures branches[j].0 !in classes
          {
            if j > 0 {
              assert branches[j] == branches[1..][j - 1];
            }
          }
        }
        assert branches[i + 1] == branches[1..][i];
      }
    } else if branches != [] {
      assert 0 < |branches| && branches[0].0 in classes;
    }
  }

  /** A click that lands on no button, or on one with none of the seven
      classes, changes nothing. */
  lemma UnrecognisedClickIsNoOp(v: View, button: Option<set<string>>)
    requires button.Some? ==> forall i :: 0 <= i < |Branches| ==> Branches[i].0 !in button.value
    ensures Click(v, button) == v
  {
    if button.Some? {
      DispatchRecognises(button.value);
    }
  }

  /** Reset returns the view to its initial scale and translation, from any
      state, and leaves a drag in progress alone. */
  lemma ResetRestoresInitialView(v: View)
    ensures var r := Apply(Reset, v);
      r.scale == Initial.scale && r.tx == Initial.tx && r.ty == Initial.ty
      && r.dragging == v.dragging
    ensures Apply(Reset, Apply(Reset, v)) == Apply(Reset, v)
  {
  }

  /** Up then down, and left then right, cancel in either order. */
  lemma PanStepsCancel(v: View)
    ensures Apply(PanDown, Apply(PanUp, v)) == v && Apply(PanUp, Apply(PanDown, v)) == v
    ensures Apply(PanRight, Apply(PanLeft, v)) == v && Apply(PanLeft, Apply(PanRight, v)) == v
  {
  }

  /** Pan steps move by 40 pixels: up and left add, down and right subtract. */
  lemma PanStepSizes(v: View)
    ensures Apply(PanUp, v).ty - v.ty == PanStep == v.ty - Apply(PanDown, v).ty
    ensures Apply(PanLeft, v).tx - v.tx == PanStep == v.tx - Apply(PanRight, v).tx
  {
  }

  /** Zooming in then out gives the view back while the zoom in was not
      capped; zooming out then in does while the zoom out was not floored. */
  lemma ZoomStepsCancel(v: View)
    requires InBounds(v)
    ensures v.scale * ZoomFactor <= MaxScale ==> Apply(ZoomOut, Apply(ZoomIn, v)) == v
    ensures v.scale / ZoomFactor >= MinScale ==> Apply(ZoomIn, Apply(ZoomOut, v)) == v
  {
  }

  /** At the cap the round trip loses ground: from 5, in then out gives 5/1.2. */
  lemma ZoomAtCapDoesNotCancel(v: View)
    requires v.scale == MaxScale
    ensures Apply(ZoomOut, Apply(ZoomIn, v)).scale == MaxScale / ZoomFactor < v.scale
  {
  }

  /** Every step keeps the scale within [0.2, 5]. */
  lemma StepKeepsBounds(inst: Instance, e: Event)
    requires InBounds(inst.view)
    ensures InBounds(Step(inst, e).view)
  {
    if e.GridClick? && inst.gridWired && e.button.Some? {
      var d := Dispatch(e.button.value);
      if d.Some? {
        ApplyKeepsBounds(d.value, inst.view);
      }
    }
  }

  lemma ApplyKeepsBounds(cmd: Command, v: View)
    requires InBounds(v)
    ensures InBounds(Apply(cmd, v))
  {
  }

  lemma {:induction false} RunKeepsBounds(inst: Instance, events: seq<Event>)
    requires InBounds(inst.view)
    ensures InBounds(Run(inst, events).view)
    decreases |events|
  {
    if events != [] {
      StepKeepsBounds(inst, events[0]);
      RunKeepsBounds(Step(inst, events[0]), events[1..]);
    }
  }

  /** From initialisation, whatever the user does, the scale stays in [0.2, 5]. */
  lemma ScaleStaysInBounds(dom: Dom, events: seq<Event>)
    requires Init(dom).Some?
    ensures InBounds(Run(Init(dom).value, events).view)
  {
    RunKeepsBounds(Init(dom).value, events);
  }

  /** `k` zoom-ins from scale 1 give 1.2 to the `k`, capped at 5. */
  lemma {:induction false} ZoomInPowers(k: nat, v: View)
    requires v.scale == 1.0
    ensures Repeat(ZoomIn, k, v).scale == Min(Pow(ZoomFactor, k), MaxScale)
    ensures Pow(ZoomFactor, k) >= 1.0
  {
    if k > 0 {
      ZoomInPowers(k - 1, v);
    }
  }

  /** `k` zoom-outs from scale 1 give (1/1.2) to the `k`, floored at 0.2. */
  lemma {:induction false} ZoomOutPowers(k: nat, v: View)
    requires v.scale == 1.0
    ensures Repeat(ZoomOut, k, v).scale == Max(Pow(1.0 / ZoomFactor, k), MinScale)
    ensures 0.0 < Pow(1.0 / ZoomFactor, k) <= 1.0
  {
    if k > 0 {
      ZoomOutPowers(k - 1, v);
      var p := Pow(1.0 / ZoomFactor, k - 1);
      var prev := Repeat(ZoomOut, k - 1, v);
      assert prev.scale == Max(p, MinScale);
      FloorStep(p);
      assert Repeat(ZoomOut, k, v).scale == Max(prev.scale / ZoomFactor, MinScale);
      assert Pow(1.0 / ZoomFactor, k) == (1.0 / ZoomFactor) * p;
    }
  }

  /** Flooring before or after one more zoom-out gives the same scale. */
  lemma FloorStep(p: real)
    requires 0.0 < p <= 1.0
    ensures Max(Max(p, MinScale) / ZoomFactor, MinScale) == Max((1.0 / ZoomFactor) * p, MinScale)
    ensures 0.0 < (1.0 / ZoomFactor) * p <= 1.0
  {
    assert (1.0 / ZoomFactor) * p == p / ZoomFactor;
  }

  /** Eight zoom-ins from the initial view stay below the cap; the ninth
      reaches it. */
  lemma NineZoomInsReachTheCap()
    ensures Repeat(ZoomIn, 8, Initial).scale < MaxScale
    ensures Repeat(ZoomIn, 9, Initial).scale == MaxScale
  {
    ZoomInPowers(8, Initial);
    ZoomInPowers(9, Initial);
  }

  /** Eight zoom-outs from the initial view stay above the floor; the ninth
      reaches it. */
  lemma NineZoomOutsReachTheFloor()
    ensures Repeat(ZoomOut, 8, Initial).scale > MinScale
    ensures Repeat(ZoomOut, 9, Initial).scale == MinScale
  {
    ZoomOutPowers(8, Initial);
    ZoomOutPowers(9, Initial);
  }

  /** Grid clicks do nothing where the grid panel was missing at init, and
      toolbar clicks never move the view. */
  lemma UnwiredAndToolbarClicks(inst: Instance, button: Option<set<string>>)
    ensures !inst.gridWired ==> Step(inst, GridClick(button)) == inst
    ensures Step(inst, ToolbarClick(button)) == inst
  {
  }

  /** The copy button copies exactly when the toolbar was wired. */
  lemma CopyNeedsToolbar(inst: Instance, button: set<string>)
    requires "copy-code" in button
    ensures Copies(inst, ToolbarClick(Some(button))) <==> inst.toolbarWired
    ensures forall e: Event :: !e.ToolbarClick? ==> !Copies(inst, e)
  {
  }

  /** While no drag is in progress, moving the mouse changes nothing; and
      releasing ends a drag, or does nothing when none is in progress. */
  lemma MoveAndReleaseOutsideDrag(v: View, x: real, y: real)
    ensures !v.dragging ==> Move(v, x, y) == v && Release(v) == v
    ensures v.dragging ==> Release(v) == v.(dragging := false)
    ensures Move(v, x, y).scale == v.scale
  {
  }

  function Moves(points: seq<(real, real)>): seq<Event> {
    if points == [] then [] else [MouseMove(points[0].0, points[0].1)] + Moves(points[1..])
  }

  /** Only the last position of a drag counts: after pressing at `(x0, y0)`,
      any sequence of moves leaves the translation at the value it had at the
      press plus the offset of the last position from the press. */
  lemma {:induction false} DragFollowsLastMove(inst: Instance, x0: real, y0: real, points: seq<(real, real)>)
    requires points != []
    ensures var r := Run(Step(inst, MouseDown(x0, y0)), Moves(points)).view;
      var last := points[|points| - 1];
      && r.tx == inst.view.tx + (last.0 - x0)
      && r.ty == inst.view.ty + (last.1 - y0)
      && r.scale == inst.view.scale && r.dragging
  {
    var pressed := Step(inst, MouseDown(x0, y0));
    DragMoves(pressed, points);
  }

  lemma {:induction false} DragMoves(inst: Instance, points: seq<(real, real)>)
    requires inst.view.dragging && points != []
    ensures var r := Run(inst, Moves(points)).view;
      var last := points[|points| - 1];
      && r.tx == inst.view.initTx + (last.0 - inst.view.startX)
      && r.ty == inst.view.initTy + (last.1 - inst.view.startY)
      && r.scale == inst.view.scale && r.dragging
      && r.startX == inst.view.startX && r.startY == inst.view.startY
      && r.initTx == inst.view.initTx && r.initTy == inst.view.initTy
    decreases |points|
  {
    var e := MouseMove(points[0].0, points[0].1);
    var next := Step(inst, e);
    assert Moves(points) == [e] + Moves(points[1..]);
    assert Moves(points)[1..] == Moves(points[1..]);
    if |points| > 1 {
      DragMoves(next, points[1..]);
      assert points[1..][|points[1..]| - 1] == points[|points| - 1];
    } else {
      assert Moves(points[1..]) == [];
    }
  }

  /** A press and release without moving leaves the view where it was, and
      no drag in progress. */
  lemma ClickWithoutMoving(inst: Instance, x: real, y: real)
    ensures var r := Run(inst, [MouseDown(x, y), MouseUp]).view;
      r.scale == inst.view.scale && r.tx == inst.view.tx && r.ty == inst.view.ty && !r.dragging
  {
    var pressed := Step(inst, MouseDown(x, y));
    assert [MouseDown(x, y), MouseUp][1..] == [MouseUp];
    assert Run(pressed, [MouseUp]) == Run(Step(pressed, MouseUp), []);
  }
}
