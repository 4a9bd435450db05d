/** The pointer-drag input source (`TouchController`): a small drag state
    machine that turns pointer coordinates into sign-inverted, scaled
    yaw/pitch deltas. */
module TouchControls {
  import opened Orientations

  /** `TOUCH_SENSITIVITY_YAW`: radians of yaw per pixel of horizontal drag. */
  const YawSensitivity: real := 0.005
  /** `TOUCH_SENSITIVITY_PITCH`: radians of pitch per pixel of vertical drag. */
  const PitchSensitivity: real := 0.0035

  /** The two arguments of the listener: `(deltaYaw, deltaPitch)`. */
  datatype Delta = Delta(yaw: real, pitch: real)

  /** A pointer position (`clientX`, `clientY`). */
  datatype Point = Point(x: real, y: real)

  /** The window listeners a drag registers. `boundEnd` serves both up and cancel. */
  datatype WindowListener = PointerMove | PointerUp | PointerCancel

  /** The delta `onMove` reports for a move from (lastX, lastY) to (x, y): the
      coordinate difference, negated and scaled. Dragging right or down turns the
      view left or up. */
  function MoveDelta(lastX: real, lastY: real, x: real, y: real): (d: Delta)
    ensures d.yaw < 0.0 <==> lastX < x
    ensures d.yaw == 0.0 <==> x == lastX
    ensures d.pitch < 0.0 <==> lastY < y
    ensures d.pitch == 0.0 <==> y == lastY
  {
    Delta(-(x - lastX) * YawSensitivity, -(y - lastY) * PitchSensitivity)
  }

  /** A move of 100 pixels to the left with no vertical motion turns the yaw by
      +0.5 and leaves the pitch alone. */
  lemma LeftwardMoveExample(x: real, y: real)
    ensures MoveDelta(x + 100.0, y, x, y) == Delta(0.5, 0.0)
  {
  }

  /** Component-wise sum of a sequence of deltas. */
  function Total(ds: seq<Delta>): (t: Delta)
  {
    if ds == [] then Delta(0.0, 0.0)
    else
      var prior := Total(ds[..|ds| - 1]);
      Delta(prior.yaw + ds[|ds| - 1].yaw, prior.pitch + ds[|ds| - 1].pitch)
  }

  /** Adding one delta at the end adds it to the total. */
  lemma TotalAppend(ds: seq<Delta>, d: Delta)
    ensures Total(ds + [d]) == Delta(Total(ds).yaw + d.yaw, Total(ds).pitch + d.pitch)
  {
    assert (ds + [d])[..|ds|] == ds;
  }

  /** Where the pointer is after a drag that began at `start` and moved through `moves`. */
  function LastPoint(start: Point, moves: seq<Point>): Point
  {
    if moves == [] then start else moves[|moves| - 1]
  }

  /** The deltas the listener receives over one drag: `onDown` at `start`, then
      `onMove` at each point of `moves`. Each delta is measured from the point
      before it. */
  function DragDeltas(start: Point, moves: seq<Point>): (ds: seq<Delta>)
    ensures |ds| == |moves|
  {
    if moves == [] then []
    else
      var prior := moves[..|moves| - 1];
      var from := LastPoint(start, prior);
      var last := moves[|moves| - 1];
      DragDeltas(start, prior) + [MoveDelta(from.x, from.y, last.x, last.y)]
  }

  /** Over one drag the reported deltas telescope: their sum is the negated,
      scaled displacement from the press to the last move. */
  lemma {:induction false} DragTelescopes(start: Point, moves: seq<Point>)
    ensures Total(DragDeltas(start, moves))
         == Delta(-(LastPoint(start, moves).x - start.x) * YawSensitivity,
                  -(LastPoint(start, moves).y - start.y) * PitchSensitivity)
  {
    if moves != [] {
      var prior := moves[..|moves| - 1];
      var from := LastPoint(start, prior);
      var last := moves[|moves| - 1];
      DragTelescopes(start, prior);
      TotalAppend(DragDeltas(start, prior), MoveDelta(from.x, from.y, last.x, last.y));
    }
  }

  /** Extending a drag by one move appends the delta from the point before it. */
  lemma DragDeltasAppend(start: Point, moves: seq<Point>, p: Point)
    ensures DragDeltas(start, moves + [p])
         == DragDeltas(start, moves) + [MoveDelta(LastPoint(start, moves).x, LastPoint(start, moves).y, p.x, p.y)]
    ensures LastPoint(start, moves + [p]) == p
  {
    assert (moves + [p])[..|moves|] == moves;
  }

  /** The three window listeners are the only ones there are: removing them all
      leaves none. */
  lemma RemoveAllListeners(s: set<WindowListener>)
    ensures s - {PointerMove, PointerUp, PointerCancel} == {}
  {
    forall l | l in s
      ensures l in {PointerMove, PointerUp, PointerCancel}
    {
      match l
      case PointerMove =>
      case PointerUp =>
      case PointerCancel =>
    }
  }

  class TouchController {
    var pointerActive: bool
    var lastX: real
    var lastY: real
    /** Which of `pointermove`, `pointerup`, `pointercancel` are registered on the window. */
    var windowListeners: set<WindowListener>
    /** Whether the target's `pointerdown` listener is registered. */
    var downListener: bool
    /** The pointer ids the target currently holds capture of. */
    var captured: set<int>
    /** Where the current (or last) drag was pressed. */
    ghost var dragStart: Point
    /** The points `onMove` has stored since that press, oldest first. */
    ghost var dragMoves: seq<Point>
    /** The deltas the listener has received since that press, oldest first. */
    ghost var reported: seq<Delta>

    /** During a drag the stored point is the last point of the drag, and what the
        listener has received is exactly the drag's deltas. */
    ghost predicate Valid()
      reads this
    {
      pointerActive ==>
        Point(lastX, lastY) == LastPoint(dragStart, dragMoves) &&
        reported == DragDeltas(dragStart, dragMoves)
    }

    /** The constructor registers the `pointerdown` listener on the target. */
    constructor ()
      ensures Valid()
      ensures !pointerActive && lastX == 0.0 && lastY == 0.0
      ensures windowListeners == {} && downListener && captured == {}
    {
      pointerActive := false;
      lastX := 0.0;
      lastY := 0.0;
      windowListeners := {};
      downListener := true;
      captured := {};
      dragStart := Point(0.0, 0.0);
      dragMoves := [];
      reported := [];
    }

    /** `dispose`: removes the three window listeners. It keeps `pointerActive`
        and the target's `pointerdown` listener. */
    method Dispose()
      requires Valid()
      modifies this`windowListeners
      ensures Valid()
      ensures windowListeners == {}
    {
      RemoveAllListeners(windowListeners);
      windowListeners := windowListeners - {PointerMove, PointerUp, PointerCancel};
    }

    /** `onDown`: a mouse press with `buttons != 1` is ignored; any other press
        starts a drag at the event's coordinates, captures the pointer and
        registers the move, up and cancel listeners. */
    method OnDown(pointerType: string, buttons: int, pointerId: int, x: real, y: real)
      requires Valid()
      modifies this`pointerActive, this`lastX, this`lastY, this`captured, this`windowListeners
      modifies this`dragStart, this`dragMoves, this`reported
      ensures Valid()
      ensures pointerType == "mouse" && buttons != 1 ==> unchanged(this)
      ensures !(pointerType == "mouse" && buttons != 1) ==>
                pointerActive && lastX == x && lastY == y &&
                captured == old(captured) + {pointerId} &&
                windowListeners == {PointerMove, PointerUp, PointerCancel} &&
                dragStart == Point(x, y) && dragMoves == [] && reported == []
    {
      if pointerType == "mouse" && buttons != 1 {
        return;
      }
      pointerActive := true;
      lastX := x;
      lastY := y;
      captured := captured + {pointerId};
      dragStart := Point(x, y);
      dragMoves := [];
      reported := [];
      RemoveAllListeners(windowListeners);
      windowListeners := windowListeners + {PointerMove, PointerUp, PointerCancel};
    }

    /** `onMove`. The listener call is the returned delta: `Some(d)` means the
        listener was called once with `d`, `None` that it was not called. */
    method OnMove(x: real, y: real) returns (delta: Option<Delta>)
      requires Valid()
      modifies this`lastX, this`lastY, this`dragMoves, this`reported
      ensures Valid()
      ensures !pointerActive ==> delta == None && unchanged(this)
      ensures pointerActive ==>
                delta == Some(MoveDelta(old(lastX), old(lastY), x, y)) && lastX == x && lastY == y &&
                dragMoves == old(dragMoves) + [Point(x, y)] && reported == old(reported) + [delta.value]
      ensures pointerActive ==>
                Total(reported) == Delta(-(x - dragStart.x) * YawSensitivity, -(y - dragStart.y) * PitchSensitivity)
    {
      if !pointerActive {
        return None;
      }
      var deltaX := x - lastX;
      var deltaY := y - lastY;
      lastX := x;
      lastY := y;
      delta := Some(Delta(-deltaX * YawSensitivity, -deltaY * PitchSensitivity));
      DragDeltasAppend(dragStart, dragMoves, Point(x, y));
      dragMoves := dragMoves + [Point(x, y)];
      reported := reported + [delta.value];
      DragTelescopes(dragStart, dragMoves);
    }

    /** `onEnd`, the handler of both `pointerup` and `pointercancel`: ends the drag,
        removes the three window listeners, and releases the capture when the
        pointer id is non-zero (truthy) and currently captured. */
    method OnEnd(pointerId: int)
      requires Valid()
      modifies this`pointerActive, this`windowListeners, this`captured
      ensures Valid()
      ensures !pointerActive && windowListeners == {}
      ensures captured == if pointerId != 0 && pointerId in old(captured)
                          then old(captured) - {pointerId} else old(captured)
    {
      pointerActive := false;
      RemoveAllListeners(windowListeners);
      windowListeners := windowListeners - {PointerMove, PointerUp, PointerCancel};
      if pointerId != 0 && pointerId in captured {
        captured := captured - {pointerId};
      }
    }
  }
}
