/**
 * The drag-to-rotate controller of the `Box` component, as values.
 *
 * A state holds the drag flag, the last pointer position, the two accumulated
 * rotation angles and the rotation currently shown by the mesh. Each event
 * handler is a function from the state before the event to the state after
 * it, and `Run` plays a sequence of events. Coordinates and angles are exact
 * reals: floating-point rounding of the multiplication by 0.01 is not modelled.
 *
 * Each handler sees the state committed by the previous event (the
 * asynchronous React state updates are assumed to have been applied).
 */
module DragRotation {

  /** Radians of rotation per pixel of pointer motion. */
  const Sensitivity: real := 0.01

  datatype State = State(
    isDragging: bool,
    prevX: real,          // previousMouse.x
    prevY: real,          // previousMouse.y
    rotX: real,           // rotation.current.x
    rotY: real,           // rotation.current.y
    meshPresent: bool,    // meshRef.current is set
    meshRotX: real,       // meshRef.current.rotation.x
    meshRotY: real)       // meshRef.current.rotation.y

  datatype Event =
    | PointerDown(clientX: real, clientY: real)
    | PointerUp
    | PointerLeave
    | PointerMove(clientX: real, clientY: real)
    | Frame

  /** The state when the component is first rendered. */
  function Initial(meshPresent: bool): (s: State)
    ensures !s.isDragging && s.meshPresent == meshPresent
    ensures s.rotX == 0.0 && s.rotY == 0.0 && s.prevX == 0.0 && s.prevY == 0.0
  {
    State(false, 0.0, 0.0, 0.0, 0.0, meshPresent, 0.0, 0.0)
  }

  /**
   * The y-angle the current drag would give at horizontal position 0. While a
   * drag goes on, every move changes rotY and prevX so that this stays fixed;
   * only a pointer-down resets it.
   */
  function RotYOffset(s: State): (offset: real) {
    s.rotY - Sensitivity * s.prevX
  }

  /** The x-angle the current drag would give at vertical position 0. */
  function RotXOffset(s: State): (offset: real) {
    s.rotX - Sensitivity * s.prevY
  }

  /** The angles and the mesh (its presence and rotation) are the same. */
  predicate SameAnglesAndMesh(s: State, t: State) {
    s.rotX == t.rotX && s.rotY == t.rotY &&
    s.meshPresent == t.meshPresent && s.meshRotX == t.meshRotX && s.meshRotY == t.meshRotY
  }

  /** handlePointerDown: a drag starts at the event's position. */
  function HandlePointerDown(s: State, clientX: real, clientY: real): (r: State)
    ensures r.isDragging
    ensures r.prevX == clientX && r.prevY == clientY
    ensures SameAnglesAndMesh(r, s)
    // A move from here to (x, y) turns the box by Sensitivity times (x, y) minus the pressed position.
    ensures RotYOffset(r) + Sensitivity * clientX == s.rotY
    ensures RotXOffset(r) + Sensitivity * clientY == s.rotX
  {
    s.(isDragging := true, prevX := clientX, prevY := clientY)
  }

  /** handlePointerUp, also installed as the pointer-leave handler. */
  function HandlePointerUp(s: State): (r: State)
    ensures !r.isDragging
    ensures r.prevX == s.prevX && r.prevY == s.prevY && SameAnglesAndMesh(r, s)
    ensures RotXOffset(r) == RotXOffset(s) && RotYOffset(r) == RotYOffset(s)
  {
    s.(isDragging := false)
  }

  /**
   * handlePointerMove: ignored unless a drag is in progress; during a drag
   * horizontal motion turns the box about its y-axis and vertical motion
   * about its x-axis, and the event's position becomes the previous one.
   */
  function HandlePointerMove(s: State, clientX: real, clientY: real): (r: State)
    ensures !s.isDragging ==> r == s
    ensures r.isDragging == s.isDragging
    ensures s.isDragging ==> r.prevX == clientX && r.prevY == clientY
    ensures s.isDragging ==> r.rotY - s.rotY == (clientX - s.prevX) * Sensitivity
    ensures s.isDragging ==> r.rotX - s.rotX == (clientY - s.prevY) * Sensitivity
    ensures RotXOffset(r) == RotXOffset(s) && RotYOffset(r) == RotYOffset(s)
    ensures r.meshPresent == s.meshPresent && r.meshRotX == s.meshRotX && r.meshRotY == s.meshRotY
  {
    if !s.isDragging then s
    else
      var deltaX := clientX - s.prevX;
      var deltaY := clientY - s.prevY;
      s.(rotY := s.rotY + deltaX * Sensitivity,
         rotX := s.rotX + deltaY * Sensitivity,
         prevX := clientX, prevY := clientY)
  }

  /** The useFrame callback: the mesh, when there is one, shows the accumulated angles. */
  function ApplyFrame(s: State): (r: State)
    ensures r.meshPresent ==> r.meshRotX == s.rotX && r.meshRotY == s.rotY
    ensures !s.meshPresent ==> r == s
    ensures r.(meshRotX := s.meshRotX, meshRotY := s.meshRotY) == s
  {
    if s.meshPresent then s.(meshRotX := s.rotX, meshRotY := s.rotY) else s
  }

  /** One event, dispatched as the mesh's props wire the handlers. */
  function Step(s: State, e: Event): (r: State)
    // The rotation changes only on a move during a drag.
    ensures (e.PointerMove? && s.isDragging) || (r.rotX == s.rotX && r.rotY == s.rotY)
    // Only a pointer-down can change the offsets.
    ensures e.PointerDown? || (RotXOffset(r) == RotXOffset(s) && RotYOffset(r) == RotYOffset(s))
    // Only a pointer-down starts a drag; only up and leave end one.
    ensures r.isDragging <==> e.PointerDown? || (s.isDragging && (e.PointerMove? || e.Frame?))
    // Only a frame touches the mesh.
    ensures !e.Frame? ==> r.meshRotX == s.meshRotX && r.meshRotY == s.meshRotY
  {
    match e
    case PointerDown(x, y) => HandlePointerDown(s, x, y)
    case PointerUp => HandlePointerUp(s)
    case PointerLeave => HandlePointerUp(s)
    case PointerMove(x, y) => HandlePointerMove(s, x, y)
    case Frame => ApplyFrame(s)
  }

  /** The state after the events `es`, in order, starting from `s`. */
  function Run(s: State, es: seq<Event>): (r: State)
    decreases |es|
  {
    if es == [] then s else Run(Step(s, es[0]), es[1..])
  }

  /** No event of `es` is a pointer-down. */
  predicate NoPress(es: seq<Event>) {
    forall i :: 0 <= i < |es| ==> !es[i].PointerDown?
  }

  /** Every event of `es` is a move or a frame: the pointer stays down. */
  predicate DragOnly(es: seq<Event>) {
    forall i :: 0 <= i < |es| ==> es[i].PointerMove? || es[i].Frame?
  }

  /** The position of the last move in `es`, or (x, y) if there is none. */
  function LastPointer(es: seq<Event>, x: real, y: real): (p: (real, real))
    decreases |es|
  {
    if es == [] then (x, y)
    else if es[|es| - 1].PointerMove? then (es[|es| - 1].clientX, es[|es| - 1].clientY)
    else LastPointer(es[..|es| - 1], x, y)
  }

  /** Playing two runs one after the other is playing their concatenation. */
  lemma {:induction false} RunAppend(s: State, a: seq<Event>, b: seq<Event>)
    ensures Run(s, a + b) == Run(Run(s, a), b)
    decreases |a|
  {
    if a != [] {
      assert (a + b)[0] == a[0];
      assert (a + b)[1..] == a[1..] + b;
      RunAppend(Step(s, a[0]), a[1..], b);
    } else {
      assert a + b == b;
    }
  }

  /** Pointer-leave runs the pointer-up handler. */
  lemma LeaveIsUp(s: State)
    ensures Step(s, PointerLeave) == Step(s, PointerUp)
  {
  }

  /** Applying the frame twice shows the same as applying it once. */
  lemma FrameIdempotent(s: State)
    ensures ApplyFrame(ApplyFrame(s)) == ApplyFrame(s)
  {
  }

  /** Without a pointer-down, the offsets of the current drag never change. */
  lemma {:induction false} OffsetsConserved(s: State, es: seq<Event>)
    requires NoPress(es)
    ensures RotXOffset(Run(s, es)) == RotXOffset(s)
    ensures RotYOffset(Run(s, es)) == RotYOffset(s)
    decreases |es|
  {
    if es != [] {
      assert !es[0].PointerDown?;
      assert NoPress(es[1..]) by {
        forall i | 0 <= i < |es[1..]| ensures !es[1..][i].PointerDown? {
          assert es[1..][i] == es[i + 1];
        }
      }
      OffsetsConserved(Step(s, es[0]), es[1..]);
    }
  }

  /**
   * Telescoping: over moves and frames inside one drag, the angles grow by
   * Sensitivity times the signed displacement from the start position to the
   * last move's position (horizontal to rotY, vertical to rotX), whatever the
   * positions in between; the drag goes on.
   */
  lemma {:induction false} DragTelescopes(s: State, es: seq<Event>)
    requires s.isDragging && DragOnly(es)
    ensures Run(s, es).isDragging
    ensures (Run(s, es).prevX, Run(s, es).prevY) == LastPointer(es, s.prevX, s.prevY)
    ensures Run(s, es).rotY == s.rotY + Sensitivity * (LastPointer(es, s.prevX, s.prevY).0 - s.prevX)
    ensures Run(s, es).rotX == s.rotX + Sensitivity * (LastPointer(es, s.prevX, s.prevY).1 - s.prevY)
    decreases |es|
  {
    if es != [] {
      var init, last := es[..|es| - 1], es[|es| - 1];
      assert DragOnly(init) by {
        forall i | 0 <= i < |init| ensures init[i].PointerMove? || init[i].Frame? {
          assert init[i] == es[i];
        }
      }
      DragTelescopes(s, init);
      assert init + [last] == es;
      RunAppend(s, init, [last]);
      var m := Run(s, init);
      assert Run(m, [last]) == Step(m, last);
      assert last.PointerMove? || last.Frame?;
    }
  }

  /**
   * A whole drag: a pointer-down at (x0, y0) followed by moves and frames
   * leaves rotY increased by Sensitivity * (xn - x0) and rotX by
   * Sensitivity * (yn - y0), where (xn, yn) is the last move's position.
   */
  lemma {:induction false} DragSession(s: State, x0: real, y0: real, es: seq<Event>)
    requires DragOnly(es)
    ensures Run(s, [PointerDown(x0, y0)] + es).isDragging
    ensures Run(s, [PointerDown(x0, y0)] + es).rotY == s.rotY + Sensitivity * (LastPointer(es, x0, y0).0 - x0)
    ensures Run(s, [PointerDown(x0, y0)] + es).rotX == s.rotX + Sensitivity * (LastPointer(es, x0, y0).1 - y0)
  {
    RunAppend(s, [PointerDown(x0, y0)], es);
    var pressed := HandlePointerDown(s, x0, y0);
    assert Run(s, [PointerDown(x0, y0)]) == pressed;
    DragTelescopes(pressed, es);
  }

  /**
   * After release, moves, frames and further releases leave the angles, the
   * pointer position and the drag flag as they were: nothing turns the box
   * again until the next pointer-down.
   */
  lemma {:induction false} ReleasedFreezes(s: State, es: seq<Event>)
    requires !s.isDragging && NoPress(es)
    ensures !Run(s, es).isDragging
    ensures Run(s, es).rotX == s.rotX && Run(s, es).rotY == s.rotY
    ensures Run(s, es).prevX == s.prevX && Run(s, es).prevY == s.prevY
    decreases |es|
  {
    if es != [] {
      assert !es[0].PointerDown?;
      assert NoPress(es[1..]) by {
        forall i | 0 <= i < |es[1..]| ensures !es[1..][i].PointerDown? {
          assert es[1..][i] == es[i + 1];
        }
      }
      ReleasedFreezes(Step(s, es[0]), es[1..]);
    }
  }

  /** A pointer-up or pointer-leave followed by anything but a pointer-down freezes the angles. */
  lemma {:induction false} ReleaseThenMoves(s: State, release: Event, es: seq<Event>)
    requires release.PointerUp? || release.PointerLeave?
    requires NoPress(es)
    ensures !Run(s, [release] + es).isDragging
    ensures Run(s, [release] + es).rotX == s.rotX && Run(s, [release] + es).rotY == s.rotY
  {
    RunAppend(s, [release], es);
    assert Run(s, [release]) == HandlePointerUp(s);
    ReleasedFreezes(HandlePointerUp(s), es);
  }

  /**
   * Press at (100, 100), move to (150, 130), release, render a frame: the box
   * has turned by 0.5 about y and 0.3 about x, and the mesh shows it.
   */
  lemma Scenario(meshPresent: bool)
    ensures var r := Run(Initial(meshPresent),
                         [PointerDown(100.0, 100.0), PointerMove(150.0, 130.0), PointerUp, Frame]);
      !r.isDragging && r.rotY == 0.5 && r.rotX == 0.3 &&
      (meshPresent ==> r.meshRotY == 0.5 && r.meshRotX == 0.3)
  {
  }
}
