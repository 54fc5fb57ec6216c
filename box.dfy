/**
 * The `Box` component's drag-to-rotate state as an object whose handlers
 * update its fields in place: the drag flag and previous position (React
 * state), the accumulated angles (the `rotation` ref) and the mesh's rotation
 * (written by the per-frame callback).
 *
 * Every method is tied, through `Snapshot`, to the handler function of the
 * same name in `DragRotation`. The object invariant `Valid` is the telescoping
 * property itself: the angles always equal the angles at the latest
 * pointer-down plus Sensitivity times the signed displacement since then
 * (current minus pressed position; horizontal to rotY, vertical to rotX).
 */
module BoxController {
  import DragRotation

  class Box {
    var isDragging: bool
    var prevX: real
    var prevY: real
    var rotX: real
    var rotY: real
    var meshPresent: bool
    var meshRotX: real
    var meshRotY: real

    // Position and angles at the latest pointer-down (the initial ones before the first).
    ghost var downX: real
    ghost var downY: real
    ghost var downRotX: real
    ghost var downRotY: real

    ghost predicate Valid()
      reads this
    {
      rotY == downRotY + DragRotation.Sensitivity * (prevX - downX) &&
      rotX == downRotX + DragRotation.Sensitivity * (prevY - downY)
    }

    /** The value-level view of this object. */
    function Snapshot(): DragRotation.State
      reads this
    {
      DragRotation.State(isDragging, prevX, prevY, rotX, rotY, meshPresent, meshRotX, meshRotY)
    }

    /** First render: no drag, pointer and angles at zero; `mesh` says whether the mesh is mounted. */
    constructor (mesh: bool)
      ensures Valid()
      ensures Snapshot() == DragRotation.Initial(mesh)
      ensures meshRotX == 0.0 && meshRotY == 0.0
    {
      isDragging := false;
      prevX, prevY := 0.0, 0.0;
      rotX, rotY := 0.0, 0.0;
      meshPresent := mesh;
      meshRotX, meshRotY := 0.0, 0.0;
      downX, downY, downRotX, downRotY := 0.0, 0.0, 0.0, 0.0;
    }

    method PointerDown(clientX: real, clientY: real)
      requires Valid()
      modifies this`isDragging, this`prevX, this`prevY,
               this`downX, this`downY, this`downRotX, this`downRotY
      ensures Valid()
      ensures Snapshot() == DragRotation.HandlePointerDown(old(Snapshot()), clientX, clientY)
      ensures isDragging && prevX == clientX && prevY == clientY
      ensures downX == clientX && downY == clientY && downRotX == rotX && downRotY == rotY
    {
      isDragging := true;
      prevX, prevY := clientX, clientY;
      downX, downY, downRotX, downRotY := clientX, clientY, rotX, rotY;
    }

    method PointerUp()
      requires Valid()
      modifies this`isDragging
      ensures Valid()
      ensures Snapshot() == DragRotation.HandlePointerUp(old(Snapshot()))
      ensures !isDragging
    {
      isDragging := false;
    }

    /** The pointer-leave prop is wired to the pointer-up handler. */
    method PointerLeave()
      requires Valid()
      modifies this`isDragging
      ensures Valid()
      ensures Snapshot() == DragRotation.Step(old(Snapshot()), DragRotation.PointerLeave)
      ensures !isDragging
    {
      PointerUp();
    }

    method PointerMove(clientX: real, clientY: real)
      requires Valid()
      modifies this`prevX, this`prevY, this`rotX, this`rotY
      ensures Valid()
      ensures Snapshot() == DragRotation.HandlePointerMove(old(Snapshot()), clientX, clientY)
      ensures !old(isDragging) ==> unchanged(this)
      ensures old(isDragging) ==> rotY == old(rotY) + (clientX - old(prevX)) * DragRotation.Sensitivity
      ensures old(isDragging) ==> rotX == old(rotX) + (clientY - old(prevY)) * DragRotation.Sensitivity
      ensures old(isDragging) ==> prevX == clientX && prevY == clientY
    {
      if !isDragging {
        return;
      }
      var deltaX := clientX - prevX;
      var deltaY := clientY - prevY;
      rotY := rotY + deltaX * DragRotation.Sensitivity;
      rotX := rotX + deltaY * DragRotation.Sensitivity;
      prevX, prevY := clientX, clientY;
    }

    /** The per-frame callback: copy the accumulated angles onto the mesh, if it is mounted. */
    method Frame()
      requires Valid()
      modifies this`meshRotX, this`meshRotY
      ensures Valid()
      ensures Snapshot() == DragRotation.ApplyFrame(old(Snapshot()))
      ensures meshPresent ==> meshRotX == rotX && meshRotY == rotY
      ensures !meshPresent ==> unchanged(this)
    {
      if meshPresent {
        meshRotX := rotX;
        meshRotY := rotY;
      }
    }
  }

  /**
   * A client of `Box`: press at (100, 100), drag to (150, 130), release,
   * render, move the released pointer elsewhere and render again. The box has
   * turned by 0.5 about y and 0.3 about x, the drag is over, and the mesh
   * shows the angles.
   */
  method DragOnce() returns (rotX: real, rotY: real, meshRotX: real, meshRotY: real, dragging: bool)
    ensures rotY == 0.5 && rotX == 0.3 && !dragging
    ensures meshRotX == rotX && meshRotY == rotY
  {
    var box := new Box(true);
    box.PointerDown(100.0, 100.0);
    box.PointerMove(150.0, 130.0);
    box.PointerUp();
    box.Frame();
    box.PointerMove(400.0, 20.0);
    box.Frame();
    rotX, rotY := box.rotX, box.rotY;
    meshRotX, meshRotY := box.meshRotX, box.meshRotY;
    dragging := box.isDragging;
  }
}
