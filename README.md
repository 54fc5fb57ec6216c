# Drag-to-rotate box: a Dafny model

This project models the drag-to-rotate controller of the `Box` component in
`3d-box-app/src/App.jsx`. The user presses the pointer on a box, drags it and
releases it, and the box turns as the pointer moves. The controller has:

- a drag flag (`isDragging`);
- the last pointer position (`previousMouse`);
- two accumulated rotation angles (the `rotation` ref, `x` and `y`);
- a per-frame callback that copies the angles onto the mesh's rotation.

A horizontal drag turns the box about its y-axis. A vertical drag turns it
about its x-axis. Each pixel of motion adds 0.01 radians. The angles are never
wrapped or clamped.

The model has two files:

- `drag_rotation.dfy`, module `DragRotation`: the controller's state as a
  value and each handler as a function on it. `Step` dispatches one event the
  way the mesh's props wire the handlers, and `Run` plays a sequence of events.
  The lemmas cover whole drags: the telescoping sum, the freeze after release,
  and the quantity that every move conserves.
- `box.dfy`, module `BoxController`: class `Box` holds the same state in
  mutable fields. Its handlers update those fields in place. Each method's
  postcondition ties the new state to the matching `DragRotation` function of
  the old state. The object invariant `Valid` uses ghost fields that record
  the pointer-down position and angles. It states the telescoping sum for the
  current drag: the angles equal the angles at pointer-down plus 0.01 times
  the signed displacement since the latest pointer-down (current minus pressed
  position; horizontal motion goes to rotY, vertical motion to rotX).

Assumptions:

- Coordinates and angles are exact `real`s. The source multiplies JavaScript
  doubles by `0.01`, and the model does not include their rounding.
- Each handler sees the state the previous event left. In the source,
  `setIsDragging` and `setPreviousMouse` are React state updates that take
  effect at the next render. Until then, a handler can read a stale
  `isDragging` or `previousMouse`. The model assumes every event is handled
  after the previous event's updates have been committed.
- The mesh is a presence flag and two rotation fields. Whether the mesh is
  mounted is a parameter of the constructor, because React sets the ref when
  it mounts the mesh and that is not modelled.

## Model

| member | source | states |
|---|---|---|
| `DragRotation.Initial` | 3d-box-app/src/App.jsx:6-9 | The first render starts with no drag, the previous pointer at (0, 0) and both angles at 0. |
| `DragRotation.HandlePointerDown` | 3d-box-app/src/App.jsx:11-14 | Pointer-down sets the drag flag and records the event's position as the previous one. It leaves the angles and the mesh unchanged. It re-anchors the drag so that later moves are measured from the pressed position. |
| `DragRotation.HandlePointerUp` | 3d-box-app/src/App.jsx:16-18 | Pointer-up clears the drag flag and changes nothing else. |
| `DragRotation.HandlePointerMove` | 3d-box-app/src/App.jsx:20-31 | A move while not dragging changes nothing. During a drag, rotY grows by (clientX − prevX) × 0.01 and rotX by (clientY − prevY) × 0.01. The event's position becomes the previous one, and the drag flag and mesh are unchanged. Either way, the offsets rotY − 0.01·prevX and rotX − 0.01·prevY are conserved. |
| `DragRotation.ApplyFrame` | 3d-box-app/src/App.jsx:34-39 | When the mesh is present, the frame copies the accumulated angles exactly onto the mesh rotation. When it is absent, the frame changes nothing. It never changes anything other than the mesh rotation. |
| `DragRotation.Step` | 3d-box-app/src/App.jsx:42-48 | For any event: the angles change only on a move during a drag. Only a pointer-down can change the offsets. Only a pointer-down starts a drag, and only up or leave ends one. Only a frame writes the mesh rotation. |
| `DragRotation.RunAppend` | 3d-box-app/src/App.jsx:42-48 | Handling the events of a then those of b gives the same state as handling a + b. |
| `DragRotation.LeaveIsUp` | 3d-box-app/src/App.jsx:45-47 | Pointer-leave behaves exactly like pointer-up, since it is wired to the same handler. |
| `DragRotation.FrameIdempotent` | 3d-box-app/src/App.jsx:34-39 | Running the frame callback twice gives the same state as running it once. |
| `DragRotation.OffsetsConserved` | 3d-box-app/src/App.jsx:16-31 | No sequence of events without a pointer-down changes the offsets rotY − 0.01·prevX and rotX − 0.01·prevY. |
| `DragRotation.DragTelescopes` | 3d-box-app/src/App.jsx:23-30 | Over any moves and frames during a drag, the drag goes on and the previous position becomes the last move's position (xn, yn). rotY becomes its starting value + 0.01 × (xn − prevX), and rotX becomes its starting value + 0.01 × (yn − prevY), whatever positions lie in between. |
| `DragRotation.DragSession` | 3d-box-app/src/App.jsx:11-30 | A pointer-down at (x0, y0) followed by moves and frames ending at (xn, yn) adds 0.01 × (xn − x0) to rotY and 0.01 × (yn − y0) to rotX, with no clamping or wrapping. |
| `DragRotation.ReleasedFreezes` | 3d-box-app/src/App.jsx:16-21 | When no drag is in progress, events other than a pointer-down leave the angles, the previous position and the cleared drag flag unchanged. |
| `DragRotation.ReleaseThenMoves` | 3d-box-app/src/App.jsx:16-21 | After a pointer-up or pointer-leave, any number of events other than a pointer-down leave the angles frozen and the drag ended. |
| `DragRotation.Scenario` | 3d-box-app/src/App.jsx:11-39 | Press at (100, 100), move to (150, 130), release and render. The drag is over, rotY = 0.5 and rotX = 0.3, and a present mesh shows those angles. |
| `BoxController.Box.constructor` | 3d-box-app/src/App.jsx:6-9 | The new object is the initial state and satisfies the telescoping invariant `Valid`. |
| `BoxController.Box.PointerDown` | 3d-box-app/src/App.jsx:11-14 | Updates the fields in place to `HandlePointerDown` of the old state. It records the pressed position and current angles as the new drag's anchor and keeps `Valid`. |
| `BoxController.Box.PointerUp` | 3d-box-app/src/App.jsx:16-18 | Writes only the drag flag, setting it to false. The new state is `HandlePointerUp` of the old one. |
| `BoxController.Box.PointerLeave` | 3d-box-app/src/App.jsx:47 | Runs the pointer-up handler, so the new state is that of a pointer-leave `Step`: the drag flag is cleared and nothing else changes. |
| `BoxController.Box.PointerMove` | 3d-box-app/src/App.jsx:20-31 | Outside a drag, the object is unchanged. During a drag, the angles grow by 0.01 × the pointer delta (horizontal to rotY, vertical to rotX) and the position is recorded. Writes only the position and angle fields and keeps `Valid`, so the angles stay at anchor + 0.01 × the signed displacement since the latest pointer-down (current − pressed position; horizontal → rotY, vertical → rotX). |
| `BoxController.Box.Frame` | 3d-box-app/src/App.jsx:34-39 | Writes only the mesh rotation fields. They take the accumulated angles when the mesh is present and are unchanged otherwise. |
| `BoxController.DragOnce` | 3d-box-app/src/App.jsx:11-47 | Runs the handlers on one `Box`: press at (100, 100), drag to (150, 130), release, render, move the released pointer and render again. The result is rotY = 0.5, rotX = 0.3, the drag ended, and the mesh showing those angles. |

## Left out

- Rendering and layout: the canvas, camera and lights, the box geometry and
  material, and the overlay text (`App`, and the JSX body of `Box`). They are
  static declarations with no logic.
- The Three.js mesh and the WebGL engine: the mesh is reduced to a presence
  flag and its two rotation angles.
- Floating-point rounding of `× 0.01`: arithmetic is exact over the reals.
- React's asynchronous state updates: a handler that reads a stale
  `isDragging` or `previousMouse` before the next render is not modelled.
  In the source, two moves handled before a re-render both read the same
  stale `previousMouse` (3d-box-app/src/App.jsx:23-24), while the `rotation`
  ref is updated at once (3d-box-app/src/App.jsx:27-28), so the rotation is
  double-counted. `DragTelescopes`, `DragSession` and the `Box` invariant
  `Valid` therefore hold only under the committed-state assumption.
- How React invokes `useFrame` once per rendered frame: the frame callback is
  an explicit event or method call.
- Zoom, wheel and pinch handling, and easing toward a target angle: none of
  these appears in this component. The rendered angle is set to the
  accumulated one directly, with no smoothing.
