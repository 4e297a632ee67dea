/**
  The free-fly camera of the PBR demo (GLFW_PBR/Camera.cpp): Euler-angle orientation
  driven by pointer deltas, movement along the derived basis pinned to a fixed
  height, a clamped zoom, and a look-at view matrix.

  The trigonometry that turns yaw/pitch into a basis (UpdateCameraVectors) and
  the look-at construction are floating-point numerics with no exact statement;
  they are passed in as functions so that the model says what flows into them
  without claiming anything about what they compute.
*/
module Camera {
  import opened Vectors

  /** Height every keyboard move pins the eye to. */
  const PinnedHeight: real := 0.5
  /** Bound applied to pitch when constraining is requested. */
  const MaxPitch: real := 89.0
  const MinZoom: real := 1.0
  const MaxZoom: real := 45.0

  datatype Movement = Forward | Backward | Left | Right

  /** The front/right/up triad recomputed from yaw and pitch. */
  datatype Basis = Basis(front: Vec3, right: Vec3, up: Vec3)

  /** Camera state; speed, sensitivity and world-up come from the constructor. */
  datatype Camera = Camera(
    position: Vec3,
    front: Vec3,
    up: Vec3,
    right: Vec3,
    worldUp: Vec3,
    yaw: real,
    pitch: real,
    zoom: real,
    movementSpeed: real,
    mouseSensitivity: real)

  /** The opposite key on the same axis. */
  function Opposite(dir: Movement): Movement {
    match dir
    case Forward => Backward
    case Backward => Forward
    case Left => Right
    case Right => Left
  }

  /**
    How far one key moves the eye before the height is pinned: plus or minus
    front (W/S) or right (D/A), times speed times elapsed time.
  */
  function Displacement(c: Camera, dir: Movement, deltaTime: real): Vec3 {
    var v := c.movementSpeed * deltaTime;
    match dir
    case Forward => Vec3(c.front.x * v, c.front.y * v, c.front.z * v)
    case Backward => Vec3(-(c.front.x * v), -(c.front.y * v), -(c.front.z * v))
    case Right => Vec3(c.right.x * v, c.right.y * v, c.right.z * v)
    case Left => Vec3(-(c.right.x * v), -(c.right.y * v), -(c.right.z * v))
  }

  /** Recomputes the basis from the current yaw and pitch (trig left to `basisOf`). */
  function UpdateCameraVectors(c: Camera, basisOf: (real, real, Vec3) -> Basis): (r: Camera)
    ensures Basis(r.front, r.right, r.up) == basisOf(c.yaw, c.pitch, c.worldUp)
    ensures r == c.(front := r.front, right := r.right, up := r.up)
  {
    var b := basisOf(c.yaw, c.pitch, c.worldUp);
    c.(front := b.front, right := b.right, up := b.up)
  }

  /**
    Moves the eye one step along front or right, scaled by speed and elapsed
    time, then forces the height to PinnedHeight.
  */
  function ProcessKeyboard(c: Camera, dir: Movement, deltaTime: real): (r: Camera)
    ensures r.position.y == PinnedHeight
    ensures r.position.x == c.position.x + Displacement(c, dir, deltaTime).x
    ensures r.position.z == c.position.z + Displacement(c, dir, deltaTime).z
    ensures r == c.(position := r.position)
  {
    var velocity := c.movementSpeed * deltaTime;
    var moved :=
      match dir
      case Forward => Add(c.position, Scale(c.front, velocity))
      case Backward => Sub(c.position, Scale(c.front, velocity))
      case Left => Sub(c.position, Scale(c.right, velocity))
      case Right => Add(c.position, Scale(c.right, velocity));
    c.(position := moved.(y := PinnedHeight))
  }

  /** The clamp applied to pitch when constraining is on. */
  function ClampPitch(p: real): real {
    var upper := if p > MaxPitch then MaxPitch else p;
    if upper < -MaxPitch then -MaxPitch else upper
  }

  /**
    Adds the scaled pointer deltas to yaw and pitch, optionally clamps pitch to
    [-89, 89], and recomputes the basis from the new angles.
  */
  function ProcessMouseMovement(c: Camera, xoffset: real, yoffset: real, constrainPitch: bool,
                                basisOf: (real, real, Vec3) -> Basis): (r: Camera)
    ensures r.yaw == c.yaw + xoffset * c.mouseSensitivity
    ensures !constrainPitch ==> r.pitch == c.pitch + yoffset * c.mouseSensitivity
    ensures constrainPitch ==> -MaxPitch <= r.pitch <= MaxPitch
    ensures constrainPitch && c.pitch + yoffset * c.mouseSensitivity > MaxPitch ==> r.pitch == MaxPitch
    ensures constrainPitch && c.pitch + yoffset * c.mouseSensitivity < -MaxPitch ==> r.pitch == -MaxPitch
    ensures constrainPitch && -MaxPitch <= c.pitch + yoffset * c.mouseSensitivity <= MaxPitch ==>
              r.pitch == c.pitch + yoffset * c.mouseSensitivity
    ensures Basis(r.front, r.right, r.up) == basisOf(r.yaw, r.pitch, c.worldUp)
    ensures r == c.(yaw := r.yaw, pitch := r.pitch, front := r.front, right := r.right, up := r.up)
  {
    var dx := xoffset * c.mouseSensitivity;
    var dy := yoffset * c.mouseSensitivity;
    var turned := c.(yaw := c.yaw + dx, pitch := c.pitch + dy);
    var clamped := if constrainPitch then turned.(pitch := ClampPitch(turned.pitch)) else turned;
    UpdateCameraVectors(clamped, basisOf)
  }

  /**
    The scroll handler: the line that would apply the offset is disabled, so the
    call only clamps the stored zoom into [1, 45] and never reads its argument.
  */
  function ProcessMouseScroll(c: Camera, yoffset: real): (r: Camera)
    ensures MinZoom <= r.zoom <= MaxZoom
    ensures MinZoom <= c.zoom <= MaxZoom ==> r == c
    ensures c.zoom < MinZoom ==> r.zoom == MinZoom
    ensures c.zoom > MaxZoom ==> r.zoom == MaxZoom
    ensures r == c.(zoom := r.zoom)
  {
    var low := if c.zoom <= MinZoom then c.(zoom := MinZoom) else c;
    if low.zoom >= MaxZoom then low.(zoom := MaxZoom) else low
  }

  /**
    The scroll handler with its disabled delta line as a switch: when
    `applyDelta` is on and the zoom is in range, the offset is subtracted before
    the clamp. With the switch off this is the handler as written.
  */
  function ProcessMouseScrollToggled(c: Camera, yoffset: real, applyDelta: bool): (r: Camera)
    ensures MinZoom <= r.zoom <= MaxZoom
    ensures !applyDelta ==> r == ProcessMouseScroll(c, yoffset)
    ensures applyDelta && MinZoom <= c.zoom <= MaxZoom && MinZoom <= c.zoom - yoffset <= MaxZoom ==>
              r.zoom == c.zoom - yoffset
    ensures applyDelta && MinZoom <= c.zoom <= MaxZoom && c.zoom - yoffset > MaxZoom ==> r.zoom == MaxZoom
    ensures applyDelta && MinZoom <= c.zoom <= MaxZoom && c.zoom - yoffset < MinZoom ==> r.zoom == MinZoom
    ensures applyDelta && !(MinZoom <= c.zoom <= MaxZoom) ==> r == ProcessMouseScroll(c, yoffset)
    ensures r == c.(zoom := r.zoom)
  {
    var applied := if applyDelta && c.zoom >= MinZoom && c.zoom <= MaxZoom then c.(zoom := c.zoom - yoffset) else c;
    ProcessMouseScroll(applied, yoffset)
  }

  /** The look-at transform from the eye, the point one front-step ahead, and up. */
  function GetViewMatrix<M>(c: Camera, lookAt: (Vec3, Vec3, Vec3) -> M): (r: M)
    ensures exists target :: Sub(target, c.position) == c.front && r == lookAt(c.position, target, c.up)
  {
    var target := Add(c.position, c.front);
    assert Sub(target, c.position) == c.front;
    lookAt(c.position, target, c.up)
  }

  /** Feeds a sequence of pointer deltas to the camera, first to last. */
  function MouseTrace(c: Camera, deltas: seq<(real, real)>, constrainPitch: bool,
                      basisOf: (real, real, Vec3) -> Basis): Camera
    decreases |deltas|
  {
    if |deltas| == 0 then c
    else MouseTrace(ProcessMouseMovement(c, deltas[0].0, deltas[0].1, constrainPitch, basisOf),
                    deltas[1..], constrainPitch, basisOf)
  }

  function SumX(deltas: seq<(real, real)>): real
    decreases |deltas|
  {
    if |deltas| == 0 then 0.0 else deltas[0].0 + SumX(deltas[1..])
  }

  function SumY(deltas: seq<(real, real)>): real
    decreases |deltas|
  {
    if |deltas| == 0 then 0.0 else deltas[0].1 + SumY(deltas[1..])
  }

  /** A key and its opposite with the same elapsed time undo each other, up to the height pin. */
  lemma OppositeMovesCancel(c: Camera, dir: Movement, deltaTime: real)
    ensures ProcessKeyboard(ProcessKeyboard(c, dir, deltaTime), Opposite(dir), deltaTime)
            == c.(position := c.position.(y := PinnedHeight))
  {
    var c1 := ProcessKeyboard(c, dir, deltaTime);
    var d := Displacement(c, dir, deltaTime);
    assert Displacement(c1, Opposite(dir), deltaTime) == Vec3(-d.x, -d.y, -d.z) by {
      assert c1.front == c.front && c1.right == c.right && c1.movementSpeed == c.movementSpeed;
    }
    var c2 := ProcessKeyboard(c1, Opposite(dir), deltaTime);
    assert c2.position == Vec3(c.position.x, PinnedHeight, c.position.z);
  }

  /** Yaw is never clamped: after any run of deltas it has moved by sensitivity times their x sum. */
  lemma {:induction false} TraceYawAccumulates(c: Camera, deltas: seq<(real, real)>, constrainPitch: bool,
                                              basisOf: (real, real, Vec3) -> Basis)
    ensures MouseTrace(c, deltas, constrainPitch, basisOf).yaw == c.yaw + c.mouseSensitivity * SumX(deltas)
    ensures MouseTrace(c, deltas, constrainPitch, basisOf).mouseSensitivity == c.mouseSensitivity
    ensures MouseTrace(c, deltas, constrainPitch, basisOf).position == c.position
    ensures MouseTrace(c, deltas, constrainPitch, basisOf).zoom == c.zoom
    decreases |deltas|
  {
    if |deltas| > 0 {
      var c1 := ProcessMouseMovement(c, deltas[0].0, deltas[0].1, constrainPitch, basisOf);
      TraceYawAccumulates(c1, deltas[1..], constrainPitch, basisOf);
      calc {
        MouseTrace(c, deltas, constrainPitch, basisOf).yaw;
        c1.yaw + c.mouseSensitivity * SumX(deltas[1..]);
        c.yaw + c.mouseSensitivity * (deltas[0].0 + SumX(deltas[1..]));
      }
    }
  }

  /** Without constraining, pitch accumulates exactly like yaw. */
  lemma {:induction false} TracePitchUnconstrained(c: Camera, deltas: seq<(real, real)>,
                                                  basisOf: (real, real, Vec3) -> Basis)
    ensures MouseTrace(c, deltas, false, basisOf).pitch == c.pitch + c.mouseSensitivity * SumY(deltas)
    decreases |deltas|
  {
    if |deltas| > 0 {
      var c1 := ProcessMouseMovement(c, deltas[0].0, deltas[0].1, false, basisOf);
      TracePitchUnconstrained(c1, deltas[1..], basisOf);
      calc {
        MouseTrace(c, deltas, false, basisOf).pitch;
        c1.pitch + c.mouseSensitivity * SumY(deltas[1..]);
        c.pitch + c.mouseSensitivity * (deltas[0].1 + SumY(deltas[1..]));
      }
    }
  }

  /** With constraining on, pitch lies in [-89, 89] after any non-empty run of deltas. */
  lemma {:induction false} TracePitchBounded(c: Camera, deltas: seq<(real, real)>,
                                            basisOf: (real, real, Vec3) -> Basis)
    requires |deltas| > 0 || -MaxPitch <= c.pitch <= MaxPitch
    ensures -MaxPitch <= MouseTrace(c, deltas, true, basisOf).pitch <= MaxPitch
    decreases |deltas|
  {
    if |deltas| > 0 {
      var c1 := ProcessMouseMovement(c, deltas[0].0, deltas[0].1, true, basisOf);
      TracePitchBounded(c1, deltas[1..], basisOf);
    }
  }

  /** The scroll offset has no effect on the result. */
  lemma ScrollIgnoresOffset(c: Camera, a: real, b: real)
    ensures ProcessMouseScroll(c, a) == ProcessMouseScroll(c, b)
  {
  }

  /** Scrolling twice is the same as scrolling once. */
  lemma ScrollIdempotent(c: Camera, a: real, b: real)
    ensures ProcessMouseScroll(ProcessMouseScroll(c, a), b) == ProcessMouseScroll(c, a)
  {
  }

  /** The view depends on position, front and up only. */
  lemma ViewMatrixDependsOnPose<M>(c1: Camera, c2: Camera, lookAt: (Vec3, Vec3, Vec3) -> M)
    requires c1.position == c2.position && c1.front == c2.front && c1.up == c2.up
    ensures GetViewMatrix(c1, lookAt) == GetViewMatrix(c2, lookAt)
  {
  }

  /**
    The basis is read off yaw, pitch and world-up alone, none of which the
    recomputation writes, so recomputing it a second time changes nothing.
  */
  lemma UpdateCameraVectorsIdempotent(c: Camera, basisOf: (real, real, Vec3) -> Basis)
    ensures UpdateCameraVectors(UpdateCameraVectors(c, basisOf), basisOf) == UpdateCameraVectors(c, basisOf)
  {
  }

  /** Scrolling changes nothing the view depends on. */
  lemma ScrollKeepsView<M>(c: Camera, yoffset: real, lookAt: (Vec3, Vec3, Vec3) -> M)
    ensures GetViewMatrix(ProcessMouseScroll(c, yoffset), lookAt) == GetViewMatrix(c, lookAt)
  {
  }
}
