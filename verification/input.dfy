/**
  The per-frame input handling the three demos share: the pointer callback
  (zero delta on the first event, camera turned only while the mouse is
  active), the Q/E mouse-capture keys, and the W/S/A/D movement keys.
  Each demo's handlers are written out in its own source; the camera they
  drive is the PBR demo's camera (GLFW_PBR/Camera.cpp) in all three.
  Key states are booleans: the key query only ever reports pressed or released.
*/
module Input {
  import opened Vectors
  import opened Camera

  /** The keys a frame polls; each is pressed (true) or released (false). */
  datatype Keys = Keys(w: bool, s: bool, a: bool, d: bool, q: bool, e: bool, space: bool, up: bool, down: bool)

  /** The callback's globals: last pointer position, first-event flag, capture flag. */
  datatype MouseState = MouseState(lastX: real, lastY: real, firstMouse: bool, mouseActive: bool)

  /** Start-up mouse state: pointer assumed at the screen centre, capture on. */
  function InitialMouse(screenWidth: nat, screenHeight: nat): (s: MouseState)
    ensures s.firstMouse && s.mouseActive
    ensures 2.0 * s.lastX == screenWidth as real && 2.0 * s.lastY == screenHeight as real
  {
    MouseState(screenWidth as real / 2.0, screenHeight as real / 2.0, true, true)
  }

  /** Pointer deltas for an event; y is inverted because screen y grows downward. */
  function MouseOffsets(s: MouseState, xpos: real, ypos: real): (d: (real, real))
    ensures s.firstMouse ==> d == (0.0, 0.0)
    ensures !s.firstMouse ==> d.0 == xpos - s.lastX && d.1 == s.lastY - ypos
  {
    var lastX := if s.firstMouse then xpos else s.lastX;
    var lastY := if s.firstMouse then ypos else s.lastY;
    (xpos - lastX, lastY - ypos)
  }

  /**
    One pointer event: the offsets are taken, the last position is recorded, and
    the camera turns only while the mouse is captured. The default pitch
    constraint of the camera's mouse handler is the `constrainPitch` argument.
  */
  function MouseCallback(s: MouseState, cam: Camera, xpos: real, ypos: real, constrainPitch: bool,
                         basisOf: (real, real, Vec3) -> Basis): (r: (MouseState, Camera))
    ensures r.0 == MouseState(xpos, ypos, false, s.mouseActive)
    ensures !s.mouseActive ==> r.1 == cam
    ensures s.mouseActive ==>
              r.1 == ProcessMouseMovement(cam, MouseOffsets(s, xpos, ypos).0, MouseOffsets(s, xpos, ypos).1,
                                          constrainPitch, basisOf)
    ensures s.firstMouse ==> r.1.yaw == cam.yaw
  {
    var (xoffset, yoffset) := MouseOffsets(s, xpos, ypos);
    var s' := s.(lastX := xpos, lastY := ypos, firstMouse := false);
    if s.mouseActive then (s', ProcessMouseMovement(cam, xoffset, yoffset, constrainPitch, basisOf))
    else (s', cam)
  }

  /** Feeds a sequence of pointer positions to the callback, first to last. */
  function CallbackTrace(s: MouseState, cam: Camera, events: seq<(real, real)>, constrainPitch: bool,
                         basisOf: (real, real, Vec3) -> Basis): (MouseState, Camera)
    decreases |events|
  {
    if |events| == 0 then (s, cam)
    else
      var (s1, cam1) := MouseCallback(s, cam, events[0].0, events[0].1, constrainPitch, basisOf);
      CallbackTrace(s1, cam1, events[1..], constrainPitch, basisOf)
  }

  /** Where the first delta of a trace is measured from. */
  function ReferenceX(s: MouseState, events: seq<(real, real)>): real
    requires |events| > 0
  {
    if s.firstMouse then events[0].0 else s.lastX
  }

  /**
    While captured, the deltas telescope: after a run of events the yaw has moved
    by sensitivity times the distance from the reference position to the last
    event, however the pointer got there.
  */
  lemma {:induction false} CapturedYawTelescopes(s: MouseState, cam: Camera, events: seq<(real, real)>,
                                                constrainPitch: bool, basisOf: (real, real, Vec3) -> Basis)
    requires s.mouseActive && |events| > 0
    ensures CallbackTrace(s, cam, events, constrainPitch, basisOf).1.yaw
            == cam.yaw + cam.mouseSensitivity * (events[|events| - 1].0 - ReferenceX(s, events))
    ensures CallbackTrace(s, cam, events, constrainPitch, basisOf).0
            == MouseState(events[|events| - 1].0, events[|events| - 1].1, false, true)
    decreases |events|
  {
    var (s1, cam1) := MouseCallback(s, cam, events[0].0, events[0].1, constrainPitch, basisOf);
    var d := MouseOffsets(s, events[0].0, events[0].1);
    assert cam1.yaw == cam.yaw + d.0 * cam.mouseSensitivity;
    assert d.0 == events[0].0 - ReferenceX(s, events);
    if |events| > 1 {
      CapturedYawTelescopes(s1, cam1, events[1..], constrainPitch, basisOf);
      assert ReferenceX(s1, events[1..]) == events[0].0;
      assert events[1..][|events[1..]| - 1] == events[|events| - 1];
    }
  }

  /** While released, no sequence of pointer events moves the camera. */
  lemma {:induction false} ReleasedIgnoresPointer(s: MouseState, cam: Camera, events: seq<(real, real)>,
                                                 constrainPitch: bool, basisOf: (real, real, Vec3) -> Basis)
    requires !s.mouseActive
    ensures CallbackTrace(s, cam, events, constrainPitch, basisOf).1 == cam
    ensures !CallbackTrace(s, cam, events, constrainPitch, basisOf).0.mouseActive
    decreases |events|
  {
    if |events| > 0 {
      var (s1, cam1) := MouseCallback(s, cam, events[0].0, events[0].1, constrainPitch, basisOf);
      ReleasedIgnoresPointer(s1, cam1, events[1..], constrainPitch, basisOf);
    }
  }

  /** Q captures the mouse, then E releases it; E is handled last, so it wins. */
  function MouseToggle(mouseActive: bool, q: bool, e: bool): (r: bool)
    ensures e ==> !r
    ensures q && !e ==> r
    ensures !q && !e ==> r == mouseActive
  {
    var afterQ := if q then true else mouseActive;
    if e then false else afterQ
  }

  /** Net travel of a pair of opposing keys: one step forward, one back, or none. */
  function Net(plus: bool, minus: bool, step: real): real {
    (if plus then step else 0.0) + (if minus then -step else 0.0)
  }

  /** One movement key: a pressed key moves the camera, a released one leaves it alone. */
  function Press(c: Camera, pressed: bool, dir: Movement, deltaTime: real): Camera {
    if pressed then ProcessKeyboard(c, dir, deltaTime) else c
  }

  /** Whether any key of a frame's key list is down. */
  function AnyPressed(keys: seq<(bool, Movement)>): bool
    decreases |keys|
  {
    |keys| > 0 && (keys[0].0 || AnyPressed(keys[1..]))
  }

  /** Signed step of one key along x (z when `alongZ`), measured on `c`'s basis. */
  function KeyTravel(c: Camera, key: (bool, Movement), deltaTime: real, alongZ: bool): real {
    if !key.0 then 0.0
    else if alongZ then Displacement(c, key.1, deltaTime).z
    else Displacement(c, key.1, deltaTime).x
  }

  /** Sum of the signed steps of a key list, all measured on `c`'s basis. */
  function Travel(c: Camera, keys: seq<(bool, Movement)>, deltaTime: real, alongZ: bool): real
    decreases |keys|
  {
    if |keys| == 0 then 0.0 else KeyTravel(c, keys[0], deltaTime, alongZ) + Travel(c, keys[1..], deltaTime, alongZ)
  }

  /** Travel reads only the basis and the speed, never the position. */
  lemma {:induction false} TravelIgnoresPosition(c: Camera, c': Camera, keys: seq<(bool, Movement)>,
                                                deltaTime: real, alongZ: bool)
    requires c' == c.(position := c'.position)
    ensures Travel(c', keys, deltaTime, alongZ) == Travel(c, keys, deltaTime, alongZ)
    decreases |keys|
  {
    if |keys| > 0 {
      assert Displacement(c', keys[0].1, deltaTime) == Displacement(c, keys[0].1, deltaTime) by {
        assert c'.front == c.front && c'.right == c.right && c'.movementSpeed == c.movementSpeed;
      }
      TravelIgnoresPosition(c, c', keys[1..], deltaTime, alongZ);
    }
  }

  /**
    Handles a list of movement keys in order. Moving never turns the camera, so
    the steps add up on the starting basis; any pressed key leaves the eye at
    the pinned height; with none pressed nothing changes.
  */
  function PressAll(c: Camera, keys: seq<(bool, Movement)>, deltaTime: real): (r: Camera)
    ensures r == c.(position := r.position)
    ensures AnyPressed(keys) ==> r.position.y == PinnedHeight
    ensures !AnyPressed(keys) ==> r == c
    ensures r.position.x == c.position.x + Travel(c, keys, deltaTime, false)
    ensures r.position.z == c.position.z + Travel(c, keys, deltaTime, true)
    decreases |keys|
  {
    if |keys| == 0 then c
    else
      var c1 := Press(c, keys[0].0, keys[0].1, deltaTime);
      TravelIgnoresPosition(c, c1, keys[1..], deltaTime, false);
      TravelIgnoresPosition(c, c1, keys[1..], deltaTime, true);
      PressAll(c1, keys[1..], deltaTime)
  }

  /** The movement keys in the order the frame handles them. */
  function MovementKeys(w: bool, s: bool, a: bool, d: bool): seq<(bool, Movement)> {
    [(w, Forward), (s, Backward), (a, Left), (d, Right)]
  }

  /** W, S, A and D are each handled, in that order, with the frame's elapsed time. */
  function MoveKeys(cam: Camera, w: bool, s: bool, a: bool, d: bool, deltaTime: real): (r: Camera)
    ensures (w || s || a || d) ==> r.position.y == PinnedHeight
    ensures !(w || s || a || d) ==> r == cam
    ensures r == cam.(position := r.position)
  {
    var keys := MovementKeys(w, s, a, d);
    assert AnyPressed(keys) == (w || s || a || d) by {
      assert keys[1..] == [(s, Backward), (a, Left), (d, Right)];
      assert keys[1..][1..] == [(a, Left), (d, Right)];
      assert keys[1..][1..][1..] == [(d, Right)];
      assert keys[1..][1..][1..][1..] == [];
      assert AnyPressed(keys[1..][1..][1..]) == d;
      assert AnyPressed(keys[1..][1..]) == (a || d);
      assert AnyPressed(keys[1..]) == (s || a || d);
    }
    PressAll(cam, keys, deltaTime)
  }

  /** Summed over the four movement keys, the x travel is the two pairs' net steps. */
  lemma MovementKeysTravelX(cam: Camera, w: bool, s: bool, a: bool, d: bool, deltaTime: real)
    ensures Travel(cam, MovementKeys(w, s, a, d), deltaTime, false)
            == Net(w, s, cam.front.x * (cam.movementSpeed * deltaTime)) + Net(d, a, cam.right.x * (cam.movementSpeed * deltaTime))
  {
    var alongZ := false;
    var keys := MovementKeys(w, s, a, d);
    var f := cam.front.x * (cam.movementSpeed * deltaTime);
    var g := cam.right.x * (cam.movementSpeed * deltaTime);
    var k3, k2, k1 := keys[1..][1..][1..], keys[1..][1..], keys[1..];
    assert k1 == [(s, Backward), (a, Left), (d, Right)];
    assert k2 == [(a, Left), (d, Right)];
    assert k3 == [(d, Right)];
    assert k3[1..] == [];
    assert Travel(cam, k3, deltaTime, alongZ) == (if d then g else 0.0);
    assert Travel(cam, k2, deltaTime, alongZ) == (if a then -g else 0.0) + Travel(cam, k3, deltaTime, alongZ);
    assert Travel(cam, k1, deltaTime, alongZ) == (if s then -f else 0.0) + Travel(cam, k2, deltaTime, alongZ);
    assert Travel(cam, keys, deltaTime, alongZ) == (if w then f else 0.0) + Travel(cam, k1, deltaTime, alongZ);
  }

  /** Summed over the four movement keys, the z travel is the two pairs' net steps. */
  lemma MovementKeysTravelZ(cam: Camera, w: bool, s: bool, a: bool, d: bool, deltaTime: real)
    ensures Travel(cam, MovementKeys(w, s, a, d), deltaTime, true)
            == Net(w, s, cam.front.z * (cam.movementSpeed * deltaTime)) + Net(d, a, cam.right.z * (cam.movementSpeed * deltaTime))
  {
    var alongZ := true;
    var keys := MovementKeys(w, s, a, d);
    var f := cam.front.z * (cam.movementSpeed * deltaTime);
    var g := cam.right.z * (cam.movementSpeed * deltaTime);
    var k3, k2, k1 := keys[1..][1..][1..], keys[1..][1..], keys[1..];
    assert k1 == [(s, Backward), (a, Left), (d, Right)];
    assert k2 == [(a, Left), (d, Right)];
    assert k3 == [(d, Right)];
    assert k3[1..] == [];
    assert Travel(cam, k3, deltaTime, alongZ) == (if d then g else 0.0);
    assert Travel(cam, k2, deltaTime, alongZ) == (if a then -g else 0.0) + Travel(cam, k3, deltaTime, alongZ);
    assert Travel(cam, k1, deltaTime, alongZ) == (if s then -f else 0.0) + Travel(cam, k2, deltaTime, alongZ);
    assert Travel(cam, keys, deltaTime, alongZ) == (if w then f else 0.0) + Travel(cam, k1, deltaTime, alongZ);
  }

  /**
    The frame's net horizontal travel: W and S cancel along front, D and A cancel
    along right, each step being speed times elapsed time.
  */
  lemma MoveKeysDisplacement(cam: Camera, w: bool, s: bool, a: bool, d: bool, deltaTime: real)
    ensures MoveKeys(cam, w, s, a, d, deltaTime).position.x == cam.position.x
              + (Net(w, s, cam.front.x * (cam.movementSpeed * deltaTime))
                 + Net(d, a, cam.right.x * (cam.movementSpeed * deltaTime)))
    ensures MoveKeys(cam, w, s, a, d, deltaTime).position.z == cam.position.z
              + (Net(w, s, cam.front.z * (cam.movementSpeed * deltaTime))
                 + Net(d, a, cam.right.z * (cam.movementSpeed * deltaTime)))
  {
    MovementKeysTravelX(cam, w, s, a, d, deltaTime);
    MovementKeysTravelZ(cam, w, s, a, d, deltaTime);
  }
}
