/**
  The HDR tone-mapping demo's per-frame state: the space-bar latch that toggles
  tone mapping once per press, the exposure stepper on the arrow keys, and the
  light list uploaded every frame.
*/
module Hdr {
  import opened Vectors
  import opened Camera
  import opened Input

  const ScreenWidth: nat := 1000
  const ScreenHeight: nat := 800
  const ExposureStep: real := 0.01
  const InitialExposure: real := 1.0

  /** Light positions in upload order: the back light first, then three dim ones. */
  const LightPositions: seq<Vec3> := [
    Vec3(0.0, 0.0, 49.5),
    Vec3(-1.4, -1.9, 9.0),
    Vec3(0.0, -1.8, 4.0),
    Vec3(0.8, -1.7, 6.0)
  ]

  const LightColors: seq<Vec3> := [
    Vec3(200.0, 200.0, 200.0),
    Vec3(0.1, 0.0, 0.0),
    Vec3(0.0, 0.0, 0.2),
    Vec3(0.0, 0.1, 0.0)
  ]

  /** Everything the HDR demo's input handling reads and writes. */
  datatype HdrDemo = HdrDemo(camera: Camera, mouse: MouseState, hdr: bool, hdrKeyPressed: bool, exposure: real)

  /** Start-up state: tone mapping on, latch clear, exposure 1.0. */
  function InitialHdr(cam: Camera): (st: HdrDemo)
    ensures st.hdr && !st.hdrKeyPressed && st.exposure == InitialExposure
    ensures st.mouse.firstMouse && st.mouse.mouseActive
  {
    HdrDemo(cam, InitialMouse(ScreenWidth, ScreenHeight), true, false, InitialExposure)
  }

  /**
    The space-bar latch: a press with the latch clear flips tone mapping and sets
    the latch; a released space clears the latch and leaves tone mapping alone.
  */
  function HdrLatch(hdr: bool, hdrKeyPressed: bool, space: bool): (r: (bool, bool))
    ensures r.1 == space
    ensures space && !hdrKeyPressed ==> r.0 == !hdr
    ensures !(space && !hdrKeyPressed) ==> r.0 == hdr
  {
    var (h1, l1) := if space && !hdrKeyPressed then (!hdr, true) else (hdr, hdrKeyPressed);
    if !space then (h1, false) else (h1, l1)
  }

  /** Runs the latch over the space-bar state of successive frames. */
  function RunLatch(hdr: bool, hdrKeyPressed: bool, frames: seq<bool>): (bool, bool)
    decreases |frames|
  {
    if |frames| == 0 then (hdr, hdrKeyPressed)
    else
      var (h1, l1) := HdrLatch(hdr, hdrKeyPressed, frames[0]);
      RunLatch(h1, l1, frames[1..])
  }

  /** Number of frames where space goes down, given whether it was down before the first. */
  function Presses(wasDown: bool, frames: seq<bool>): nat
    decreases |frames|
  {
    if |frames| == 0 then 0
    else (if frames[0] && !wasDown then 1 else 0) + Presses(frames[0], frames[1..])
  }

  /**
    Tone mapping flips once per press of the space bar, however long it is held:
    after any run of frames the flag has flipped as many times as space went
    down, and the latch records whether space is down in the last frame.
  */
  lemma {:induction false} LatchFlipsOncePerPress(hdr: bool, hdrKeyPressed: bool, frames: seq<bool>)
    ensures RunLatch(hdr, hdrKeyPressed, frames).0 == (hdr != (Presses(hdrKeyPressed, frames) % 2 == 1))
    ensures RunLatch(hdr, hdrKeyPressed, frames).1 == (if |frames| == 0 then hdrKeyPressed else frames[|frames| - 1])
    decreases |frames|
  {
    if |frames| > 0 {
      var (h1, l1) := HdrLatch(hdr, hdrKeyPressed, frames[0]);
      LatchFlipsOncePerPress(h1, l1, frames[1..]);
      if |frames| > 1 {
        assert frames[1..][|frames[1..]| - 1] == frames[|frames| - 1];
      }
    }
  }

  /** Holding space never counts as a new press. */
  lemma {:induction false} HeldSpaceNoPresses(k: nat)
    ensures Presses(true, seq(k, _ => true)) == 0
  {
    if k > 0 {
      assert seq(k, _ => true)[1..] == seq(k - 1, _ => true);
      HeldSpaceNoPresses(k - 1);
    }
  }

  /** Holding space over any number of frames, from a clear latch, flips tone mapping exactly once. */
  lemma HeldSpaceFlipsOnce(hdr: bool, k: nat)
    requires k >= 1
    ensures RunLatch(hdr, false, seq(k, _ => true)) == (!hdr, true)
  {
    var frames := seq(k, _ => true);
    assert frames[1..] == seq(k - 1, _ => true);
    HeldSpaceNoPresses(k - 1);
    LatchFlipsOncePerPress(hdr, false, frames);
  }

  /**
    The exposure keys: DOWN steps exposure down by 0.01 while positive and
    otherwise sets it to 0; UP, only looked at when DOWN is released, steps it
    up by 0.01 without bound.
  */
  function StepExposure(exposure: real, down: bool, up: bool): (r: real)
    ensures down && exposure > 0.0 ==> r == exposure - ExposureStep
    ensures down && exposure <= 0.0 ==> r == 0.0
    ensures !down && up ==> r == exposure + ExposureStep
    ensures !down && !up ==> r == exposure
    ensures exposure > -ExposureStep ==> r > -ExposureStep
  {
    if down then
      if exposure > 0.0 then exposure - ExposureStep else 0.0
    else if up then exposure + ExposureStep
    else exposure
  }

  /** With DOWN pressed, the UP key makes no difference. */
  lemma DownOverridesUp(exposure: real)
    ensures StepExposure(exposure, true, true) == StepExposure(exposure, true, false)
  {
  }

  /** The light list paired for upload; each position's index is also a valid color index. */
  function LightUniforms(): (r: seq<(Vec3, Vec3)>)
    ensures |r| == |LightPositions| == |LightColors| == 4
    ensures forall i :: 0 <= i < |r| ==> r[i] == (LightPositions[i], LightColors[i])
  {
    seq(|LightPositions|, i requires 0 <= i < |LightPositions| => (LightPositions[i], LightColors[i]))
  }

  /**
    One frame of keyboard handling: W/S/A/D move the camera, Q/E set mouse
    capture, space drives the latch and the arrows the exposure. None of it
    turns the camera or touches the pointer record beyond the capture flag.
  */
  function ProcessInput(st: HdrDemo, keys: Keys, deltaTime: real): (r: HdrDemo)
    ensures r.camera == MoveKeys(st.camera, keys.w, keys.s, keys.a, keys.d, deltaTime)
    ensures r.mouse == st.mouse.(mouseActive := r.mouse.mouseActive)
    ensures keys.e ==> !r.mouse.mouseActive
    ensures keys.q && !keys.e ==> r.mouse.mouseActive
    ensures !keys.q && !keys.e ==> r.mouse.mouseActive == st.mouse.mouseActive
    ensures r.hdrKeyPressed == keys.space
    ensures r.hdr != st.hdr <==> keys.space && !st.hdrKeyPressed
    ensures r.exposure == StepExposure(st.exposure, keys.down, keys.up)
  {
    var cam := MoveKeys(st.camera, keys.w, keys.s, keys.a, keys.d, deltaTime);
    var active := MouseToggle(st.mouse.mouseActive, keys.q, keys.e);
    var (hdr, latched) := HdrLatch(st.hdr, st.hdrKeyPressed, keys.space);
    var exposure := StepExposure(st.exposure, keys.down, keys.up);
    HdrDemo(cam, st.mouse.(mouseActive := active), hdr, latched, exposure)
  }

  /** Runs the keyboard handler over successive frames (keys and elapsed time per frame). */
  function RunFrames(st: HdrDemo, frames: seq<(Keys, real)>): HdrDemo
    decreases |frames|
  {
    if |frames| == 0 then st else RunFrames(ProcessInput(st, frames[0].0, frames[0].1), frames[1..])
  }

  /** From any exposure above -0.01, no sequence of frames drives exposure to -0.01 or below. */
  lemma {:induction false} ExposureStaysAboveFloor(st: HdrDemo, frames: seq<(Keys, real)>)
    requires st.exposure > -ExposureStep
    ensures RunFrames(st, frames).exposure > -ExposureStep
    decreases |frames|
  {
    if |frames| > 0 {
      ExposureStaysAboveFloor(ProcessInput(st, frames[0].0, frames[0].1), frames[1..]);
    }
  }

  /** The start-up state meets the floor, so the bound holds over every run of the keyboard handler. */
  lemma ExposureFloorFromStart(cam: Camera, frames: seq<(Keys, real)>)
    ensures RunFrames(InitialHdr(cam), frames).exposure > -ExposureStep
  {
    ExposureStaysAboveFloor(InitialHdr(cam), frames);
  }
}
