/**
  The parallax-mapping demo's per-frame state: the height-scale stepper on the
  arrow keys, kept in [0, 1] up to one step of overshoot.
*/
module Parallax {
  import opened Camera
  import opened Input

  const ScreenWidth: nat := 1920
  const ScreenHeight: nat := 1080
  const HeightStep: real := 0.0005
  const InitialHeightScale: real := 0.1

  /** Everything the parallax demo's input handling reads and writes. */
  datatype ParallaxDemo = ParallaxDemo(camera: Camera, mouse: MouseState, heightScale: real)

  /** Start-up state: height scale 0.1, pointer at the screen centre. */
  function InitialParallax(cam: Camera): (st: ParallaxDemo)
    ensures st.heightScale == InitialHeightScale
    ensures st.mouse.firstMouse && st.mouse.mouseActive
  {
    ParallaxDemo(cam, InitialMouse(ScreenWidth, ScreenHeight), InitialHeightScale)
  }

  /** The band the height scale never leaves: [0, 1] widened by one step on each side, open. */
  predicate InBand(h: real) {
    -HeightStep < h < 1.0 + HeightStep
  }

  /**
    The height keys: UP lowers the scale by 0.0005 while positive and otherwise
    sets it to 0; DOWN, only looked at when UP is released, raises it by 0.0005
    while below 1 and otherwise sets it to 1.
  */
  function StepHeightScale(h: real, up: bool, down: bool): (r: real)
    ensures up && h > 0.0 ==> r == h - HeightStep
    ensures up && h <= 0.0 ==> r == 0.0
    ensures !up && down && h < 1.0 ==> r == h + HeightStep
    ensures !up && down && h >= 1.0 ==> r == 1.0
    ensures !up && !down ==> r == h
    ensures InBand(h) ==> InBand(r)
  {
    if up then
      if h > 0.0 then h - HeightStep else 0.0
    else if down then
      if h < 1.0 then h + HeightStep else 1.0
    else h
  }

  /** With UP pressed, the DOWN key makes no difference. */
  lemma UpOverridesDown(h: real)
    ensures StepHeightScale(h, true, true) == StepHeightScale(h, true, false)
  {
  }

  /**
    One frame of keyboard handling: W/S/A/D move the camera, Q/E set mouse
    capture, the arrows drive the height scale.
  */
  function ProcessInput(st: ParallaxDemo, keys: Keys, deltaTime: real): (r: ParallaxDemo)
    ensures r.camera == MoveKeys(st.camera, keys.w, keys.s, keys.a, keys.d, deltaTime)
    ensures r.mouse == st.mouse.(mouseActive := r.mouse.mouseActive)
    ensures keys.e ==> !r.mouse.mouseActive
    ensures keys.q && !keys.e ==> r.mouse.mouseActive
    ensures !keys.q && !keys.e ==> r.mouse.mouseActive == st.mouse.mouseActive
    ensures r.heightScale == StepHeightScale(st.heightScale, keys.up, keys.down)
  {
    var cam := MoveKeys(st.camera, keys.w, keys.s, keys.a, keys.d, deltaTime);
    var active := MouseToggle(st.mouse.mouseActive, keys.q, keys.e);
    ParallaxDemo(cam, st.mouse.(mouseActive := active), StepHeightScale(st.heightScale, keys.up, keys.down))
  }

  /** Runs the keyboard handler over successive frames (keys and elapsed time per frame). */
  function RunFrames(st: ParallaxDemo, frames: seq<(Keys, real)>): ParallaxDemo
    decreases |frames|
  {
    if |frames| == 0 then st else RunFrames(ProcessInput(st, frames[0].0, frames[0].1), frames[1..])
  }

  /** Once in the band, no sequence of frames takes the height scale out of it. */
  lemma {:induction false} HeightScaleStaysInBand(st: ParallaxDemo, frames: seq<(Keys, real)>)
    requires InBand(st.heightScale)
    ensures InBand(RunFrames(st, frames).heightScale)
    decreases |frames|
  {
    if |frames| > 0 {
      HeightScaleStaysInBand(ProcessInput(st, frames[0].0, frames[0].1), frames[1..]);
    }
  }

  /** The start-up value 0.1 is in the band, so the bound holds over every run of the keyboard handler. */
  lemma HeightBandFromStart(cam: Camera, frames: seq<(Keys, real)>)
    ensures InBand(RunFrames(InitialParallax(cam), frames).heightScale)
  {
    HeightScaleStaysInBand(InitialParallax(cam), frames);
  }
}
