/**
  The PBR demo's scheduling and layout rules: the prefilter pass per mip level
  of the specular cubemap, the 7 x 7 grid of material spheres, the light list,
  and the per-frame keyboard handling.
*/
module PbrScene {
  import opened Vectors
  import opened Camera
  import opened Input

  const ScreenWidth: nat := 1200
  const ScreenHeight: nat := 695

  // ---------------------------------------------------------------------------
  // Prefilter mip schedule

  const MaxMipLevels: nat := 5
  const PrefilterBaseSize: nat := 128

  /** 0.5 raised to the mip level. */
  function HalfPower(mip: nat): (r: real)
    ensures 0.0 < r <= 1.0
  {
    if mip == 0 then 1.0 else 0.5 * HalfPower(mip - 1)
  }

  /** 2 raised to the mip level. */
  function Pow2(mip: nat): (r: nat)
    ensures r >= 1
  {
    if mip == 0 then 1 else 2 * Pow2(mip - 1)
  }

  /** Side of the square render target for a mip level: 128 * 0.5^mip, truncated to an unsigned int. */
  function MipSize(mip: nat): nat {
    var exact := PrefilterBaseSize as real * HalfPower(mip);
    exact.Floor
  }

  /** The roughness a mip level is prefiltered for. */
  function MipRoughness(mip: nat): real {
    mip as real / (MaxMipLevels - 1) as real
  }

  /** 2^(k+mip) * 0.5^mip == 2^k: halving undoes doubling. */
  lemma {:induction false} HalfPowerCancels(k: nat, mip: nat)
    ensures Pow2(k + mip) as real * HalfPower(mip) == Pow2(k) as real
  {
    if mip > 0 {
      HalfPowerCancels(k, mip - 1);
      var a := Pow2(k + mip - 1) as real;
      var b := HalfPower(mip - 1);
      assert Pow2(k + mip) as real == 2.0 * a;
      assert (2.0 * a) * (0.5 * b) == a * b;
    }
  }

  /** Up to mip 7 the size is exact: 128 >> mip, and doubling it mip times gives back 128. */
  lemma {:induction false} MipSizeIsShift(mip: nat)
    requires mip <= 7
    ensures MipSize(mip) == Pow2(7 - mip)
    ensures MipSize(mip) * Pow2(mip) == PrefilterBaseSize
  {
    HalfPowerCancels(7 - mip, mip);
    assert 7 - mip + mip == 7;
    assert Pow2(7) == PrefilterBaseSize;
    Pow2Sum(7 - mip, mip);
  }

  lemma {:induction false} Pow2Sum(a: nat, b: nat)
    ensures Pow2(a + b) == Pow2(a) * Pow2(b)
  {
    if b > 0 {
      Pow2Sum(a, b - 1);
      assert Pow2(a + b) == 2 * Pow2(a + b - 1);
    }
  }

  /** Roughness runs from 0 at the first level to 1 at the last, strictly increasing. */
  lemma RoughnessSpansUnitInterval(a: nat, b: nat)
    requires a < b < MaxMipLevels
    ensures MipRoughness(0) == 0.0 && MipRoughness(MaxMipLevels - 1) == 1.0
    ensures 0.0 <= MipRoughness(a) < MipRoughness(b) <= 1.0
  {
  }

  /** One prefilter pass: the mip level rendered, its viewport and the roughness uniform. */
  datatype PrefilterPass = PrefilterPass(mip: nat, width: nat, height: nat, roughness: real)

  /** The pass the loop issues for a mip level. */
  function PassFor(mip: nat): PrefilterPass {
    PrefilterPass(mip, MipSize(mip), MipSize(mip), MipRoughness(mip))
  }

  /**
    The prefilter loop: one pass per mip level 0..4, each with a square target
    of 128 >> mip and roughness mip/4.
  */
  method PrefilterSchedule() returns (passes: seq<PrefilterPass>)
    ensures |passes| == MaxMipLevels
    ensures forall i :: 0 <= i < |passes| ==>
              passes[i].mip == i && passes[i].width == passes[i].height
              && passes[i].width * Pow2(i) == PrefilterBaseSize
              && passes[i].roughness == i as real / 4.0
    ensures [passes[0].width, passes[1].width, passes[2].width, passes[3].width, passes[4].width]
            == [128, 64, 32, 16, 8]
  {
    passes := [];
    var mip: nat := 0;
    while mip < MaxMipLevels
      invariant mip <= MaxMipLevels
      invariant |passes| == mip
      invariant forall i :: 0 <= i < |passes| ==> passes[i] == PassFor(i)
    {
      var size := MipSize(mip);
      passes := passes + [PrefilterPass(mip, size, size, MipRoughness(mip))];
      mip := mip + 1;
    }
    forall i | 0 <= i < |passes|
      ensures passes[i].width * Pow2(i) == PrefilterBaseSize
    {
      MipSizeIsShift(i);
    }
    MipSizeIsShift(0);
    MipSizeIsShift(1);
    MipSizeIsShift(2);
    MipSizeIsShift(3);
    MipSizeIsShift(4);
    assert Pow2(7) == 128 && Pow2(6) == 64 && Pow2(5) == 32 && Pow2(4) == 16 && Pow2(3) == 8;
  }

  // ---------------------------------------------------------------------------
  // Material sphere grid

  const NrRows: int := 7
  const NrColumns: int := 7
  const Spacing: real := 2.5
  const GridDepth: real := -2.0
  const MinRoughness: real := 0.05

  /** glm::clamp on floats. */
  function Clamp(x: real, lo: real, hi: real): (r: real)
    requires lo <= hi
    ensures lo <= r <= hi
    ensures lo <= x <= hi ==> r == x
    ensures x < lo ==> r == lo
    ensures x > hi ==> r == hi
  {
    if x < lo then lo else if x > hi then hi else x
  }

  /** One sphere of the grid: the metallic and roughness uniforms and its translation. */
  datatype GridSphere = GridSphere(metallic: real, roughness: real, offset: Vec3)

  /**
    The sphere at a grid row and column: metallic row/7, roughness col/7 clamped
    to [0.05, 1], centred on the middle row and column (7/2 == 3 in integer
    division) with 2.5 units between neighbours.
  */
  function GridCell(row: int, col: int): (g: GridSphere)
    requires 0 <= row < NrRows && 0 <= col < NrColumns
    ensures 0.0 <= g.metallic < 1.0
    ensures MinRoughness <= g.roughness <= 1.0
    ensures -3.0 * Spacing <= g.offset.x <= 3.0 * Spacing
    ensures -3.0 * Spacing <= g.offset.y <= 3.0 * Spacing
    ensures g.offset.z == GridDepth
  {
    GridSphere(
      row as real / NrRows as real,
      Clamp(col as real / NrColumns as real, MinRoughness, 1.0),
      Vec3((col - NrColumns / 2) as real * Spacing, (row - NrRows / 2) as real * Spacing, GridDepth))
  }

  /** Position of a grid sphere in the order the demo draws them. */
  function GridIndex(row: int, col: int): int {
    row * NrColumns + col
  }

  /** The draw loop: rows outer, columns inner, one sphere each. */
  method SphereGrid() returns (cells: seq<GridSphere>)
    ensures |cells| == NrRows * NrColumns
    ensures forall row, col :: 0 <= row < NrRows && 0 <= col < NrColumns ==>
              0 <= GridIndex(row, col) < |cells| && cells[GridIndex(row, col)] == GridCell(row, col)
  {
    cells := [];
    var row := 0;
    while row < NrRows
      invariant 0 <= row <= NrRows
      invariant |cells| == row * NrColumns
      invariant forall r, c :: 0 <= r < row && 0 <= c < NrColumns ==>
                  0 <= GridIndex(r, c) < |cells| && cells[GridIndex(r, c)] == GridCell(r, c)
    {
      var col := 0;
      while col < NrColumns
        invariant 0 <= col <= NrColumns
        invariant |cells| == row * NrColumns + col
        invariant forall r, c :: 0 <= r < row && 0 <= c < NrColumns ==>
                    0 <= GridIndex(r, c) < |cells| && cells[GridIndex(r, c)] == GridCell(r, c)
        invariant forall c :: 0 <= c < col ==> cells[GridIndex(row, c)] == GridCell(row, c)
      {
        cells := cells + [GridCell(row, col)];
        col := col + 1;
      }
      row := row + 1;
    }
  }

  /** Only the first column is raised by the clamp; every other column gets exactly col/7. */
  lemma RoughnessClampOnlyFirstColumn(row: int, col: int)
    requires 0 <= row < NrRows && 0 <= col < NrColumns
    ensures col == 0 ==> GridCell(row, col).roughness == MinRoughness
    ensures col > 0 ==> GridCell(row, col).roughness == col as real / NrColumns as real
  {
  }

  /** Metallic grows strictly with the row and roughness never falls along a row. */
  lemma MaterialsOrdered(r1: int, c1: int, r2: int, c2: int)
    requires 0 <= r1 < NrRows && 0 <= c1 < NrColumns && 0 <= r2 < NrRows && 0 <= c2 < NrColumns
    ensures r1 < r2 ==> GridCell(r1, c1).metallic < GridCell(r2, c2).metallic
    ensures c1 <= c2 ==> GridCell(r1, c1).roughness <= GridCell(r2, c2).roughness
  {
  }

  /** No two grid spheres share a position, and the grid is symmetric about its centre sphere. */
  lemma GridLayout(r1: int, c1: int, r2: int, c2: int)
    requires 0 <= r1 < NrRows && 0 <= c1 < NrColumns && 0 <= r2 < NrRows && 0 <= c2 < NrColumns
    ensures GridCell(r1, c1).offset == GridCell(r2, c2).offset <==> r1 == r2 && c1 == c2
    ensures GridCell(r1, c1).offset.x == -GridCell(r1, NrColumns - 1 - c1).offset.x
    ensures GridCell(r1, c1).offset.y == -GridCell(NrRows - 1 - r1, c1).offset.y
    ensures GridCell(NrRows / 2, NrColumns / 2).offset == Vec3(0.0, 0.0, GridDepth)
  {
  }

  // ---------------------------------------------------------------------------
  // Lights

  /** Four lights at the corners of a square in front of the grid and one far behind it. */
  const LightPositions: seq<Vec3> := [
    Vec3(-7.5, 7.5, 7.5),
    Vec3(7.5, 7.5, 7.5),
    Vec3(-7.5, -7.5, 7.5),
    Vec3(7.5, -7.5, 7.5),
    Vec3(0.0, 0.0, -20.0)
  ]

  const LightColors: seq<Vec3> := [Splat(300.0), Splat(300.0), Splat(300.0), Splat(300.0), Splat(300.0)]

  /**
    The light loop, which runs over the position array's length. It computes a
    time-dependent sideways wobble and then overwrites it with the fixed
    position, so the uploaded lights do not move: the result is the same at
    every time.
  */
  function LightUniforms(time: real, sin: real -> real): (r: seq<(Vec3, Vec3)>)
    ensures |r| == |LightPositions| == |LightColors| == 5
    ensures forall i :: 0 <= i < |r| ==> r[i] == (LightPositions[i], LightColors[i])
  {
    seq(|LightPositions|, i requires 0 <= i < |LightPositions| =>
      var wobbled := Add(LightPositions[i], Vec3(sin(time * 5.0) * 5.0, 0.0, 0.0));
      var newPos := LightPositions[i];
      (newPos, LightColors[i]))
  }

  /** The uploaded light list does not depend on the clock or the wobble function. */
  lemma LightsIgnoreTime(t1: real, t2: real, sin1: real -> real, sin2: real -> real)
    ensures LightUniforms(t1, sin1) == LightUniforms(t2, sin2)
  {
  }

  // ---------------------------------------------------------------------------
  // Per-frame input

  /** Everything the PBR demo's input handling reads and writes. */
  datatype PbrDemo = PbrDemo(camera: Camera, mouse: MouseState)

  /** Start-up state: pointer at the centre of the 1200 x 695 window, capture on. */
  function InitialPbr(cam: Camera): (st: PbrDemo)
    ensures st.mouse.firstMouse && st.mouse.mouseActive
    ensures st.mouse.lastX == 600.0 && st.mouse.lastY == 347.5
  {
    PbrDemo(cam, InitialMouse(ScreenWidth, ScreenHeight))
  }

  /**
    One frame of keyboard handling: W/S/A/D move the camera and Q/E set mouse
    capture; nothing else in the demo's state changes.
  */
  function ProcessInput(st: PbrDemo, keys: Keys, deltaTime: real): (r: PbrDemo)
    ensures r.camera == MoveKeys(st.camera, keys.w, keys.s, keys.a, keys.d, deltaTime)
    ensures r.mouse == st.mouse.(mouseActive := r.mouse.mouseActive)
    ensures keys.e ==> !r.mouse.mouseActive
    ensures keys.q && !keys.e ==> r.mouse.mouseActive
    ensures !keys.q && !keys.e ==> r.mouse.mouseActive == st.mouse.mouseActive
  {
    var cam := MoveKeys(st.camera, keys.w, keys.s, keys.a, keys.d, deltaTime);
    PbrDemo(cam, st.mouse.(mouseActive := MouseToggle(st.mouse.mouseActive, keys.q, keys.e)))
  }
}
