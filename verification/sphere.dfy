/**
  The UV-sphere mesh of the PBR demo: a (X+1) x (Y+1) grid of vertices, one
  triangle strip that walks the rows in serpentine order, and one interleaved
  vertex buffer of position, texture coordinate and normal.

  The vertex positions come from sines and cosines of the grid coordinates; the
  model takes that map as the `surface` parameter and claims nothing about it.
*/
module Sphere {
  import opened Vectors

  const XSegments: nat := 128
  const YSegments: nat := 128

  /** Attribute layout of the interleaved buffer, in floats. */
  const PositionOffset: nat := 0
  const UvOffset: nat := 3
  const NormalOffset: nat := 5
  const StrideFloats: nat := 3 + 2 + 3

  // ---------------------------------------------------------------------------
  // Index strip

  /**
    Entry `t` of the strip segment for row `y`: pair t/2 visits column t/2 from
    the left on even rows and from the right on odd rows; even rows name row y
    first in each pair, odd rows name row y+1 first.
  */
  function StripEntry(xSeg: nat, y: nat, t: nat): nat
    requires t < 2 * (xSeg + 1)
  {
    var k := t / 2;
    var x := if y % 2 == 0 then k else xSeg - k;
    var row := if (t % 2 == 0) == (y % 2 == 0) then y else y + 1;
    row * (xSeg + 1) + x
  }

  /** The strip segment joining vertex row y to vertex row y+1. */
  function Row(xSeg: nat, y: nat): (r: seq<nat>)
    ensures |r| == 2 * (xSeg + 1)
  {
    seq(2 * (xSeg + 1), t requires 0 <= t < 2 * (xSeg + 1) => StripEntry(xSeg, y, t))
  }

  /** The whole strip over `rows` rows of quads: the row segments one after another. */
  function Strip(xSeg: nat, rows: nat): seq<nat>
  {
    if rows == 0 then [] else Strip(xSeg, rows - 1) + Row(xSeg, rows - 1)
  }

  /** The two indices of pair `p` of a strip. */
  function Pair(s: seq<nat>, p: nat): (nat, nat)
    requires 2 * p + 1 < |s|
  {
    (s[2 * p], s[2 * p + 1])
  }

  /** Two vertex indices in the same column of adjacent vertex rows. */
  predicate Adjacent(pair: (nat, nat), width: nat) {
    pair.1 == pair.0 + width || pair.0 == pair.1 + width
  }

  lemma MulMonotone(a: nat, b: nat, w: nat)
    requires a <= b
    ensures a * w <= b * w
  {
  }

  lemma MulSucc(a: nat, w: nat)
    ensures (a + 1) * w == a * w + w
  {
  }

  /** Each pair of a row joins column x of row y with column x of row y+1, in serpentine order. */
  lemma RowPairs(xSeg: nat, y: nat, i: nat)
    requires i <= xSeg
    ensures y % 2 == 0 ==> Pair(Row(xSeg, y), i) == (y * (xSeg + 1) + i, (y + 1) * (xSeg + 1) + i)
    ensures y % 2 == 1 ==> Pair(Row(xSeg, y), i) == ((y + 1) * (xSeg + 1) + (xSeg - i), y * (xSeg + 1) + (xSeg - i))
    ensures Adjacent(Pair(Row(xSeg, y), i), xSeg + 1)
  {
  }

  /** Every entry of row y's segment names a vertex of rows y or y+1. */
  lemma RowBounded(xSeg: nat, y: nat)
    ensures forall t :: 0 <= t < |Row(xSeg, y)| ==> Row(xSeg, y)[t] < (xSeg + 1) * (y + 2)
  {
  }

  /** The strip has two indices per column per row of quads. */
  lemma {:induction false} StripLength(xSeg: nat, rows: nat)
    ensures |Strip(xSeg, rows)| == 2 * (rows * (xSeg + 1))
  {
    if rows > 0 {
      StripLength(xSeg, rows - 1);
      MulSucc(rows - 1, xSeg + 1);
    }
  }

  /** No strip index reaches past the (xSeg+1) * (rows+1) vertices of the grid. */
  lemma {:induction false} StripBounded(xSeg: nat, rows: nat)
    ensures forall j :: 0 <= j < |Strip(xSeg, rows)| ==> Strip(xSeg, rows)[j] < (xSeg + 1) * (rows + 1)
  {
    if rows > 0 {
      var prefix := Strip(xSeg, rows - 1);
      var row := Row(xSeg, rows - 1);
      StripBounded(xSeg, rows - 1);
      RowBounded(xSeg, rows - 1);
      MulMonotone(rows, rows + 1, xSeg + 1);
      assert rows * (xSeg + 1) == (xSeg + 1) * rows;
      assert (rows + 1) * (xSeg + 1) == (xSeg + 1) * (rows + 1);
      forall j | 0 <= j < |Strip(xSeg, rows)|
        ensures Strip(xSeg, rows)[j] < (xSeg + 1) * (rows + 1)
      {
        if j < |prefix| {
          assert Strip(xSeg, rows)[j] == prefix[j];
        } else {
          assert Strip(xSeg, rows)[j] == row[j - |prefix|];
        }
      }
    }
  }

  /** Every pair of the strip joins the same column in adjacent vertex rows. */
  lemma {:induction false} StripPairsAdjacent(xSeg: nat, rows: nat)
    ensures forall p :: 0 <= 2 * p + 1 < |Strip(xSeg, rows)| ==> Adjacent(Pair(Strip(xSeg, rows), p), xSeg + 1)
  {
    if rows > 0 {
      var s := Strip(xSeg, rows);
      var prefix := Strip(xSeg, rows - 1);
      var row := Row(xSeg, rows - 1);
      StripPairsAdjacent(xSeg, rows - 1);
      StripLength(xSeg, rows - 1);
      var half := (rows - 1) * (xSeg + 1);
      assert |prefix| == 2 * half;
      forall p | 0 <= 2 * p + 1 < |s|
        ensures Adjacent(Pair(s, p), xSeg + 1)
      {
        if p < half {
          assert Pair(s, p) == Pair(prefix, p);
        } else {
          var i := p - half;
          assert Pair(s, p) == Pair(row, i);
          RowPairs(xSeg, rows - 1, i);
        }
      }
    }
  }

  /** Row y's segment sits at positions [2y(xSeg+1), 2(y+1)(xSeg+1)) of the strip: rows are emitted in order. */
  lemma {:induction false} StripRowsInOrder(xSeg: nat, rows: nat, y: nat)
    requires y < rows
    ensures 2 * ((y + 1) * (xSeg + 1)) <= |Strip(xSeg, rows)|
    ensures Strip(xSeg, rows)[2 * (y * (xSeg + 1)) .. 2 * ((y + 1) * (xSeg + 1))] == Row(xSeg, y)
  {
    StripLength(xSeg, rows - 1);
    StripLength(xSeg, rows);
    MulSucc(y, xSeg + 1);
    var prefix := Strip(xSeg, rows - 1);
    if y < rows - 1 {
      StripRowsInOrder(xSeg, rows - 1, y);
      MulMonotone(y + 1, rows - 1, xSeg + 1);
      assert Strip(xSeg, rows)[..|prefix|] == prefix;
    } else {
      assert Strip(xSeg, rows)[|prefix|..] == Row(xSeg, y);
    }
  }

  /** Row y's pairs left to right, row y first in each pair: the demo's even-row loop. */
  method EvenRowSegment(xSeg: nat, y: nat) returns (seg: seq<nat>)
    requires y % 2 == 0
    ensures seg == Row(xSeg, y)
  {
    var width := xSeg + 1;
    ghost var row := Row(xSeg, y);
    seg := [];
    var x: nat := 0;
    while x <= xSeg
      invariant x <= xSeg + 1
      invariant seg == row[..2 * x]
    {
      RowPairs(xSeg, y, x);
      assert row[..2 * (x + 1)] == row[..2 * x] + [row[2 * x], row[2 * x + 1]];
      seg := seg + [y * width + x, (y + 1) * width + x];
      x := x + 1;
    }
    assert row[..2 * x] == row;
  }

  /** Row y's pairs right to left, row y+1 first in each pair: the demo's odd-row loop. */
  method OddRowSegment(xSeg: nat, y: nat) returns (seg: seq<nat>)
    requires y % 2 == 1
    ensures seg == Row(xSeg, y)
  {
    var width := xSeg + 1;
    ghost var row := Row(xSeg, y);
    seg := [];
    var x: int := xSeg;
    while x >= 0
      invariant -1 <= x <= xSeg
      invariant seg == row[..2 * (xSeg - x)]
    {
      var i := xSeg - x;
      RowPairs(xSeg, y, i);
      assert row[..2 * (i + 1)] == row[..2 * i] + [row[2 * i], row[2 * i + 1]];
      seg := seg + [(y + 1) * width + x, y * width + x];
      x := x - 1;
    }
    assert row[..2 * (xSeg - x)] == row;
  }

  /**
    Builds the strip as the demo does: row by row, even rows left to right with
    row y first in each pair, odd rows right to left with row y+1 first.
  */
  method SphereIndices(xSeg: nat, ySeg: nat) returns (indices: seq<nat>)
    ensures indices == Strip(xSeg, ySeg)
    ensures |indices| == ySeg * 2 * (xSeg + 1)
    ensures forall j :: 0 <= j < |indices| ==> indices[j] < (xSeg + 1) * (ySeg + 1)
  {
    indices := [];
    var oddRow := false;
    var y: nat := 0;
    while y < ySeg
      invariant y <= ySeg
      invariant oddRow == (y % 2 == 1)
      invariant indices == Strip(xSeg, y)
    {
      var seg;
      if !oddRow {
        seg := EvenRowSegment(xSeg, y);
      } else {
        seg := OddRowSegment(xSeg, y);
      }
      indices := indices + seg;
      oddRow := !oddRow;
      y := y + 1;
    }
    StripLength(xSeg, ySeg);
    StripBounded(xSeg, ySeg);
    assert ySeg * 2 * (xSeg + 1) == 2 * (ySeg * (xSeg + 1));
  }

  // ---------------------------------------------------------------------------
  // Vertex grid

  /** Texture coordinate of grid vertex i, numbered row by row. */
  function UvOf(xSeg: nat, ySeg: nat, i: nat): Vec2
    requires xSeg > 0 && ySeg > 0
  {
    Vec2((i % (xSeg + 1)) as real / xSeg as real, (i / (xSeg + 1)) as real / ySeg as real)
  }

  /** The number of grid vertex i: row y, column x. */
  function VertexIndex(xSeg: nat, y: nat, x: nat): nat {
    y * (xSeg + 1) + x
  }

  /** Row and column are recovered from a vertex number. */
  lemma VertexIndexDivMod(xSeg: nat, y: nat, x: nat)
    requires x <= xSeg
    ensures VertexIndex(xSeg, y, x) / (xSeg + 1) == y
    ensures VertexIndex(xSeg, y, x) % (xSeg + 1) == x
  {
    var w := xSeg + 1;
    var i := y * w + x;
    var q, r := i / w, i % w;
    assert i == q * w + r;
    if q > y {
      MulMonotone(y + 1, q, w);
      MulSucc(y, w);
      assert false;
    } else if q < y {
      MulMonotone(q + 1, y, w);
      MulSucc(q, w);
      assert false;
    }
  }

  /** Vertex (x, y) of the grid sits at texture coordinate (x/X, y/Y). */
  lemma GridUv(xSeg: nat, ySeg: nat, y: nat, x: nat)
    requires xSeg > 0 && ySeg > 0 && x <= xSeg
    ensures UvOf(xSeg, ySeg, VertexIndex(xSeg, y, x)) == Vec2(x as real / xSeg as real, y as real / ySeg as real)
  {
    VertexIndexDivMod(xSeg, y, x);
  }

  /**
    Fills the vertex grid row by row: vertex number y(X+1)+x gets texture
    coordinate (x/X, y/Y), the surface point there, and that same point as its
    normal (the sphere is a unit sphere around the origin).
  */
  method SphereVertices(xSeg: nat, ySeg: nat, surface: (real, real) -> Vec3)
    returns (positions: seq<Vec3>, uvs: seq<Vec2>, normals: seq<Vec3>)
    requires xSeg > 0 && ySeg > 0
    ensures |positions| == |uvs| == |normals| == (xSeg + 1) * (ySeg + 1)
    ensures forall i :: 0 <= i < |uvs| ==> uvs[i] == UvOf(xSeg, ySeg, i)
    ensures forall i :: 0 <= i < |positions| ==> positions[i] == surface(uvs[i].x, uvs[i].y)
    ensures normals == positions
  {
    positions, uvs, normals := [], [], [];
    var y: nat := 0;
    while y <= ySeg
      invariant y <= ySeg + 1
      invariant |positions| == |uvs| == y * (xSeg + 1)
      invariant forall i :: 0 <= i < |uvs| ==> uvs[i] == UvOf(xSeg, ySeg, i)
      invariant forall i :: 0 <= i < |positions| ==> positions[i] == surface(uvs[i].x, uvs[i].y)
      invariant normals == positions
    {
      var x: nat := 0;
      while x <= xSeg
        invariant x <= xSeg + 1
        invariant |positions| == |uvs| == VertexIndex(xSeg, y, x)
        invariant forall i :: 0 <= i < |uvs| ==> uvs[i] == UvOf(xSeg, ySeg, i)
        invariant forall i :: 0 <= i < |positions| ==> positions[i] == surface(uvs[i].x, uvs[i].y)
        invariant normals == positions
      {
        var xSegment := x as real / xSeg as real;
        var ySegment := y as real / ySeg as real;
        GridUv(xSeg, ySeg, y, x);
        var p := surface(xSegment, ySegment);
        positions := positions + [p];
        uvs := uvs + [Vec2(xSegment, ySegment)];
        normals := normals + [p];
        x := x + 1;
      }
      MulSucc(y, xSeg + 1);
      y := y + 1;
    }
    assert (ySeg + 1) * (xSeg + 1) == (xSeg + 1) * (ySeg + 1);
  }

  // ---------------------------------------------------------------------------
  // Interleaved buffer

  /** Floats per vertex: 3 for position, plus 2 if there are texture coordinates, plus 3 if there are normals. */
  function Stride(uvs: seq<Vec2>, normals: seq<Vec3>): nat {
    3 + (if |uvs| > 0 then 2 else 0) + (if |normals| > 0 then 3 else 0)
  }

  /** Callers of the interleaver pass either no attribute list or one covering every vertex. */
  predicate Covers<T>(attribute: seq<T>, n: nat) {
    |attribute| == 0 || n <= |attribute|
  }

  /** The floats of vertex i: position, then texture coordinate and normal when present. */
  function VertexRecord(positions: seq<Vec3>, uvs: seq<Vec2>, normals: seq<Vec3>, i: nat): (r: seq<real>)
    requires i < |positions| && Covers(uvs, |positions|) && Covers(normals, |positions|)
    ensures |r| == Stride(uvs, normals)
  {
    [positions[i].x, positions[i].y, positions[i].z]
    + (if |uvs| > 0 then [uvs[i].x, uvs[i].y] else [])
    + (if |normals| > 0 then [normals[i].x, normals[i].y, normals[i].z] else [])
  }

  /** The records of the first n vertices, one after another. */
  function Packed(positions: seq<Vec3>, uvs: seq<Vec2>, normals: seq<Vec3>, n: nat): seq<real>
    requires n <= |positions| && Covers(uvs, |positions|) && Covers(normals, |positions|)
  {
    if n == 0 then [] else Packed(positions, uvs, normals, n - 1) + VertexRecord(positions, uvs, normals, n - 1)
  }

  /** The packed buffer holds one stride of floats per vertex. */
  lemma {:induction false} PackedLength(positions: seq<Vec3>, uvs: seq<Vec2>, normals: seq<Vec3>, n: nat)
    requires n <= |positions| && Covers(uvs, |positions|) && Covers(normals, |positions|)
    ensures |Packed(positions, uvs, normals, n)| == n * Stride(uvs, normals)
  {
    if n > 0 {
      PackedLength(positions, uvs, normals, n - 1);
      MulSucc(n - 1, Stride(uvs, normals));
    }
  }

  /** Vertex i's record occupies floats [i*stride, (i+1)*stride) of the packed buffer. */
  lemma {:induction false} PackedRecord(positions: seq<Vec3>, uvs: seq<Vec2>, normals: seq<Vec3>, n: nat, i: nat)
    requires n <= |positions| && Covers(uvs, |positions|) && Covers(normals, |positions|)
    requires i < n
    ensures (i + 1) * Stride(uvs, normals) <= |Packed(positions, uvs, normals, n)|
    ensures Packed(positions, uvs, normals, n)[i * Stride(uvs, normals) .. (i + 1) * Stride(uvs, normals)]
            == VertexRecord(positions, uvs, normals, i)
  {
    var k := Stride(uvs, normals);
    var prefix := Packed(positions, uvs, normals, n - 1);
    var whole := Packed(positions, uvs, normals, n);
    PackedLength(positions, uvs, normals, n - 1);
    MulSucc(i, k);
    if i < n - 1 {
      PackedRecord(positions, uvs, normals, n - 1, i);
      assert whole[..|prefix|] == prefix;
      assert whole[i * k .. (i + 1) * k] == prefix[i * k .. (i + 1) * k];
    } else {
      assert whole[|prefix|..] == VertexRecord(positions, uvs, normals, n - 1);
    }
  }

  /** The packed buffer is the vertices' records laid end to end, one stride each. */
  lemma {:induction false} PackedLayout(positions: seq<Vec3>, uvs: seq<Vec2>, normals: seq<Vec3>, n: nat)
    requires n <= |positions| && Covers(uvs, |positions|) && Covers(normals, |positions|)
    ensures |Packed(positions, uvs, normals, n)| == n * Stride(uvs, normals)
    ensures forall i :: 0 <= i < n ==>
              (i + 1) * Stride(uvs, normals) <= n * Stride(uvs, normals)
              && Packed(positions, uvs, normals, n)[i * Stride(uvs, normals) .. (i + 1) * Stride(uvs, normals)]
                 == VertexRecord(positions, uvs, normals, i)
  {
    PackedLength(positions, uvs, normals, n);
    forall i | 0 <= i < n
      ensures (i + 1) * Stride(uvs, normals) <= n * Stride(uvs, normals)
      ensures Packed(positions, uvs, normals, n)[i * Stride(uvs, normals) .. (i + 1) * Stride(uvs, normals)]
              == VertexRecord(positions, uvs, normals, i)
    {
      PackedRecord(positions, uvs, normals, n, i);
    }
  }

  /**
    Interleaves the attribute lists into one float buffer, vertex by vertex, with
    the optional attributes included only when their lists are non-empty.
  */
  method Interleave(positions: seq<Vec3>, uvs: seq<Vec2>, normals: seq<Vec3>) returns (data: seq<real>)
    requires Covers(uvs, |positions|) && Covers(normals, |positions|)
    ensures data == Packed(positions, uvs, normals, |positions|)
    ensures |data| == |positions| * Stride(uvs, normals)
  {
    data := [];
    var i := 0;
    while i < |positions|
      invariant i <= |positions|
      invariant data == Packed(positions, uvs, normals, i)
    {
      data := data + [positions[i].x, positions[i].y, positions[i].z];
      if |uvs| > 0 {
        data := data + [uvs[i].x, uvs[i].y];
      }
      if |normals| > 0 {
        data := data + [normals[i].x, normals[i].y, normals[i].z];
      }
      i := i + 1;
    }
    PackedLayout(positions, uvs, normals, |positions|);
  }

  /** With all three attributes present, a record is position at 0, uv at 3, normal at 5, 8 floats in all. */
  lemma RecordMatchesAttributeLayout(positions: seq<Vec3>, uvs: seq<Vec2>, normals: seq<Vec3>, i: nat)
    requires i < |positions| == |uvs| == |normals|
    ensures Stride(uvs, normals) == StrideFloats
    ensures var r := VertexRecord(positions, uvs, normals, i);
            && r[PositionOffset .. PositionOffset + 3] == [positions[i].x, positions[i].y, positions[i].z]
            && r[UvOffset .. UvOffset + 2] == [uvs[i].x, uvs[i].y]
            && r[NormalOffset .. NormalOffset + 3] == [normals[i].x, normals[i].y, normals[i].z]
  {
  }

  /**
    The sphere the PBR demo draws: 128 x 128 segments, so 129 * 129 vertices of 8
    floats and 128 * 2 * 129 strip indices, each naming one of those vertices.
  */
  method RenderSphere(surface: (real, real) -> Vec3) returns (data: seq<real>, indices: seq<nat>)
    ensures |indices| == YSegments * 2 * (XSegments + 1)
    ensures |data| == StrideFloats * ((XSegments + 1) * (YSegments + 1))
    ensures forall j :: 0 <= j < |indices| ==> indices[j] < (XSegments + 1) * (YSegments + 1)
    ensures forall p :: 0 <= 2 * p + 1 < |indices| ==> Adjacent(Pair(indices, p), XSegments + 1)
  {
    var positions, uvs, normals := SphereVertices(XSegments, YSegments, surface);
    indices := SphereIndices(XSegments, YSegments);
    StripPairsAdjacent(XSegments, YSegments);
    data := Interleave(positions, uvs, normals);
  }
}
