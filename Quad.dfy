/** The fullscreen quad: constant clip-space geometry, two triangles over
    four corners, packed in the same layout as the icosphere. */
module Quad {
  import opened Mesh

  /** Bottom-left, bottom-right, top-right, top-left; w = 1. */
  const QuadPositions: seq<real> :=
    [ -1.0, -1.0, 0.0, 1.0,
       1.0, -1.0, 0.0, 1.0,
       1.0,  1.0, 0.0, 1.0,
      -1.0,  1.0, 0.0, 1.0 ]

  /** The placeholder normals: (0, 0, 1) with w = 0 at every corner. */
  const QuadNormals: seq<real> :=
    [ 0.0, 0.0, 1.0, 0.0,
      0.0, 0.0, 1.0, 0.0,
      0.0, 0.0, 1.0, 0.0,
      0.0, 0.0, 1.0, 0.0 ]

  const QuadIndices: seq<nat> := [0, 1, 2, 2, 3, 0]

  /** The index buffer read as triangles. */
  const QuadTriangles: seq<Tri> := [Tri(0, 1, 2), Tri(2, 3, 0)]

  /** Corner i of the position array. */
  function QuadCorner(i: nat): (v: Vec4)
    requires i < 4
    ensures v.z == 0.0 && v.w == 1.0
    ensures (v.x == 1.0 || v.x == -1.0) && (v.y == 1.0 || v.y == -1.0)
  {
    Vec4(QuadPositions[4 * i], QuadPositions[4 * i + 1], QuadPositions[4 * i + 2], QuadPositions[4 * i + 3])
  }

  /** Normal i of the normal array. */
  function QuadNormal(i: nat): Vec4
    requires i < 4
  {
    Vec4(QuadNormals[4 * i], QuadNormals[4 * i + 1], QuadNormals[4 * i + 2], QuadNormals[4 * i + 3])
  }

  /** Four vertices of four floats each, six indices below 4: the quad meets
      the same well-formedness predicate as the icosphere. */
  lemma QuadWellFormed()
    ensures |QuadPositions| == |QuadNormals| == 16
    ensures |QuadIndices| == 6 && forall k :: 0 <= k < |QuadIndices| ==> QuadIndices[k] < 4
    ensures WellFormed(QuadPositions, QuadNormals, QuadIndices)
  {
  }

  /** The index buffer is the two triangles [0, 1, 2] and [2, 3, 0], flattened. */
  lemma QuadIndicesAreTriangles()
    ensures QuadIndices == Flatten(QuadTriangles)
    ensures IndicesBelow(QuadTriangles, 4)
  {
    assert QuadTriangles[..1] == [Tri(0, 1, 2)];
    assert QuadTriangles[..1][..0] == [];
  }

  /** The two triangles share exactly the diagonal {0, 2}. */
  lemma QuadSharedEdge()
    ensures TriEdges(QuadTriangles[0]) * TriEdges(QuadTriangles[1]) == {Edge(0, 2)}
  {
    assert TriEdges(QuadTriangles[0]) == {Edge(0, 1), Edge(1, 2), Edge(0, 2)};
    assert TriEdges(QuadTriangles[1]) == {Edge(2, 3), Edge(0, 3), Edge(0, 2)};
  }

  /** The corners cover clip space: one corner in each quadrant, so each of
      (-1, -1), (1, -1), (1, 1), (-1, 1) is the (x, y) of exactly one corner. */
  lemma QuadCoversClipSpace()
    ensures (set i | 0 <= i < 4 :: (QuadCorner(i).x, QuadCorner(i).y))
      == {(-1.0, -1.0), (1.0, -1.0), (1.0, 1.0), (-1.0, 1.0)}
    ensures forall i, j :: 0 <= i < 4 && 0 <= j < 4 && i != j ==>
      (QuadCorner(i).x, QuadCorner(i).y) != (QuadCorner(j).x, QuadCorner(j).y)
  {
    var xy := set i | 0 <= i < 4 :: (QuadCorner(i).x, QuadCorner(i).y);
    assert (-1.0, -1.0) in xy && (1.0, -1.0) in xy && (1.0, 1.0) in xy && (-1.0, 1.0) in xy by {
      assert (QuadCorner(0).x, QuadCorner(0).y) in xy;
      assert (QuadCorner(1).x, QuadCorner(1).y) in xy;
      assert (QuadCorner(2).x, QuadCorner(2).y) in xy;
      assert (QuadCorner(3).x, QuadCorner(3).y) in xy;
    }
    assert QuadCorner(0).x == -1.0 && QuadCorner(0).y == -1.0;
    assert QuadCorner(1).x == 1.0 && QuadCorner(1).y == -1.0;
    assert QuadCorner(2).x == 1.0 && QuadCorner(2).y == 1.0;
    assert QuadCorner(3).x == -1.0 && QuadCorner(3).y == 1.0;
  }

  /** Every normal is (0, 0, 1, 0). */
  lemma QuadNormalsConstant()
    ensures forall i :: 0 <= i < 4 ==> QuadNormal(i) == Vec4(0.0, 0.0, 1.0, 0.0)
  {
  }

  /** create(): the draw count is the length of the index array, 6. The GL
      buffer uploads are not modelled. */
  function QuadCount(): (count: nat)
    ensures count == |QuadIndices| && count == 6
  {
    |QuadIndices|
  }
}
