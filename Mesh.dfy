/** Vocabulary shared by the two meshes of the demo (the icosphere and the
    fullscreen quad): points, triangles, unordered edges, the flat index
    layout and the well-formedness predicate of packed vertex arrays. */
module Mesh {

  /** A 3-component point (gl-matrix vec3), with exact real coordinates. */
  datatype Vec3 = Vec3(x: real, y: real, z: real)

  /** A homogeneous 4-component point (gl-matrix vec4). */
  datatype Vec4 = Vec4(x: real, y: real, z: real, w: real)

  function Add(a: Vec3, b: Vec3): Vec3 {
    Vec3(a.x + b.x, a.y + b.y, a.z + b.z)
  }

  function Scale(a: Vec3, s: real): Vec3 {
    Vec3(a.x * s, a.y * s, a.z * s)
  }

  /** A triangle as three vertex indices, in winding order. */
  datatype Tri = Tri(v1: nat, v2: nat, v3: nat)

  /** An unordered edge, stored with its smaller endpoint first. */
  datatype Edge = Edge(lo: nat, hi: nat)

  /** The canonical key of the edge between i and j: (min, max). */
  function EdgeKey(i: nat, j: nat): (e: Edge)
    ensures e.lo <= e.hi
    ensures (e.lo == i && e.hi == j) || (e.lo == j && e.hi == i)
  {
    if i <= j then Edge(i, j) else Edge(j, i)
  }

  /** The three edges of a triangle. */
  function TriEdges(t: Tri): set<Edge> {
    {EdgeKey(t.v1, t.v2), EdgeKey(t.v2, t.v3), EdgeKey(t.v3, t.v1)}
  }

  /** Corner j (0, 1 or 2) of a triangle. */
  function Corner(t: Tri, j: nat): nat
    requires j < 3
  {
    if j == 0 then t.v1 else if j == 1 then t.v2 else t.v3
  }

  /** Every corner of every triangle is an index below n. */
  predicate IndicesBelow(ts: seq<Tri>, n: nat) {
    forall i :: 0 <= i < |ts| ==> ts[i].v1 < n && ts[i].v2 < n && ts[i].v3 < n
  }

  /** The index buffer: the corners of every triangle, three per triangle, in order. */
  function Flatten(ts: seq<Tri>): seq<nat>
    decreases |ts|
  {
    if ts == [] then []
    else var t := ts[|ts| - 1]; Flatten(ts[..|ts| - 1]) + [t.v1, t.v2, t.v3]
  }

  /** Entry k of the index buffer is corner k % 3 of triangle k / 3. */
  lemma {:induction false} FlattenLayout(ts: seq<Tri>)
    ensures |Flatten(ts)| == 3 * |ts|
    ensures forall k :: 0 <= k < |Flatten(ts)| ==> Flatten(ts)[k] == Corner(ts[k / 3], k % 3)
    decreases |ts|
  {
    if ts != [] {
      var n := |ts| - 1;
      var t := ts[n];
      FlattenLayout(ts[..n]);
      assert Flatten(ts) == Flatten(ts[..n]) + [t.v1, t.v2, t.v3];
      forall k | 0 <= k < 3 * |ts|
        ensures Flatten(ts)[k] == Corner(ts[k / 3], k % 3)
      {
        if k < 3 * n {
          assert k / 3 < n;
          assert ts[..n][k / 3] == ts[k / 3];
        } else {
          assert k / 3 == n && k % 3 == k - 3 * n;
        }
      }
    }
  }

  /** The index buffer of triangles whose corners are below n holds only indices below n. */
  lemma FlattenBelow(ts: seq<Tri>, n: nat)
    requires IndicesBelow(ts, n)
    ensures forall k :: 0 <= k < |Flatten(ts)| ==> Flatten(ts)[k] < n
  {
    FlattenLayout(ts);
    forall k | 0 <= k < |Flatten(ts)| ensures Flatten(ts)[k] < n {
      assert ts[k / 3].v1 < n && ts[k / 3].v2 < n && ts[k / 3].v3 < n;
    }
  }

  /** Packed vertex data: 4 floats per vertex for positions and normals
      alike, w = 1 for every position and w = 0 for every normal, 3 indices
      per triangle, and every index names a vertex that exists. */
  predicate WellFormed(positions: seq<real>, normals: seq<real>, indices: seq<nat>) {
    && |positions| == |normals|
    && |positions| % 4 == 0
    && |indices| % 3 == 0
    && (forall k :: 0 <= k < |indices| ==> indices[k] < |positions| / 4)
    && (forall k :: 0 <= k < |positions| && k % 4 == 3 ==> positions[k] == 1.0)
    && (forall k :: 0 <= k < |normals| && k % 4 == 3 ==> normals[k] == 0.0)
  }

  /** The undirected edges of a triangle list. */
  function EdgesOf(ts: seq<Tri>): set<Edge>
    decreases |ts|
  {
    if ts == [] then {} else EdgesOf(ts[..|ts| - 1]) + TriEdges(ts[|ts| - 1])
  }

  /** Every edge of EdgesOf(ts) is an edge of one of the triangles. */
  lemma {:induction false} EdgesOfSound(ts: seq<Tri>)
    ensures forall e :: e in EdgesOf(ts) ==> exists i :: 0 <= i < |ts| && e in TriEdges(ts[i])
    decreases |ts|
  {
    if ts != [] {
      var n := |ts| - 1;
      EdgesOfSound(ts[..n]);
      forall e | e in EdgesOf(ts)
        ensures exists i :: 0 <= i < |ts| && e in TriEdges(ts[i])
      {
        if e in EdgesOf(ts[..n]) {
          var i :| 0 <= i < n && e in TriEdges(ts[..n][i]);
          assert ts[..n][i] == ts[i];
        } else {
          assert e in TriEdges(ts[n]);
        }
      }
    }
  }

  /** An edge belongs to EdgesOf(ts) exactly when it is an edge of one of the triangles. */
  lemma EdgesOfCharacter(ts: seq<Tri>)
    ensures forall e :: e in EdgesOf(ts) <==> exists i :: 0 <= i < |ts| && e in TriEdges(ts[i])
  {
    EdgesOfSound(ts);
    forall e, i | 0 <= i < |ts| && e in TriEdges(ts[i])
      ensures e in EdgesOf(ts)
    {
      EdgesOfMember(ts, i);
    }
  }

  /** The edges of one triangle of a list are edges of the list. */
  lemma {:induction false} EdgesOfMember(ts: seq<Tri>, i: nat)
    requires i < |ts|
    ensures TriEdges(ts[i]) <= EdgesOf(ts)
    decreases |ts|
  {
    var n := |ts| - 1;
    if i < n {
      EdgesOfMember(ts[..n], i);
      assert ts[..n][i] == ts[i];
    }
  }

  /** The edges of two lists one after the other are the edges of both. */
  lemma {:induction false} EdgesOfAppend(a: seq<Tri>, b: seq<Tri>)
    ensures EdgesOf(a + b) == EdgesOf(a) + EdgesOf(b)
    decreases |b|
  {
    if b == [] {
      assert a + b == a;
    } else {
      var n := |b| - 1;
      EdgesOfAppend(a, b[..n]);
      assert (a + b)[..|a + b| - 1] == a + b[..n];
    }
  }

  /** Vertex v is a corner of t. */
  predicate On(v: nat, t: Tri) {
    v == t.v1 || v == t.v2 || v == t.v3
  }

  /** The three corners of t are distinct. */
  predicate Proper(t: Tri) {
    t.v1 != t.v2 && t.v2 != t.v3 && t.v3 != t.v1
  }

  /** t and u have the same corners, in any order. */
  predicate SameFace(t: Tri, u: Tri) {
    && On(t.v1, u) && On(t.v2, u) && On(t.v3, u)
    && On(u.v1, t) && On(u.v2, t) && On(u.v3, t)
  }

  /** Every triangle of the list has three distinct corners, and no two
      triangles of the list have the same corners. */
  predicate Simple(ts: seq<Tri>) {
    && (forall i :: 0 <= i < |ts| ==> Proper(ts[i]))
    && (forall i, j :: 0 <= i < |ts| && 0 <= j < |ts| && SameFace(ts[i], ts[j]) ==> i == j)
  }

  lemma SimplePrefix(ts: seq<Tri>, k: nat)
    requires Simple(ts) && k <= |ts|
    ensures Simple(ts[..k])
  {
    assert forall i :: 0 <= i < k ==> ts[..k][i] == ts[i];
  }

  /** Both ends of an edge of u are corners of u. */
  lemma EdgeEndsOn(e: Edge, u: Tri)
    requires e in TriEdges(u)
    ensures On(e.lo, u) && On(e.hi, u)
  {
  }

  /** Every edge of a list of triangles with distinct corners joins two
      distinct vertices. */
  lemma ProperEdges(ts: seq<Tri>)
    requires forall i :: 0 <= i < |ts| ==> Proper(ts[i])
    ensures forall e :: e in EdgesOf(ts) ==> e.lo < e.hi
  {
    EdgesOfSound(ts);
  }

  /** The lexicographic order on edges: smaller endpoint first, then larger. */
  predicate EdgeLess(a: Edge, b: Edge) {
    a.lo < b.lo || (a.lo == b.lo && a.hi < b.hi)
  }

  /** The set of edges listed in s. */
  function Elements(s: seq<Edge>): set<Edge>
    decreases |s|
  {
    if s == [] then {} else {s[0]} + Elements(s[1..])
  }

  lemma {:induction false} ElementsCharacter(s: seq<Edge>)
    ensures forall e :: e in Elements(s) <==> e in s
    decreases |s|
  {
    if s != [] {
      ElementsCharacter(s[1..]);
      assert forall e :: e in s <==> e == s[0] || e in s[1..];
    }
  }

  /** A strictly increasing list names as many edges as it has entries, and
      every edge it names is at least its first. */
  lemma {:induction false} SortedElements(s: seq<Edge>)
    requires forall i :: 0 <= i < |s| - 1 ==> EdgeLess(s[i], s[i + 1])
    ensures |Elements(s)| == |s|
    ensures forall e :: e in Elements(s) ==> e == s[0] || EdgeLess(s[0], e)
    decreases |s|
  {
    if |s| > 1 {
      var t := s[1..];
      forall i | 0 <= i < |t| - 1
        ensures EdgeLess(t[i], t[i + 1])
      {
        assert t[i] == s[i + 1] && t[i + 1] == s[i + 2];
      }
      SortedElements(t);
      assert EdgeLess(s[0], t[0]);
      assert s[0] !in Elements(t);
    }
  }
}
