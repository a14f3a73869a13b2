/** Icosphere tessellation: a 12-vertex, 20-face icosahedron whose triangles
    are split into four, round after round, with the midpoint of every edge
    shared by the triangles on both sides of it, and the result packed into
    position, normal and index arrays.

    Normalisation onto the unit sphere (gl-matrix vec3.normalize) is the
    parameter `normalize`; nothing is assumed about it. */
module Icospheres {
  import opened Mesh
  import opened Icosahedron

  /** A vertex list with its triangle list. */
  datatype TriMesh = TriMesh(vertices: seq<Vec3>, triangles: seq<Tri>)

  /** The normalised midpoint of p and q: normalize((p + q) * 0.5). */
  function MidpointOf(p: Vec3, q: Vec3, normalize: Vec3 -> Vec3): Vec3 {
    normalize(Scale(Add(p, q), 0.5))
  }

  /** getMidpointIndex: look the edge {i, j} up in the round's midpoint map;
      on a miss, append the normalised midpoint to the vertex list and
      record its index. Returns the new vertex list, the new map and the
      index, which is what the new map holds for the edge; the old vertices
      and the old entries are kept. */
  function Midpoint(vs: seq<Vec3>, cache: map<Edge, nat>, i: nat, j: nat, normalize: Vec3 -> Vec3)
    : (r: (seq<Vec3>, map<Edge, nat>, nat))
    requires i < |vs| && j < |vs|
    ensures |vs| <= |r.0| <= |vs| + 1 && r.0[..|vs|] == vs
    ensures r.1.Keys == cache.Keys + {EdgeKey(i, j)} && r.1[EdgeKey(i, j)] == r.2
    ensures Extends(cache, r.1)
  {
    var key := EdgeKey(i, j);
    if key in cache then (vs, cache, cache[key])
    else (vs + [MidpointOf(vs[i], vs[j], normalize)], cache[key := |vs|], |vs|)
  }

  /** Every entry of c1 is in c2 with the same value. */
  ghost predicate Extends(c1: map<Edge, nat>, c2: map<Edge, nat>) {
    forall e :: e in c1 ==> e in c2 && c2[e] == c1[e]
  }

  /** The lookup does not depend on the order of the two endpoints. */
  lemma MidpointSymmetric(vs: seq<Vec3>, cache: map<Edge, nat>, i: nat, j: nat, normalize: Vec3 -> Vec3)
    requires i < |vs| && j < |vs|
    ensures Midpoint(vs, cache, i, j, normalize) == Midpoint(vs, cache, j, i, normalize)
  {
  }

  /** Asking again for the same edge, in either order, returns the index
      recorded by the first call and adds no vertex. */
  lemma MidpointRepeat(vs: seq<Vec3>, cache: map<Edge, nat>, i: nat, j: nat, normalize: Vec3 -> Vec3)
    requires i < |vs| && j < |vs|
    ensures var r := Midpoint(vs, cache, i, j, normalize);
      && Midpoint(r.0, r.1, i, j, normalize) == r
      && Midpoint(r.0, r.1, j, i, normalize) == r
  {
  }

  /** What the midpoint map and the vertex list satisfy during a round that
      started from the vertex list vs0 and an empty map: one new vertex per
      key, appended after vs0, distinct keys with distinct vertices, and each
      new vertex the normalised midpoint of its edge. */
  ghost predicate CacheInv(vs0: seq<Vec3>, vs: seq<Vec3>, cache: map<Edge, nat>, normalize: Vec3 -> Vec3) {
    && |vs| == |vs0| + |cache|
    && vs[..|vs0|] == vs0
    && (forall e :: e in cache ==>
          && e.lo <= e.hi < |vs0|
          && |vs0| <= cache[e] < |vs|
          && vs[cache[e]] == MidpointOf(vs0[e.lo], vs0[e.hi], normalize))
    && (forall e1, e2 :: e1 in cache && e2 in cache && e1 != e2 ==> cache[e1] != cache[e2])
  }

  /** One lookup of an edge between old vertices keeps CacheInv. */
  lemma MidpointStep(vs0: seq<Vec3>, vs: seq<Vec3>, cache: map<Edge, nat>, i: nat, j: nat, normalize: Vec3 -> Vec3)
    requires CacheInv(vs0, vs, cache, normalize)
    requires i < |vs0| && j < |vs0|
    ensures var r := Midpoint(vs, cache, i, j, normalize); CacheInv(vs0, r.0, r.1, normalize)
  {
    if EdgeKey(i, j) !in cache {
      MidpointMiss(vs0, vs, cache, i, j, normalize);
    }
  }

  /** The case of MidpointStep where the edge is new: one vertex and one key more. */
  lemma MidpointMiss(vs0: seq<Vec3>, vs: seq<Vec3>, cache: map<Edge, nat>, i: nat, j: nat, normalize: Vec3 -> Vec3)
    requires CacheInv(vs0, vs, cache, normalize)
    requires i < |vs0| && j < |vs0| && EdgeKey(i, j) !in cache
    ensures CacheInv(vs0, vs + [MidpointOf(vs[i], vs[j], normalize)], cache[EdgeKey(i, j) := |vs|], normalize)
  {
    var key := EdgeKey(i, j);
    var p := MidpointOf(vs[i], vs[j], normalize);
    var vs', cache' := vs + [p], cache[key := |vs|];
    assert |cache'| == |cache| + 1;
    assert vs'[..|vs0|] == vs[..|vs0|];
    assert p == MidpointOf(vs0[key.lo], vs0[key.hi], normalize) by {
      assert vs[i] == vs0[i] && vs[j] == vs0[j];
      assert Add(vs0[i], vs0[j]) == Add(vs0[j], vs0[i]);
    }
    forall e | e in cache'
      ensures && e.lo <= e.hi < |vs0|
              && |vs0| <= cache'[e] < |vs'|
              && vs'[cache'[e]] == MidpointOf(vs0[e.lo], vs0[e.hi], normalize)
    {
      if e != key {
        assert vs'[cache'[e]] == vs[cache[e]];
      }
    }
    forall e1: Edge, e2: Edge | e1 in cache' && e2 in cache' && e1 != e2
      ensures cache'[e1] != cache'[e2]
    {
      if e1 != key && e2 != key {
        assert cache'[e1] == cache[e1] && cache'[e2] == cache[e2];
      }
    }
  }

  /** The four children of a triangle [v1, v2, v3], given the midpoint map:
      [v1, a, c], [v2, b, a], [v3, c, b], [a, b, c], with a = mid(v1, v2),
      b = mid(v2, v3), c = mid(v3, v1). */
  function Children(t: Tri, cache: map<Edge, nat>): seq<Tri>
    requires TriEdges(t) <= cache.Keys
  {
    var a := cache[EdgeKey(t.v1, t.v2)];
    var b := cache[EdgeKey(t.v2, t.v3)];
    var c := cache[EdgeKey(t.v3, t.v1)];
    [Tri(t.v1, a, c), Tri(t.v2, b, a), Tri(t.v3, c, b), Tri(a, b, c)]
  }

  lemma ChildrenStable(t: Tri, c1: map<Edge, nat>, c2: map<Edge, nat>)
    requires TriEdges(t) <= c1.Keys && Extends(c1, c2)
    ensures TriEdges(t) <= c2.Keys && Children(t, c1) == Children(t, c2)
  {
  }

  /** Three successive lookups into a map that only ever grow it. */
  lemma ThreeInserts(c0: map<Edge, nat>, c1: map<Edge, nat>, c2: map<Edge, nat>, c3: map<Edge, nat>, k1: Edge, k2: Edge, k3: Edge)
    requires c1.Keys == c0.Keys + {k1} && Extends(c0, c1)
    requires c2.Keys == c1.Keys + {k2} && Extends(c1, c2)
    requires c3.Keys == c2.Keys + {k3} && Extends(c2, c3)
    ensures c3.Keys == c0.Keys + {k1, k2, k3}
    ensures Extends(c0, c3)
    ensures c3[k1] == c1[k1] && c3[k2] == c2[k2]
  {
  }

  /** The state of a round after some of its parent triangles: the vertex
      list, the midpoint map and the new triangle list. */
  datatype Progress = Progress(vertices: seq<Vec3>, midpoints: map<Edge, nat>, triangles: seq<Tri>)

  /** The body of the round's loop for one parent triangle: the old vertices
      and map entries are kept, the parent's three edges are in the map, and
      exactly the parent's four children are appended. */
  function SplitTriangle(st: Progress, t: Tri, normalize: Vec3 -> Vec3): (r: Progress)
    requires t.v1 < |st.vertices| && t.v2 < |st.vertices| && t.v3 < |st.vertices|
    ensures |st.vertices| <= |r.vertices| && r.vertices[..|st.vertices|] == st.vertices
    ensures r.midpoints.Keys == st.midpoints.Keys + TriEdges(t)
    ensures Extends(st.midpoints, r.midpoints)
    ensures r.triangles == st.triangles + Children(t, r.midpoints)
  {
    var (vs1, m1, a) := Midpoint(st.vertices, st.midpoints, t.v1, t.v2, normalize);
    var (vs2, m2, b) := Midpoint(vs1, m1, t.v2, t.v3, normalize);
    var (vs3, m3, c) := Midpoint(vs2, m2, t.v3, t.v1, normalize);
    ThreeInserts(st.midpoints, m1, m2, m3, EdgeKey(t.v1, t.v2), EdgeKey(t.v2, t.v3), EdgeKey(t.v3, t.v1));
    assert vs3[..|st.vertices|] == st.vertices by {
      assert vs3[..|vs1|] == vs1 && vs3[..|vs2|] == vs2;
    }
    Progress(vs3, m3, st.triangles + [Tri(t.v1, a, c), Tri(t.v2, b, a), Tri(t.v3, c, b), Tri(a, b, c)])
  }

  /** Splitting one parent whose corners are old vertices keeps CacheInv. */
  lemma SplitStep(vs0: seq<Vec3>, st: Progress, t: Tri, normalize: Vec3 -> Vec3)
    requires CacheInv(vs0, st.vertices, st.midpoints, normalize)
    requires t.v1 < |vs0| && t.v2 < |vs0| && t.v3 < |vs0|
    ensures var st' := SplitTriangle(st, t, normalize); CacheInv(vs0, st'.vertices, st'.midpoints, normalize)
  {
    var r1 := Midpoint(st.vertices, st.midpoints, t.v1, t.v2, normalize);
    MidpointStep(vs0, st.vertices, st.midpoints, t.v1, t.v2, normalize);
    var r2 := Midpoint(r1.0, r1.1, t.v2, t.v3, normalize);
    MidpointStep(vs0, r1.0, r1.1, t.v2, t.v3, normalize);
    MidpointStep(vs0, r2.0, r2.1, t.v3, t.v1, normalize);
  }

  /** The state of a round that starts from vs0 and an empty midpoint map,
      after the parent triangles ts in order: vs0 is kept as a prefix, the
      map's keys are exactly the distinct edges of ts, and there are four
      new triangles per parent. */
  function SplitFrom(vs0: seq<Vec3>, ts: seq<Tri>, normalize: Vec3 -> Vec3): (r: Progress)
    requires IndicesBelow(ts, |vs0|)
    ensures |vs0| <= |r.vertices| && r.vertices[..|vs0|] == vs0
    ensures r.midpoints.Keys == EdgesOf(ts)
    ensures |r.triangles| == 4 * |ts|
    decreases |ts|
  {
    if ts == [] then Progress(vs0, map[], [])
    else
      var st := SplitFrom(vs0, ts[..|ts| - 1], normalize);
      var r := SplitTriangle(st, ts[|ts| - 1], normalize);
      assert r.vertices[..|vs0|] == vs0 by {
        assert r.vertices[..|st.vertices|][..|vs0|] == r.vertices[..|vs0|];
      }
      r
  }

  /** During a round the midpoint map and the vertex list keep CacheInv. */
  lemma {:induction false} RoundCache(vs0: seq<Vec3>, ts: seq<Tri>, normalize: Vec3 -> Vec3)
    requires IndicesBelow(ts, |vs0|)
    ensures var st := SplitFrom(vs0, ts, normalize); CacheInv(vs0, st.vertices, st.midpoints, normalize)
    decreases |ts|
  {
    if ts != [] {
      var n := |ts| - 1;
      RoundCache(vs0, ts[..n], normalize);
      SplitStep(vs0, SplitFrom(vs0, ts[..n], normalize), ts[n], normalize);
    }
  }

  /** The children of every parent in ts, in order. */
  function ChildrenOf(ts: seq<Tri>, cache: map<Edge, nat>): seq<Tri>
    requires EdgesOf(ts) <= cache.Keys
    decreases |ts|
  {
    if ts == [] then [] else ChildrenOf(ts[..|ts| - 1], cache) + Children(ts[|ts| - 1], cache)
  }

  lemma {:induction false} ChildrenOfStable(ts: seq<Tri>, c1: map<Edge, nat>, c2: map<Edge, nat>)
    requires EdgesOf(ts) <= c1.Keys && Extends(c1, c2)
    ensures EdgesOf(ts) <= c2.Keys && ChildrenOf(ts, c1) == ChildrenOf(ts, c2)
    decreases |ts|
  {
    if ts != [] {
      ChildrenOfStable(ts[..|ts| - 1], c1, c2);
      ChildrenStable(ts[|ts| - 1], c1, c2);
    }
  }

  /** Parent i has its four children at positions 4i .. 4i+3. */
  lemma {:induction false} ChildrenOfLayout(ts: seq<Tri>, cache: map<Edge, nat>, i: nat)
    requires EdgesOf(ts) <= cache.Keys && i < |ts|
    ensures |ChildrenOf(ts, cache)| == 4 * |ts|
    ensures TriEdges(ts[i]) <= cache.Keys
    ensures ChildrenOf(ts, cache)[4 * i .. 4 * i + 4] == Children(ts[i], cache)
    decreases |ts|
  {
    var n := |ts| - 1;
    if i < n {
      ChildrenOfLayout(ts[..n], cache, i);
      assert ts[..n][i] == ts[i];
    } else if n > 0 {
      ChildrenOfLayout(ts[..n], cache, 0);
    }
  }

  /** Children of parents whose corners are below bound, built from a map
      whose values are below bound, have every corner below bound. */
  lemma {:induction false} ChildrenOfBelow(ts: seq<Tri>, cache: map<Edge, nat>, bound: nat)
    requires EdgesOf(ts) <= cache.Keys && IndicesBelow(ts, bound)
    requires forall e :: e in cache ==> cache[e] < bound
    ensures IndicesBelow(ChildrenOf(ts, cache), bound)
    decreases |ts|
  {
    if ts != [] {
      var n := |ts| - 1;
      ChildrenOfBelow(ts[..n], cache, bound);
      var t := ts[n];
      assert EdgeKey(t.v1, t.v2) in cache && EdgeKey(t.v2, t.v3) in cache && EdgeKey(t.v3, t.v1) in cache;
      var left: seq<Tri>, right: seq<Tri> := ChildrenOf(ts[..n], cache), Children(t, cache);
      var all := left + right;
      forall k | 0 <= k < |all|
        ensures all[k].v1 < bound && all[k].v2 < bound && all[k].v3 < bound
      {
        if k >= |left| {
          assert all[k] == right[k - |left|];
        } else {
          assert all[k] == left[k];
        }
      }
    }
  }

  /** The new triangle list of a round is the children of every parent, in
      the parents' order, all built from the round's final midpoint map, so
      parents that share an edge use the same midpoint vertex. */
  lemma {:induction false} RoundChildren(vs0: seq<Vec3>, ts: seq<Tri>, normalize: Vec3 -> Vec3)
    requires IndicesBelow(ts, |vs0|)
    ensures var st := SplitFrom(vs0, ts, normalize);
      EdgesOf(ts) <= st.midpoints.Keys && st.triangles == ChildrenOf(ts, st.midpoints)
    decreases |ts|
  {
    if ts != [] {
      var n := |ts| - 1;
      var st := SplitFrom(vs0, ts[..n], normalize);
      var st' := SplitFrom(vs0, ts, normalize);
      RoundChildren(vs0, ts[..n], normalize);
      ChildrenOfStable(ts[..n], st.midpoints, st'.midpoints);
    }
  }

  /** After a round every corner of every new triangle is a vertex that exists. */
  lemma RoundIndices(vs0: seq<Vec3>, ts: seq<Tri>, normalize: Vec3 -> Vec3)
    requires IndicesBelow(ts, |vs0|)
    ensures var st := SplitFrom(vs0, ts, normalize); IndicesBelow(st.triangles, |st.vertices|)
  {
    var st := SplitFrom(vs0, ts, normalize);
    RoundCache(vs0, ts, normalize);
    RoundChildren(vs0, ts, normalize);
    ChildrenOfBelow(ts, st.midpoints, |st.vertices|);
  }

  /** One subdivision round of a mesh whose indices are in range: four
      triangles per parent, one new vertex per distinct edge, the old
      vertices unmoved, every index still in range. */
  function Subdivide(m: TriMesh, normalize: Vec3 -> Vec3): (r: TriMesh)
    requires IndicesBelow(m.triangles, |m.vertices|)
    ensures IndicesBelow(r.triangles, |r.vertices|)
    ensures |r.triangles| == 4 * |m.triangles|
    ensures |r.vertices| == |m.vertices| + |EdgesOf(m.triangles)|
    ensures r.vertices[..|m.vertices|] == m.vertices
  {
    var st := SplitFrom(m.vertices, m.triangles, normalize);
    RoundCache(m.vertices, m.triangles, normalize);
    RoundIndices(m.vertices, m.triangles, normalize);
    TriMesh(st.vertices, st.triangles)
  }

  /** Subdivide is one SplitFrom round from an empty midpoint map. */
  lemma SubdivideRound(m: TriMesh, normalize: Vec3 -> Vec3)
    requires IndicesBelow(m.triangles, |m.vertices|)
    ensures var st := SplitFrom(m.vertices, m.triangles, normalize);
      Subdivide(m, normalize) == TriMesh(st.vertices, st.triangles)
  {
  }

  function Pow4(k: nat): nat {
    if k == 0 then 1 else 4 * Pow4(k - 1)
  }

  /** The normalised icosahedron. */
  function BaseVertices(normalize: Vec3 -> Vec3): seq<Vec3> {
    seq(12, i requires 0 <= i < 12 => normalize(RawBase()[i]))
  }

  /** The mesh after k rounds: 20 * 4^k triangles, every index in range. */
  function Generated(k: nat, normalize: Vec3 -> Vec3): (r: TriMesh)
    ensures IndicesBelow(r.triangles, |r.vertices|)
    ensures |r.triangles| == 20 * Pow4(k)
    ensures |r.vertices| >= 12
  {
    if k == 0 then TriMesh(BaseVertices(normalize), BaseTriangles())
    else Subdivide(Generated(k - 1, normalize), normalize)
  }

  /** The first round adds exactly one vertex per edge of the icosahedron: 42 vertices. */
  lemma FirstRoundVertexCount(normalize: Vec3 -> Vec3)
    ensures |Generated(1, normalize).vertices| == 42
    ensures |Generated(1, normalize).triangles| == 80
  {
    BaseEdgesOf();
    BaseEdgeCount();
  }

  /** Parent i's children sit at positions 4i .. 4i+3 of the round's output,
      and their new corners a, b, c are the normalised midpoints of the
      parent's edges (v1, v2), (v2, v3), (v3, v1). */
  lemma RoundLayout(vs0: seq<Vec3>, ts: seq<Tri>, normalize: Vec3 -> Vec3, i: nat)
    requires IndicesBelow(ts, |vs0|) && i < |ts|
    ensures var st := SplitFrom(vs0, ts, normalize);
      var t := ts[i];
      && TriEdges(t) <= st.midpoints.Keys
      && st.triangles[4 * i .. 4 * i + 4] == Children(t, st.midpoints)
      && (var a := st.midpoints[EdgeKey(t.v1, t.v2)];
          a < |st.vertices| && st.vertices[a] == MidpointOf(vs0[t.v1], vs0[t.v2], normalize))
      && (var b := st.midpoints[EdgeKey(t.v2, t.v3)];
          b < |st.vertices| && st.vertices[b] == MidpointOf(vs0[t.v2], vs0[t.v3], normalize))
      && (var c := st.midpoints[EdgeKey(t.v3, t.v1)];
          c < |st.vertices| && st.vertices[c] == MidpointOf(vs0[t.v3], vs0[t.v1], normalize))
  {
    var st := SplitFrom(vs0, ts, normalize);
    var t := ts[i];
    RoundCache(vs0, ts, normalize);
    RoundChildren(vs0, ts, normalize);
    ChildrenOfLayout(ts, st.midpoints, i);
    assert MidpointOf(vs0[t.v1], vs0[t.v2], normalize) == MidpointOf(vs0[t.v2], vs0[t.v1], normalize) by {
      assert Add(vs0[t.v1], vs0[t.v2]) == Add(vs0[t.v2], vs0[t.v1]);
    }
    assert MidpointOf(vs0[t.v2], vs0[t.v3], normalize) == MidpointOf(vs0[t.v3], vs0[t.v2], normalize) by {
      assert Add(vs0[t.v2], vs0[t.v3]) == Add(vs0[t.v3], vs0[t.v2]);
    }
    assert MidpointOf(vs0[t.v3], vs0[t.v1], normalize) == MidpointOf(vs0[t.v1], vs0[t.v3], normalize) by {
      assert Add(vs0[t.v3], vs0[t.v1]) == Add(vs0[t.v1], vs0[t.v3]);
    }
  }

  lemma IndicesBelowPrefix(ts: seq<Tri>, n: nat, k: nat)
    requires IndicesBelow(ts, n) && k <= |ts|
    ensures IndicesBelow(ts[..k], n)
  {
    assert forall i :: 0 <= i < k ==> ts[..k][i] == ts[i];
  }

  /** One pass of the subdivision loop, as the source runs it: a fresh
      midpoint map, then each parent in turn looks up its three edge
      midpoints (appending the new ones to the vertex list) and pushes its
      four children. The result is the round Subdivide describes. */
  method SubdivideOnce(vertices: seq<Vec3>, triangles: seq<Tri>, normalize: Vec3 -> Vec3)
    returns (vs: seq<Vec3>, newTriangles: seq<Tri>)
    requires IndicesBelow(triangles, |vertices|)
    ensures TriMesh(vs, newTriangles) == Subdivide(TriMesh(vertices, triangles), normalize)
  {
    var midpoints: map<Edge, nat> := map[];
    vs, newTriangles := vertices, [];
    for k := 0 to |triangles|
      invariant IndicesBelow(triangles[..k], |vertices|)
      invariant Progress(vs, midpoints, newTriangles) == SplitFrom(vertices, triangles[..k], normalize)
    {
      var t := triangles[k];
      assert triangles[..k + 1][..k] == triangles[..k] && triangles[..k + 1][k] == t;
      IndicesBelowPrefix(triangles, |vertices|, k + 1);
      var (vs1, m1, a) := Midpoint(vs, midpoints, t.v1, t.v2, normalize);
      var (vs2, m2, b) := Midpoint(vs1, m1, t.v2, t.v3, normalize);
      var (vs3, m3, c) := Midpoint(vs2, m2, t.v3, t.v1, normalize);
      vs, midpoints := vs3, m3;
      newTriangles := newTriangles + [Tri(t.v1, a, c), Tri(t.v2, b, a), Tri(t.v3, c, b), Tri(a, b, c)];
    }
    assert triangles[..|triangles|] == triangles;
  }

  /** Slot j (0 to 3) of vertex v in the position array: v + center, w = 1. */
  function PositionSlot(v: Vec3, center: Vec4, j: nat): real {
    if j == 0 then v.x + center.x
    else if j == 1 then v.y + center.y
    else if j == 2 then v.z + center.z
    else 1.0
  }

  /** Slot j (0 to 3) of vertex v in the normal array: v itself, w = 0. */
  function NormalSlot(v: Vec3, j: nat): real {
    if j == 0 then v.x else if j == 1 then v.y else if j == 2 then v.z else 0.0
  }

  /** Component j (0 to 2) of the center. */
  function CenterSlot(center: Vec4, j: nat): real {
    if j == 0 then center.x else if j == 1 then center.y else center.z
  }

  /** The packed position array: four floats per vertex. */
  function Positions(vs: seq<Vec3>, center: Vec4): seq<real> {
    seq(4 * |vs|, k requires 0 <= k < 4 * |vs| => PositionSlot(vs[k / 4], center, k % 4))
  }

  /** The packed normal array: four floats per vertex. */
  function Normals(vs: seq<Vec3>): seq<real> {
    seq(4 * |vs|, k requires 0 <= k < 4 * |vs| => NormalSlot(vs[k / 4], k % 4))
  }

  /** The packed arrays of a mesh whose indices are in range are well formed,
      and each normal's xyz is its position's xyz minus the center. */
  lemma PackedLayout(m: TriMesh, center: Vec4)
    requires IndicesBelow(m.triangles, |m.vertices|)
    ensures |Positions(m.vertices, center)| == |Normals(m.vertices)| == 4 * |m.vertices|
    ensures |Flatten(m.triangles)| == 3 * |m.triangles|
    ensures WellFormed(Positions(m.vertices, center), Normals(m.vertices), Flatten(m.triangles))
    ensures forall k :: 0 <= k < 4 * |m.vertices| && k % 4 < 3 ==>
      Normals(m.vertices)[k] == Positions(m.vertices, center)[k] - CenterSlot(center, k % 4)
  {
    FlattenLayout(m.triangles);
    FlattenBelow(m.triangles, |m.vertices|);
  }

  /** The mesh of a sphere, packed for upload: generated once in the
      constructor, with the draw count set by Create. */
  class Icosphere {
    const center: Vec4
    var positions: array<real>
    var normals: array<real>
    var indices: array<nat>
    var count: nat

    /** The icosphere centred at center after `subdivisions` rounds: the
        packed arrays are those of Generated(subdivisions), so they are
        well formed (Positions, Normals, Flatten and PackedLayout). */
    constructor (center: Vec3, subdivisions: nat, normalize: Vec3 -> Vec3)
      ensures this.center == Vec4(center.x, center.y, center.z, 1.0)
      ensures var m := Generated(subdivisions, normalize);
        && positions[..] == Positions(m.vertices, this.center)
        && normals[..] == Normals(m.vertices)
        && indices[..] == Flatten(m.triangles)
      ensures fresh(positions) && fresh(normals) && fresh(indices)
      ensures count == 0
    {
      this.center := Vec4(center.x, center.y, center.z, 1.0);
      var vertices, triangles := GenerateMesh(subdivisions, normalize);
      var p, n := PackVertices(vertices, Vec4(center.x, center.y, center.z, 1.0));
      var idx := PackIndices(triangles);
      positions, normals, indices := p, n, idx;
      count := 0;
    }

    /** create(): the draw count is the length of the index array. The GL
        buffer uploads are not modelled. */
    method Create()
      modifies this
      ensures count == indices.Length
      ensures positions == old(positions) && normals == old(normals) && indices == old(indices)
    {
      count := indices.Length;
    }
  }

  /** The geometry half of generateIcosphere: normalise the 12 base
      vertices in place, then run the subdivision loop. */
  method GenerateMesh(subdivisions: nat, normalize: Vec3 -> Vec3)
    returns (vertices: seq<Vec3>, triangles: seq<Tri>)
    ensures TriMesh(vertices, triangles) == Generated(subdivisions, normalize)
  {
    vertices := RawBase();
    for i := 0 to 12
      invariant |vertices| == 12
      invariant forall k :: 0 <= k < i ==> vertices[k] == normalize(RawBase()[k])
      invariant forall k :: i <= k < 12 ==> vertices[k] == RawBase()[k]
    {
      vertices := vertices[i := normalize(vertices[i])];
    }
    assert vertices == BaseVertices(normalize);
    triangles := BaseTriangles();
    for round := 0 to subdivisions
      invariant TriMesh(vertices, triangles) == Generated(round, normalize)
    {
      vertices, triangles := SubdivideOnce(vertices, triangles, normalize);
    }
  }

  /** The typed-array packing loop: four position and four normal floats
      per vertex. */
  method PackVertices(vertices: seq<Vec3>, center: Vec4) returns (positions: array<real>, normals: array<real>)
    ensures fresh(positions) && fresh(normals)
    ensures positions[..] == Positions(vertices, center)
    ensures normals[..] == Normals(vertices)
  {
    positions := new real[|vertices| * 4];
    normals := new real[|vertices| * 4];
    for i := 0 to |vertices|
      invariant forall k :: 0 <= k < 4 * i ==> positions[k] == PositionSlot(vertices[k / 4], center, k % 4)
      invariant forall k :: 0 <= k < 4 * i ==> normals[k] == NormalSlot(vertices[k / 4], k % 4)
    {
      positions[i * 4] := vertices[i].x + center.x;
      positions[i * 4 + 1] := vertices[i].y + center.y;
      positions[i * 4 + 2] := vertices[i].z + center.z;
      positions[i * 4 + 3] := 1.0;
      normals[i * 4] := vertices[i].x;
      normals[i * 4 + 1] := vertices[i].y;
      normals[i * 4 + 2] := vertices[i].z;
      normals[i * 4 + 3] := 0.0;
      forall k | 4 * i <= k < 4 * i + 4
        ensures positions[k] == PositionSlot(vertices[k / 4], center, k % 4)
        ensures normals[k] == NormalSlot(vertices[k / 4], k % 4)
      {
        assert k / 4 == i && k % 4 == k - 4 * i;
      }
    }
    assert positions[..] == Positions(vertices, center);
    assert normals[..] == Normals(vertices);
  }

  /** The index loop: the three corners of each triangle pushed in order. */
  method PackIndices(triangles: seq<Tri>) returns (indices: array<nat>)
    ensures fresh(indices)
    ensures indices[..] == Flatten(triangles)
  {
    var pushed: seq<nat> := [];
    for i := 0 to |triangles|
      invariant pushed == Flatten(triangles[..i])
    {
      assert triangles[..i + 1][..i] == triangles[..i];
      pushed := pushed + [triangles[i].v1, triangles[i].v2, triangles[i].v3];
    }
    assert triangles[..|triangles|] == triangles;
    indices := new nat[|pushed|](k requires 0 <= k < |pushed| => pushed[k]);
  }
}
