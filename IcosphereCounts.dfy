/** How many vertices and edges the tessellation has after k rounds.

    The closed forms come from one count per round. Each child edge is
    either half of a parent edge (two per parent edge, each ending at an old
    vertex) or an inner edge joining two midpoints of one parent (three per
    parent). So a round turns E edges and F faces into 2E + 3F edges. That
    count needs every face to have three distinct corners and no two faces
    to have the same corners (Simple), and every round keeps that. */
module IcosphereCounts {
  import opened Mesh
  import opened Icosahedron
  import opened Icospheres

  /** A round's midpoint map, seen from parents whose corners are below n0:
      every key joins two old vertices, smaller first, every value is a new vertex, and
      distinct keys have distinct values. */
  ghost predicate FreshMidpoints(m: map<Edge, nat>, n0: nat) {
    && (forall e :: e in m ==> e.lo <= e.hi < n0 <= m[e])
    && (forall e1, e2 :: e1 in m && e2 in m && m[e1] == m[e2] ==> e1 == e2)
  }

  lemma CacheFresh(vs0: seq<Vec3>, vs: seq<Vec3>, cache: map<Edge, nat>, normalize: Vec3 -> Vec3)
    requires CacheInv(vs0, vs, cache, normalize)
    ensures FreshMidpoints(cache, |vs0|)
  {
  }

  /** A parent of the round: distinct corners, all old, all edges in the map. */
  ghost predicate Parent(t: Tri, m: map<Edge, nat>, n0: nat) {
    Proper(t) && t.v1 < n0 && t.v2 < n0 && t.v3 < n0 && TriEdges(t) <= m.Keys
  }

  /** Every child of a parent has three distinct corners. */
  lemma ChildProper(t: Tri, m: map<Edge, nat>, n0: nat, r: nat)
    requires FreshMidpoints(m, n0) && Parent(t, m, n0) && r < 4
    ensures Proper(Children(t, m)[r])
  {
  }

  /** Two corner children [v, mid(v, p), mid(q, v)] with the same corners
      keep the same old corner of the same parent face. */
  lemma CornerChildren(v: nat, p: nat, q: nat, v': nat, p': nat, q': nat, m: map<Edge, nat>, n0: nat)
    requires FreshMidpoints(m, n0)
    requires v != p && p != q && q != v && v' != p' && p' != q' && q' != v'
    requires EdgeKey(v, p) in m && EdgeKey(q, v) in m && EdgeKey(v', p') in m && EdgeKey(q', v') in m
    requires SameFace(Tri(v, m[EdgeKey(v, p)], m[EdgeKey(q, v)]), Tri(v', m[EdgeKey(v', p')], m[EdgeKey(q', v')]))
    ensures v == v' && ((p == p' && q == q') || (p == q' && q == p'))
  {
  }

  /** Two centre children [a, b, c] with the same corners come from
      parents with the same corners. */
  lemma CentreChildren(t: Tri, u: Tri, m: map<Edge, nat>, n0: nat)
    requires FreshMidpoints(m, n0) && Parent(t, m, n0) && Parent(u, m, n0)
    requires SameFace(Children(t, m)[3], Children(u, m)[3])
    ensures SameFace(t, u)
  {
    CentreEdges(t, u, m, n0);
    CentreEdges(u, t, m, n0);
    EdgeEndsOn(EdgeKey(t.v1, t.v2), u);
    EdgeEndsOn(EdgeKey(t.v2, t.v3), u);
    EdgeEndsOn(EdgeKey(u.v1, u.v2), t);
    EdgeEndsOn(EdgeKey(u.v2, u.v3), t);
  }

  /** A corner of u's centre child that is the midpoint of e makes e an edge of u. */
  lemma MidpointOn(e: Edge, u: Tri, m: map<Edge, nat>, n0: nat)
    requires FreshMidpoints(m, n0) && e in m && TriEdges(u) <= m.Keys
    requires On(m[e], Children(u, m)[3])
    ensures e in TriEdges(u)
  {
    var xy, yz, zx := EdgeKey(u.v1, u.v2), EdgeKey(u.v2, u.v3), EdgeKey(u.v3, u.v1);
    assert Children(u, m)[3] == Tri(m[xy], m[yz], m[zx]);
    assert m[e] == m[xy] || m[e] == m[yz] || m[e] == m[zx];
  }

  /** If t's centre child has its corners on u's centre child, t's edges are u's. */
  lemma CentreEdges(t: Tri, u: Tri, m: map<Edge, nat>, n0: nat)
    requires FreshMidpoints(m, n0) && Parent(t, m, n0) && Parent(u, m, n0)
    requires SameFace(Children(t, m)[3], Children(u, m)[3])
    ensures TriEdges(t) <= TriEdges(u)
  {
    var xy, yz, zx := EdgeKey(t.v1, t.v2), EdgeKey(t.v2, t.v3), EdgeKey(t.v3, t.v1);
    var c := Children(t, m)[3];
    assert c == Tri(m[xy], m[yz], m[zx]);
    MidpointOn(xy, u, m, n0);
    MidpointOn(yz, u, m, n0);
    MidpointOn(zx, u, m, n0);
  }

  /** The corners of t starting from corner r, in winding order. */
  function Rotation(t: Tri, r: nat): (nat, nat, nat)
    requires r < 3
  {
    if r == 0 then (t.v1, t.v2, t.v3) else if r == 1 then (t.v2, t.v3, t.v1) else (t.v3, t.v1, t.v2)
  }

  /** Child r < 3 is the corner child [v, mid(v, p), mid(q, v)] of the
      rotation (v, p, q) starting at corner r. */
  lemma CornerShape(t: Tri, m: map<Edge, nat>, r: nat)
    requires TriEdges(t) <= m.Keys && r < 3
    ensures var (v, p, q) := Rotation(t, r);
      && EdgeKey(v, p) in m && EdgeKey(q, v) in m
      && Children(t, m)[r] == Tri(v, m[EdgeKey(v, p)], m[EdgeKey(q, v)])
  {
  }

  /** A corner child has an old first corner; the centre child has only new corners. */
  lemma ChildKinds(t: Tri, m: map<Edge, nat>, n0: nat)
    requires FreshMidpoints(m, n0) && Parent(t, m, n0)
    ensures Children(t, m)[0].v1 < n0 && Children(t, m)[1].v1 < n0 && Children(t, m)[2].v1 < n0
    ensures var c := Children(t, m)[3]; c.v1 >= n0 && c.v2 >= n0 && c.v3 >= n0
  {
  }

  /** Two corner children with the same corners come from parents with
      the same corners, and from one parent they are the same child. */
  lemma CornerFaces(t: Tri, u: Tri, m: map<Edge, nat>, n0: nat, r: nat, s: nat)
    requires FreshMidpoints(m, n0) && Parent(t, m, n0) && Parent(u, m, n0) && r < 3 && s < 3
    requires SameFace(Children(t, m)[r], Children(u, m)[s])
    ensures SameFace(t, u)
    ensures t == u ==> r == s
  {
    var (v, p, q) := Rotation(t, r);
    var (v', p', q') := Rotation(u, s);
    RotationFace(t, r);
    RotationFace(u, s);
    CornerShape(t, m, r);
    CornerShape(u, m, s);
    CornerChildren(v, p, q, v', p', q', m, n0);
    assert SameFace(Tri(v, p, q), Tri(v', p', q'));
    SameFaceTrans(t, Tri(v, p, q), Tri(v', p', q'));
    SameFaceTrans(t, Tri(v', p', q'), u);
  }

  /** A rotation of a face has the face's corners, and with distinct
      corners different rotations start at different corners. */
  lemma RotationFace(t: Tri, r: nat)
    requires r < 3
    ensures var (v, p, q) := Rotation(t, r); SameFace(t, Tri(v, p, q)) && SameFace(Tri(v, p, q), t)
    ensures Proper(t) ==> forall s :: 0 <= s < 3 && Rotation(t, s).0 == Rotation(t, r).0 ==> s == r
    ensures Proper(t) ==> var (v, p, q) := Rotation(t, r); v != p && p != q && q != v
  {
  }

  lemma SameFaceTrans(t: Tri, u: Tri, w: Tri)
    requires SameFace(t, u) && SameFace(u, w)
    ensures SameFace(t, w)
  {
  }

  /** No corner child has the corners of a centre child. */
  lemma CornerNotCentre(t: Tri, u: Tri, m: map<Edge, nat>, n0: nat, r: nat)
    requires FreshMidpoints(m, n0) && Parent(t, m, n0) && Parent(u, m, n0) && r < 3
    ensures !SameFace(Children(t, m)[r], Children(u, m)[3])
    ensures !SameFace(Children(u, m)[3], Children(t, m)[r])
  {
    ChildKinds(t, m, n0);
    ChildKinds(u, m, n0);
    var c := Children(t, m)[r];
    var d := Children(u, m)[3];
    assert c.v1 < n0 && d.v1 >= n0 && d.v2 >= n0 && d.v3 >= n0;
    assert !On(c.v1, d);
  }

  /** Children with the same corners come from parents with the same
      corners, and from one parent they are the same child. */
  lemma ChildFaces(t: Tri, u: Tri, m: map<Edge, nat>, n0: nat, r: nat, s: nat)
    requires FreshMidpoints(m, n0) && Parent(t, m, n0) && Parent(u, m, n0) && r < 4 && s < 4
    requires SameFace(Children(t, m)[r], Children(u, m)[s])
    ensures SameFace(t, u)
    ensures t == u ==> r == s
  {
    if r == 3 && s == 3 {
      CentreChildren(t, u, m, n0);
    } else if r < 3 && s < 3 {
      CornerFaces(t, u, m, n0, r, s);
    } else if r < 3 {
      CornerNotCentre(t, u, m, n0, r);
    } else {
      CornerNotCentre(u, t, m, n0, s);
    }
  }

  lemma {:induction false} ChildrenOfLength(ts: seq<Tri>, m: map<Edge, nat>)
    requires EdgesOf(ts) <= m.Keys
    ensures |ChildrenOf(ts, m)| == 4 * |ts|
    decreases |ts|
  {
    if ts != [] {
      ChildrenOfLength(ts[..|ts| - 1], m);
    }
  }

  /** Position p of the round's output is child p % 4 of parent p / 4. */
  lemma ChildAt(ts: seq<Tri>, m: map<Edge, nat>, p: nat)
    requires EdgesOf(ts) <= m.Keys && p < 4 * |ts|
    ensures p / 4 < |ts| && TriEdges(ts[p / 4]) <= m.Keys
    ensures |ChildrenOf(ts, m)| == 4 * |ts|
    ensures ChildrenOf(ts, m)[p] == Children(ts[p / 4], m)[p % 4]
  {
    var i := p / 4;
    ChildrenOfLayout(ts, m, i);
    assert ChildrenOf(ts, m)[4 * i .. 4 * i + 4][p % 4] == ChildrenOf(ts, m)[p];
  }

  /** A round keeps Simple. */
  lemma ChildrenOfSimple(ts: seq<Tri>, m: map<Edge, nat>, n0: nat)
    requires Simple(ts) && IndicesBelow(ts, n0) && EdgesOf(ts) <= m.Keys && FreshMidpoints(m, n0)
    ensures Simple(ChildrenOf(ts, m))
  {
    var cs := ChildrenOf(ts, m);
    ChildrenOfLength(ts, m);
    forall p | 0 <= p < |cs|
      ensures Proper(cs[p])
    {
      ChildAt(ts, m, p);
      ChildProper(ts[p / 4], m, n0, p % 4);
    }
    forall p, q | 0 <= p < |cs| && 0 <= q < |cs| && SameFace(cs[p], cs[q])
      ensures p == q
    {
      ChildAt(ts, m, p);
      ChildAt(ts, m, q);
      ChildFaces(ts[p / 4], ts[q / 4], m, n0, p % 4, q % 4);
    }
  }

  /** The two halves of every edge of E: from each end to the edge's midpoint. */
  function Halves(E: set<Edge>, m: map<Edge, nat>): set<Edge>
    requires E <= m.Keys
  {
    (set e | e in E :: Edge(e.lo, m[e])) + (set e | e in E :: Edge(e.hi, m[e]))
  }

  /** The inner edges of a parent's children: the sides of the centre child. */
  function Inner(t: Tri, m: map<Edge, nat>): set<Edge>
    requires TriEdges(t) <= m.Keys
  {
    var a := m[EdgeKey(t.v1, t.v2)];
    var b := m[EdgeKey(t.v2, t.v3)];
    var c := m[EdgeKey(t.v3, t.v1)];
    {EdgeKey(a, b), EdgeKey(b, c), EdgeKey(c, a)}
  }

  /** The inner edges of all parents. */
  function Inners(ts: seq<Tri>, m: map<Edge, nat>): set<Edge>
    requires EdgesOf(ts) <= m.Keys
    decreases |ts|
  {
    if ts == [] then {} else Inners(ts[..|ts| - 1], m) + Inner(ts[|ts| - 1], m)
  }

  lemma HalvesUnion(E1: set<Edge>, E2: set<Edge>, m: map<Edge, nat>)
    requires E1 + E2 <= m.Keys
    ensures Halves(E1 + E2, m) == Halves(E1, m) + Halves(E2, m)
  {
  }

  lemma EdgesOfFour(cs: seq<Tri>)
    requires |cs| == 4
    ensures EdgesOf(cs) == TriEdges(cs[0]) + TriEdges(cs[1]) + TriEdges(cs[2]) + TriEdges(cs[3])
  {
    var c1, c2, c3 := cs[..1], cs[..2], cs[..3];
    assert c3[..2] == c2 && c2[..1] == c1 && c1[..0] == [];
    assert c1[0] == cs[0] && c2[1] == cs[1] && c3[2] == cs[2];
    assert EdgesOf(c1) == TriEdges(cs[0]);
    assert EdgesOf(c2) == EdgesOf(c1) + TriEdges(cs[1]);
    assert EdgesOf(c3) == EdgesOf(c2) + TriEdges(cs[2]);
  }

  /** The two halves of one edge. */
  lemma HalvesOne(e: Edge, m: map<Edge, nat>)
    requires e in m
    ensures Halves({e}, m) == {Edge(e.lo, m[e]), Edge(e.hi, m[e])}
  {
    assert (set f | f in {e} :: Edge(f.lo, m[f])) == {Edge(e.lo, m[e])};
    assert (set f | f in {e} :: Edge(f.hi, m[f])) == {Edge(e.hi, m[e])};
  }

  /** The halves of the edge between two old vertices i and j, with midpoint k. */
  lemma HalvesOfKey(i: nat, j: nat, m: map<Edge, nat>, n0: nat)
    requires FreshMidpoints(m, n0) && EdgeKey(i, j) in m
    ensures var k := m[EdgeKey(i, j)]; Halves({EdgeKey(i, j)}, m) == {EdgeKey(i, k), EdgeKey(k, j)}
  {
    HalvesOne(EdgeKey(i, j), m);
  }

  /** The edges of one parent's children: the halves of its edges and its
      inner edges. */
  lemma ChildEdges(t: Tri, m: map<Edge, nat>, n0: nat)
    requires FreshMidpoints(m, n0) && Parent(t, m, n0)
    ensures EdgesOf(Children(t, m)) == Halves(TriEdges(t), m) + Inner(t, m)
  {
    var a := m[EdgeKey(t.v1, t.v2)];
    var b := m[EdgeKey(t.v2, t.v3)];
    var c := m[EdgeKey(t.v3, t.v1)];
    var cs := Children(t, m);
    EdgesOfFour(cs);
    HalvesOfTri(t, m, n0);
    var xa, ay, yb, bz, zc, cx := EdgeKey(t.v1, a), EdgeKey(a, t.v2), EdgeKey(t.v2, b), EdgeKey(b, t.v3), EdgeKey(t.v3, c), EdgeKey(c, t.v1);
    var ab, bc, ca := EdgeKey(a, b), EdgeKey(b, c), EdgeKey(c, a);
    assert TriEdges(cs[0]) == {xa, ca, cx};
    assert TriEdges(cs[1]) == {yb, ab, ay};
    assert TriEdges(cs[2]) == {zc, bc, bz};
    NineEdges(xa, ay, yb, bz, zc, cx, ab, bc, ca);
  }

  /** The edges of the four children, regrouped as six halves and three inner edges. */
  lemma NineEdges(xa: Edge, ay: Edge, yb: Edge, bz: Edge, zc: Edge, cx: Edge, ab: Edge, bc: Edge, ca: Edge)
    ensures {xa, ca, cx} + {yb, ab, ay} + {zc, bc, bz} + {ab, bc, ca} == {xa, ay, yb, bz, zc, cx} + {ab, bc, ca}
  {
  }

  /** The six halves of a parent's edges. */
  lemma HalvesOfTri(t: Tri, m: map<Edge, nat>, n0: nat)
    requires FreshMidpoints(m, n0) && Parent(t, m, n0)
    ensures var a, b, c := m[EdgeKey(t.v1, t.v2)], m[EdgeKey(t.v2, t.v3)], m[EdgeKey(t.v3, t.v1)];
      Halves(TriEdges(t), m) == {EdgeKey(t.v1, a), EdgeKey(a, t.v2), EdgeKey(t.v2, b),
                                EdgeKey(b, t.v3), EdgeKey(t.v3, c), EdgeKey(c, t.v1)}
  {
    var xy, yz, zx := EdgeKey(t.v1, t.v2), EdgeKey(t.v2, t.v3), EdgeKey(t.v3, t.v1);
    assert TriEdges(t) == {xy} + {yz} + {zx};
    HalvesUnion({xy}, {yz}, m);
    HalvesUnion({xy} + {yz}, {zx}, m);
    HalvesOfKey(t.v1, t.v2, m, n0);
    HalvesOfKey(t.v2, t.v3, m, n0);
    HalvesOfKey(t.v3, t.v1, m, n0);
  }

  /** The edges of a round's output: the halves of the parents' edges and
      the parents' inner edges. */
  lemma {:induction false} ChildrenOfEdges(ts: seq<Tri>, m: map<Edge, nat>, n0: nat)
    requires FreshMidpoints(m, n0) && EdgesOf(ts) <= m.Keys && IndicesBelow(ts, n0)
    requires forall i :: 0 <= i < |ts| ==> Proper(ts[i])
    ensures EdgesOf(ChildrenOf(ts, m)) == Halves(EdgesOf(ts), m) + Inners(ts, m)
    decreases |ts|
  {
    if ts != [] {
      var n := |ts| - 1;
      IndicesBelowPrefix(ts, n0, n);
      assert forall i :: 0 <= i < n ==> ts[..n][i] == ts[i];
      ChildrenOfEdges(ts[..n], m, n0);
      assert ChildrenOf(ts, m) == ChildrenOf(ts[..n], m) + Children(ts[n], m);
      assert EdgesOf(ts) == EdgesOf(ts[..n]) + TriEdges(ts[n]);
      assert Inners(ts, m) == Inners(ts[..n], m) + Inner(ts[n], m);
      EdgesOfAppend(ChildrenOf(ts[..n], m), Children(ts[n], m));
      ChildEdges(ts[n], m, n0);
      HalvesUnion(EdgesOf(ts[..n]), TriEdges(ts[n]), m);
    }
  }

  lemma DisjointUnion(A: set<Edge>, B: set<Edge>)
    requires A !! B
    ensures |A + B| == |A| + |B|
  {
    assert A * B == {};
  }

  /** Each edge has two halves, and halves of distinct edges are distinct. */
  lemma {:induction false} HalvesCount(E: set<Edge>, m: map<Edge, nat>, n0: nat)
    requires E <= m.Keys && FreshMidpoints(m, n0)
    requires forall e :: e in E ==> e.lo < e.hi
    ensures |Halves(E, m)| == 2 * |E|
    decreases |E|
  {
    if E != {} {
      var e :| e in E;
      var E' := E - {e};
      assert E == E' + {e};
      assert |E| == |E'| + 1;
      HalvesCount(E', m, n0);
      HalvesAdd(E', e, m, n0);
    }
  }

  /** Adding an edge adds its two halves. */
  lemma HalvesAdd(E: set<Edge>, e: Edge, m: map<Edge, nat>, n0: nat)
    requires E <= m.Keys && e in m && e !in E && FreshMidpoints(m, n0) && e.lo < e.hi
    ensures |Halves(E + {e}, m)| == |Halves(E, m)| + 2
  {
    HalvesUnion(E, {e}, m);
    HalvesOne(e, m);
    HalvesApart(E, e, m, n0);
    AddTwo(Halves(E, m), Halves({e}, m), Edge(e.lo, m[e]), Edge(e.hi, m[e]));
  }

  lemma AddTwo(A: set<Edge>, B: set<Edge>, x: Edge, y: Edge)
    requires A !! B && B == {x, y} && x != y
    ensures |A + B| == |A| + 2
  {
    DisjointUnion(A, B);
  }

  /** The halves of an edge not in E are none of the halves of E. */
  lemma HalvesApart(E: set<Edge>, e: Edge, m: map<Edge, nat>, n0: nat)
    requires E <= m.Keys && e in m && e !in E && FreshMidpoints(m, n0)
    ensures Halves(E, m) !! Halves({e}, m)
  {
    HalvesOne(e, m);
    HalvesEnds(E, m);
    forall w | w in Halves(E, m)
      ensures w !in Halves({e}, m)
    {
      var e' :| e' in E && m[e'] == w.hi && (w.lo == e'.lo || w.lo == e'.hi);
      assert e' != e && e' in m;
      assert m[e'] != m[e];
    }
  }

  /** Every half runs from an end of an edge of E to that edge's midpoint. */
  lemma HalvesEnds(E: set<Edge>, m: map<Edge, nat>)
    requires E <= m.Keys
    ensures forall w :: w in Halves(E, m) ==> exists e :: e in E && m[e] == w.hi && (w.lo == e.lo || w.lo == e.hi)
  {
    forall w | w in Halves(E, m)
      ensures exists e :: e in E && m[e] == w.hi && (w.lo == e.lo || w.lo == e.hi)
    {
      if w in (set e | e in E :: Edge(e.lo, m[e])) {
        var e :| e in E && w == Edge(e.lo, m[e]);
      } else {
        var e :| e in E && w == Edge(e.hi, m[e]);
      }
    }
  }

  /** Every half ends at an old vertex. */
  lemma HalvesLow(E: set<Edge>, m: map<Edge, nat>, n0: nat)
    requires E <= m.Keys && FreshMidpoints(m, n0)
    ensures forall w :: w in Halves(E, m) ==> w.lo < n0
  {
    HalvesEnds(E, m);
    forall w | w in Halves(E, m)
      ensures w.lo < n0
    {
      var e :| e in E && m[e] == w.hi && (w.lo == e.lo || w.lo == e.hi);
      assert e in m && e.lo <= e.hi < n0;
    }
  }

  /** Every inner edge joins two new vertices. */
  lemma {:induction false} InnersHigh(ts: seq<Tri>, m: map<Edge, nat>, n0: nat)
    requires EdgesOf(ts) <= m.Keys && FreshMidpoints(m, n0)
    ensures forall w :: w in Inners(ts, m) ==> w.lo >= n0
    decreases |ts|
  {
    if ts != [] {
      InnersHigh(ts[..|ts| - 1], m, n0);
    }
  }

  /** Every inner edge is an inner edge of one of the parents. */
  lemma {:induction false} InnersSound(ts: seq<Tri>, m: map<Edge, nat>)
    requires EdgesOf(ts) <= m.Keys
    ensures forall w :: w in Inners(ts, m) ==>
      exists i :: 0 <= i < |ts| && TriEdges(ts[i]) <= m.Keys && w in Inner(ts[i], m)
    decreases |ts|
  {
    if ts != [] {
      var n := |ts| - 1;
      InnersSound(ts[..n], m);
      forall w | w in Inners(ts, m)
        ensures exists i :: 0 <= i < |ts| && TriEdges(ts[i]) <= m.Keys && w in Inner(ts[i], m)
      {
        if w in Inners(ts[..n], m) {
          var i :| 0 <= i < n && TriEdges(ts[..n][i]) <= m.Keys && w in Inner(ts[..n][i], m);
          assert ts[..n][i] == ts[i];
        } else {
          assert w in Inner(ts[n], m);
        }
      }
    }
  }

  /** Two distinct edges of t that are edges of u put every corner of t on u. */
  lemma TwoEdgesOn(t: Tri, e1: Edge, e2: Edge, u: Tri)
    requires Proper(t) && e1 != e2
    requires e1 in TriEdges(t) && e2 in TriEdges(t) && e1 in TriEdges(u) && e2 in TriEdges(u)
    ensures On(t.v1, u) && On(t.v2, u) && On(t.v3, u)
  {
    EdgeEndsOn(e1, u);
    EdgeEndsOn(e2, u);
  }

  /** An inner edge of t joins the midpoints of two distinct edges of t. */
  lemma InnerPair(t: Tri, m: map<Edge, nat>, n0: nat, w: Edge) returns (e1: Edge, e2: Edge)
    requires FreshMidpoints(m, n0) && Parent(t, m, n0) && w in Inner(t, m)
    ensures e1 in TriEdges(t) && e2 in TriEdges(t) && e1 != e2
    ensures w == EdgeKey(m[e1], m[e2])
  {
    var xy, yz, zx := EdgeKey(t.v1, t.v2), EdgeKey(t.v2, t.v3), EdgeKey(t.v3, t.v1);
    if w == EdgeKey(m[xy], m[yz]) {
      e1, e2 := xy, yz;
    } else if w == EdgeKey(m[yz], m[zx]) {
      e1, e2 := yz, zx;
    } else {
      e1, e2 := zx, xy;
    }
  }

  /** Parents that share an inner edge have the same corners. */
  lemma InnerShared(t: Tri, u: Tri, m: map<Edge, nat>, n0: nat, w: Edge)
    requires FreshMidpoints(m, n0) && Parent(t, m, n0) && Parent(u, m, n0)
    requires w in Inner(t, m) && w in Inner(u, m)
    ensures SameFace(t, u)
  {
    var e1, e2 := InnerPair(t, m, n0, w);
    var f1, f2 := InnerPair(u, m, n0, w);
    assert (m[e1] == m[f1] && m[e2] == m[f2]) || (m[e1] == m[f2] && m[e2] == m[f1]);
    assert e1 in TriEdges(u) && e2 in TriEdges(u) && f1 in TriEdges(t) && f2 in TriEdges(t);
    TwoEdgesOn(t, e1, e2, u);
    TwoEdgesOn(u, f1, f2, t);
  }

  /** A parent has three inner edges. */
  lemma InnerSize(t: Tri, m: map<Edge, nat>, n0: nat)
    requires FreshMidpoints(m, n0) && Parent(t, m, n0)
    ensures |Inner(t, m)| == 3
  {
    var a := m[EdgeKey(t.v1, t.v2)];
    var b := m[EdgeKey(t.v2, t.v3)];
    var c := m[EdgeKey(t.v3, t.v1)];
    assert a != b && b != c && c != a;
  }

  /** Three inner edges per parent, none shared. */
  lemma {:induction false} InnersCount(ts: seq<Tri>, m: map<Edge, nat>, n0: nat)
    requires Simple(ts) && IndicesBelow(ts, n0) && EdgesOf(ts) <= m.Keys && FreshMidpoints(m, n0)
    ensures |Inners(ts, m)| == 3 * |ts|
    decreases |ts|
  {
    if ts != [] {
      var n := |ts| - 1;
      var t := ts[n];
      SimplePrefix(ts, n);
      IndicesBelowPrefix(ts, n0, n);
      InnersCount(ts[..n], m, n0);
      InnersSound(ts[..n], m);
      forall w | w in Inner(t, m)
        ensures w !in Inners(ts[..n], m)
      {
        if w in Inners(ts[..n], m) {
          var i :| 0 <= i < n && TriEdges(ts[..n][i]) <= m.Keys && w in Inner(ts[..n][i], m);
          assert ts[..n][i] == ts[i];
          InnerShared(t, ts[i], m, n0, w);
        }
      }
      InnerSize(t, m, n0);
      DisjointUnion(Inners(ts[..n], m), Inner(t, m));
    }
  }

  /** A round turns E edges and F faces into 2E + 3F edges. */
  lemma ChildEdgeCount(ts: seq<Tri>, m: map<Edge, nat>, n0: nat)
    requires Simple(ts) && IndicesBelow(ts, n0) && EdgesOf(ts) <= m.Keys && FreshMidpoints(m, n0)
    ensures |EdgesOf(ChildrenOf(ts, m))| == 2 * |EdgesOf(ts)| + 3 * |ts|
  {
    ChildrenOfEdges(ts, m, n0);
    ProperEdges(ts);
    HalvesCount(EdgesOf(ts), m, n0);
    HalvesLow(EdgesOf(ts), m, n0);
    InnersCount(ts, m, n0);
    InnersHigh(ts, m, n0);
    DisjointUnion(Halves(EdgesOf(ts), m), Inners(ts, m));
  }

  /** One round of SplitFrom keeps Simple and takes E edges and F faces to
      2E + 3F edges. */
  lemma RoundCounts(vs0: seq<Vec3>, ts: seq<Tri>, normalize: Vec3 -> Vec3)
    requires IndicesBelow(ts, |vs0|) && Simple(ts)
    ensures var st := SplitFrom(vs0, ts, normalize);
      && Simple(st.triangles)
      && |EdgesOf(st.triangles)| == 2 * |EdgesOf(ts)| + 3 * |ts|
  {
    var st := SplitFrom(vs0, ts, normalize);
    RoundCache(vs0, ts, normalize);
    RoundChildren(vs0, ts, normalize);
    CacheFresh(vs0, st.vertices, st.midpoints, normalize);
    ChildrenOfSimple(ts, st.midpoints, |vs0|);
    ChildEdgeCount(ts, st.midpoints, |vs0|);
  }

  /** Round k of the loop takes 20 * 4^(k-1) faces, 30 * 4^(k-1) edges and
      10 * 4^(k-1) + 2 vertices to four times as many faces and edges and
      10 * 4^k + 2 vertices, and keeps the faces distinct. */
  lemma GeneratedStep(k: nat, normalize: Vec3 -> Vec3)
    requires k > 0
    requires Simple(Generated(k - 1, normalize).triangles)
    requires |EdgesOf(Generated(k - 1, normalize).triangles)| == 30 * Pow4(k - 1)
    requires |Generated(k - 1, normalize).vertices| == 10 * Pow4(k - 1) + 2
    ensures Simple(Generated(k, normalize).triangles)
    ensures |EdgesOf(Generated(k, normalize).triangles)| == 30 * Pow4(k)
    ensures |Generated(k, normalize).vertices| == 10 * Pow4(k) + 2
  {
    var g := Generated(k - 1, normalize);
    var h := Subdivide(g, normalize);
    var st := SplitFrom(g.vertices, g.triangles, normalize);
    RoundCounts(g.vertices, g.triangles, normalize);
    SubdivideRound(g, normalize);
    assert h.triangles == st.triangles;
  }

  /** Round 0 is the icosahedron: 12 vertices, 30 edges, 20 distinct faces. */
  lemma GeneratedZero(k: nat, normalize: Vec3 -> Vec3)
    requires k == 0
    ensures Simple(Generated(k, normalize).triangles)
    ensures |EdgesOf(Generated(k, normalize).triangles)| == 30 * Pow4(k)
    ensures |Generated(k, normalize).vertices| == 10 * Pow4(k) + 2
  {
    BaseSimple();
    BaseEdgesOf();
    BaseEdgeCount();
    assert |BaseVertices(normalize)| == 12;
  }

  /** After k > 0 rounds, by induction from round 1. */
  lemma {:induction false} GeneratedPositive(k: nat, normalize: Vec3 -> Vec3)
    requires k > 0
    ensures Simple(Generated(k, normalize).triangles)
    ensures |EdgesOf(Generated(k, normalize).triangles)| == 30 * Pow4(k)
    ensures |Generated(k, normalize).vertices| == 10 * Pow4(k) + 2
  {
    if k == 1 {
      GeneratedZero(k - 1, normalize);
    } else {
      GeneratedPositive(k - 1, normalize);
    }
    GeneratedStep(k, normalize);
  }

  /** After k rounds: 10 * 4^k + 2 vertices, 30 * 4^k edges and
      20 * 4^k faces, no two faces with the same corners. */
  lemma GeneratedCounts(k: nat, normalize: Vec3 -> Vec3)
    ensures Simple(Generated(k, normalize).triangles)
    ensures |Generated(k, normalize).triangles| == 20 * Pow4(k)
    ensures |EdgesOf(Generated(k, normalize).triangles)| == 30 * Pow4(k)
    ensures |Generated(k, normalize).vertices| == 10 * Pow4(k) + 2
  {
    if k == 0 {
      GeneratedZero(k, normalize);
    } else {
      GeneratedPositive(k, normalize);
    }
  }
}
