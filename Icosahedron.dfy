/** The initial icosahedron of the tessellation: 12 vertices, 20 faces and,
    as a consequence, 30 undirected edges. */
module Icosahedron {
  import opened Mesh

  /** The golden ratio (1 + sqrt 5) / 2, written as the shortest decimal that rounds to the double the source computes. */
  const Phi: real := 1.618033988749895

  /** The icosahedron's vertices before normalisation. */
  function RawBase(): seq<Vec3> {
    [ Vec3(-1.0, Phi, 0.0), Vec3(1.0, Phi, 0.0), Vec3(-1.0, -Phi, 0.0), Vec3(1.0, -Phi, 0.0),
      Vec3(0.0, -1.0, Phi), Vec3(0.0, 1.0, Phi), Vec3(0.0, -1.0, -Phi), Vec3(0.0, 1.0, -Phi),
      Vec3(Phi, 0.0, -1.0), Vec3(Phi, 0.0, 1.0), Vec3(-Phi, 0.0, -1.0), Vec3(-Phi, 0.0, 1.0) ]
  }

  /** The icosahedron's 20 faces. */
  function BaseTriangles(): seq<Tri> {
    [ Tri(0, 11, 5), Tri(0, 5, 1), Tri(0, 1, 7), Tri(0, 7, 10), Tri(0, 10, 11),
      Tri(1, 5, 9), Tri(5, 11, 4), Tri(11, 10, 2), Tri(10, 7, 6), Tri(7, 1, 8),
      Tri(3, 9, 4), Tri(3, 4, 2), Tri(3, 2, 6), Tri(3, 6, 8), Tri(3, 8, 9),
      Tri(4, 9, 5), Tri(2, 4, 11), Tri(6, 2, 10), Tri(8, 6, 7), Tri(9, 8, 1) ]
  }

  lemma BaseMesh()
    ensures |RawBase()| == 12 && |BaseTriangles()| == 20
    ensures IndicesBelow(BaseTriangles(), 12)
  {
  }

  /** The 30 edges of the icosahedron, in increasing order. */
  function BaseEdgeList(): seq<Edge> {
    [ Edge(0, 1), Edge(0, 5), Edge(0, 7), Edge(0, 10), Edge(0, 11), Edge(1, 5),
      Edge(1, 7), Edge(1, 8), Edge(1, 9), Edge(2, 3), Edge(2, 4), Edge(2, 6),
      Edge(2, 10), Edge(2, 11), Edge(3, 4), Edge(3, 6), Edge(3, 8), Edge(3, 9),
      Edge(4, 5), Edge(4, 9), Edge(4, 11), Edge(5, 9), Edge(5, 11), Edge(6, 7),
      Edge(6, 8), Edge(6, 10), Edge(7, 8), Edge(7, 10), Edge(8, 9), Edge(10, 11) ]
  }

  /** The 30 edges of the icosahedron. */
  function BaseEdges(): set<Edge> {
    Elements(BaseEdgeList())
  }

  /** The list is strictly increasing in the lexicographic order. */
  lemma BaseEdgeListSorted()
    ensures forall i :: 0 <= i < |BaseEdgeList()| - 1 ==> EdgeLess(BaseEdgeList()[i], BaseEdgeList()[i + 1])
  {
  }

  /** There are exactly 30 of them. */
  lemma BaseEdgeCount()
    ensures |BaseEdges()| == 30
  {
    BaseEdgeListSorted();
    SortedElements(BaseEdgeList());
  }

  /* Each face's edges are among the 30, and each of the 30 is an edge of
     some face; the check is split into blocks of faces and of edges. */

  lemma FacesWithin0To4()
    ensures forall i, e :: 0 <= i < 5 && e in TriEdges(BaseTriangles()[i]) ==> e in BaseEdgeList()
  {
    var b := BaseTriangles();
    var s := BaseEdgeList();
    forall i | 0 <= i < 5
      ensures forall e :: e in TriEdges(b[i]) ==> e in s
    {
      if i == 0 {
        assert b[0] == Tri(0, 11, 5) && s[4] == EdgeKey(0, 11) && s[22] == EdgeKey(11, 5) && s[1] == EdgeKey(5, 0);
      } else if i == 1 {
        assert b[1] == Tri(0, 5, 1) && s[1] == EdgeKey(0, 5) && s[5] == EdgeKey(5, 1) && s[0] == EdgeKey(1, 0);
      } else if i == 2 {
        assert b[2] == Tri(0, 1, 7) && s[0] == EdgeKey(0, 1) && s[6] == EdgeKey(1, 7) && s[2] == EdgeKey(7, 0);
      } else if i == 3 {
        assert b[3] == Tri(0, 7, 10) && s[2] == EdgeKey(0, 7) && s[27] == EdgeKey(7, 10) && s[3] == EdgeKey(10, 0);
      } else if i == 4 {
        assert b[4] == Tri(0, 10, 11) && s[3] == EdgeKey(0, 10) && s[29] == EdgeKey(10, 11) && s[4] == EdgeKey(11, 0);
      }
    }
  }

  lemma FacesWithin5To9()
    ensures forall i, e :: 5 <= i < 10 && e in TriEdges(BaseTriangles()[i]) ==> e in BaseEdgeList()
  {
    var b := BaseTriangles();
    var s := BaseEdgeList();
    forall i | 5 <= i < 10
      ensures forall e :: e in TriEdges(b[i]) ==> e in s
    {
      if i == 5 {
        assert b[5] == Tri(1, 5, 9) && s[5] == EdgeKey(1, 5) && s[21] == EdgeKey(5, 9) && s[8] == EdgeKey(9, 1);
      } else if i == 6 {
        assert b[6] == Tri(5, 11, 4) && s[22] == EdgeKey(5, 11) && s[20] == EdgeKey(11, 4) && s[18] == EdgeKey(4, 5);
      } else if i == 7 {
        assert b[7] == Tri(11, 10, 2) && s[29] == EdgeKey(11, 10) && s[12] == EdgeKey(10, 2) && s[13] == EdgeKey(2, 11);
      } else if i == 8 {
        assert b[8] == Tri(10, 7, 6) && s[27] == EdgeKey(10, 7) && s[23] == EdgeKey(7, 6) && s[25] == EdgeKey(6, 10);
      } else if i == 9 {
        assert b[9] == Tri(7, 1, 8) && s[6] == EdgeKey(7, 1) && s[7] == EdgeKey(1, 8) && s[26] == EdgeKey(8, 7);
      }
    }
  }

  lemma FacesWithin10To14()
    ensures forall i, e :: 10 <= i < 15 && e in TriEdges(BaseTriangles()[i]) ==> e in BaseEdgeList()
  {
    var b := BaseTriangles();
    var s := BaseEdgeList();
    forall i | 10 <= i < 15
      ensures forall e :: e in TriEdges(b[i]) ==> e in s
    {
      if i == 10 {
        assert b[10] == Tri(3, 9, 4) && s[17] == EdgeKey(3, 9) && s[19] == EdgeKey(9, 4) && s[14] == EdgeKey(4, 3);
      } else if i == 11 {
        assert b[11] == Tri(3, 4, 2) && s[14] == EdgeKey(3, 4) && s[10] == EdgeKey(4, 2) && s[9] == EdgeKey(2, 3);
      } else if i == 12 {
        assert b[12] == Tri(3, 2, 6) && s[9] == EdgeKey(3, 2) && s[11] == EdgeKey(2, 6) && s[15] == EdgeKey(6, 3);
      } else if i == 13 {
        assert b[13] == Tri(3, 6, 8) && s[15] == EdgeKey(3, 6) && s[24] == EdgeKey(6, 8) && s[16] == EdgeKey(8, 3);
      } else if i == 14 {
        assert b[14] == Tri(3, 8, 9) && s[16] == EdgeKey(3, 8) && s[28] == EdgeKey(8, 9) && s[17] == EdgeKey(9, 3);
      }
    }
  }

  lemma FacesWithin15To19()
    ensures forall i, e :: 15 <= i < 20 && e in TriEdges(BaseTriangles()[i]) ==> e in BaseEdgeList()
  {
    var b := BaseTriangles();
    var s := BaseEdgeList();
    forall i | 15 <= i < 20
      ensures forall e :: e in TriEdges(b[i]) ==> e in s
    {
      if i == 15 {
        assert b[15] == Tri(4, 9, 5) && s[19] == EdgeKey(4, 9) && s[21] == EdgeKey(9, 5) && s[18] == EdgeKey(5, 4);
      } else if i == 16 {
        assert b[16] == Tri(2, 4, 11) && s[10] == EdgeKey(2, 4) && s[20] == EdgeKey(4, 11) && s[13] == EdgeKey(11, 2);
      } else if i == 17 {
        assert b[17] == Tri(6, 2, 10) && s[11] == EdgeKey(6, 2) && s[12] == EdgeKey(2, 10) && s[25] == EdgeKey(10, 6);
      } else if i == 18 {
        assert b[18] == Tri(8, 6, 7) && s[24] == EdgeKey(8, 6) && s[23] == EdgeKey(6, 7) && s[26] == EdgeKey(7, 8);
      } else if i == 19 {
        assert b[19] == Tri(9, 8, 1) && s[28] == EdgeKey(9, 8) && s[7] == EdgeKey(8, 1) && s[8] == EdgeKey(1, 9);
      }
    }
  }

  lemma EdgesCovered0To4()
    ensures forall k :: 0 <= k < 5 ==> BaseEdgeList()[k] in EdgesOf(BaseTriangles())
  {
    var b := BaseTriangles();
    var s := BaseEdgeList();
    forall k | 0 <= k < 5
      ensures s[k] in EdgesOf(b)
    {
      if k == 0 {
        assert s[0] in TriEdges(b[1]);
        EdgesOfMember(b, 1);
      } else if k == 1 {
        assert s[1] in TriEdges(b[0]);
        EdgesOfMember(b, 0);
      } else if k == 2 {
        assert s[2] in TriEdges(b[2]);
        EdgesOfMember(b, 2);
      } else if k == 3 {
        assert s[3] in TriEdges(b[3]);
        EdgesOfMember(b, 3);
      } else if k == 4 {
        assert s[4] in TriEdges(b[0]);
        EdgesOfMember(b, 0);
      }
    }
  }

  lemma EdgesCovered5To9()
    ensures forall k :: 5 <= k < 10 ==> BaseEdgeList()[k] in EdgesOf(BaseTriangles())
  {
    var b := BaseTriangles();
    var s := BaseEdgeList();
    forall k | 5 <= k < 10
      ensures s[k] in EdgesOf(b)
    {
      if k == 5 {
        assert s[5] in TriEdges(b[1]);
        EdgesOfMember(b, 1);
      } else if k == 6 {
        assert s[6] in TriEdges(b[2]);
        EdgesOfMember(b, 2);
      } else if k == 7 {
        assert s[7] in TriEdges(b[9]);
        EdgesOfMember(b, 9);
      } else if k == 8 {
        assert s[8] in TriEdges(b[5]);
        EdgesOfMember(b, 5);
      } else if k == 9 {
        assert s[9] in TriEdges(b[11]);
        EdgesOfMember(b, 11);
      }
    }
  }

  lemma EdgesCovered10To14()
    ensures forall k :: 10 <= k < 15 ==> BaseEdgeList()[k] in EdgesOf(BaseTriangles())
  {
    var b := BaseTriangles();
    var s := BaseEdgeList();
    forall k | 10 <= k < 15
      ensures s[k] in EdgesOf(b)
    {
      if k == 10 {
        assert s[10] in TriEdges(b[11]);
        EdgesOfMember(b, 11);
      } else if k == 11 {
        assert s[11] in TriEdges(b[12]);
        EdgesOfMember(b, 12);
      } else if k == 12 {
        assert s[12] in TriEdges(b[7]);
        EdgesOfMember(b, 7);
      } else if k == 13 {
        assert s[13] in TriEdges(b[7]);
        EdgesOfMember(b, 7);
      } else if k == 14 {
        assert s[14] in TriEdges(b[10]);
        EdgesOfMember(b, 10);
      }
    }
  }

  lemma EdgesCovered15To19()
    ensures forall k :: 15 <= k < 20 ==> BaseEdgeList()[k] in EdgesOf(BaseTriangles())
  {
    var b := BaseTriangles();
    var s := BaseEdgeList();
    forall k | 15 <= k < 20
      ensures s[k] in EdgesOf(b)
    {
      if k == 15 {
        assert s[15] in TriEdges(b[12]);
        EdgesOfMember(b, 12);
      } else if k == 16 {
        assert s[16] in TriEdges(b[13]);
        EdgesOfMember(b, 13);
      } else if k == 17 {
        assert s[17] in TriEdges(b[10]);
        EdgesOfMember(b, 10);
      } else if k == 18 {
        assert s[18] in TriEdges(b[6]);
        EdgesOfMember(b, 6);
      } else if k == 19 {
        assert s[19] in TriEdges(b[10]);
        EdgesOfMember(b, 10);
      }
    }
  }

  lemma EdgesCovered20To24()
    ensures forall k :: 20 <= k < 25 ==> BaseEdgeList()[k] in EdgesOf(BaseTriangles())
  {
    var b := BaseTriangles();
    var s := BaseEdgeList();
    forall k | 20 <= k < 25
      ensures s[k] in EdgesOf(b)
    {
      if k == 20 {
        assert s[20] in TriEdges(b[6]);
        EdgesOfMember(b, 6);
      } else if k == 21 {
        assert s[21] in TriEdges(b[5]);
        EdgesOfMember(b, 5);
      } else if k == 22 {
        assert s[22] in TriEdges(b[0]);
        EdgesOfMember(b, 0);
      } else if k == 23 {
        assert s[23] in TriEdges(b[8]);
        EdgesOfMember(b, 8);
      } else if k == 24 {
        assert s[24] in TriEdges(b[13]);
        EdgesOfMember(b, 13);
      }
    }
  }

  lemma EdgesCovered25To29()
    ensures forall k :: 25 <= k < 30 ==> BaseEdgeList()[k] in EdgesOf(BaseTriangles())
  {
    var b := BaseTriangles();
    var s := BaseEdgeList();
    forall k | 25 <= k < 30
      ensures s[k] in EdgesOf(b)
    {
      if k == 25 {
        assert s[25] in TriEdges(b[8]);
        EdgesOfMember(b, 8);
      } else if k == 26 {
        assert s[26] in TriEdges(b[9]);
        EdgesOfMember(b, 9);
      } else if k == 27 {
        assert s[27] in TriEdges(b[3]);
        EdgesOfMember(b, 3);
      } else if k == 28 {
        assert s[28] in TriEdges(b[14]);
        EdgesOfMember(b, 14);
      } else if k == 29 {
        assert s[29] in TriEdges(b[4]);
        EdgesOfMember(b, 4);
      }
    }
  }

  /** The distinct edges of the 20 base faces are exactly the 30 edges above. */
  lemma BaseEdgesOf()
    ensures EdgesOf(BaseTriangles()) == BaseEdges()
  {
    EdgesOfCharacter(BaseTriangles());
    ElementsCharacter(BaseEdgeList());
    FacesWithin0To4();
    FacesWithin5To9();
    FacesWithin10To14();
    FacesWithin15To19();
    EdgesCovered0To4();
    EdgesCovered5To9();
    EdgesCovered10To14();
    EdgesCovered15To19();
    EdgesCovered20To24();
    EdgesCovered25To29();
  }

  /** The 20 faces have three distinct corners each and no two of them have
      the same corners. */
  /* No two faces have the same corners; the check is split into blocks of faces. */

  lemma FacesUnique0To4()
    ensures forall i, j :: 0 <= i < 5 && 0 <= j < 20 && SameFace(BaseTriangles()[i], BaseTriangles()[j]) ==> i == j
  {
    var b := BaseTriangles();
    forall i | 0 <= i < 5
      ensures forall j :: 0 <= j < 20 && SameFace(b[i], b[j]) ==> i == j
    {
      if i == 0 {
        assert b[0] == Tri(0, 11, 5);
      } else if i == 1 {
        assert b[1] == Tri(0, 5, 1);
      } else if i == 2 {
        assert b[2] == Tri(0, 1, 7);
      } else if i == 3 {
        assert b[3] == Tri(0, 7, 10);
      } else if i == 4 {
        assert b[4] == Tri(0, 10, 11);
      }
    }
  }

  lemma FacesUnique5To9()
    ensures forall i, j :: 5 <= i < 10 && 0 <= j < 20 && SameFace(BaseTriangles()[i], BaseTriangles()[j]) ==> i == j
  {
    var b := BaseTriangles();
    forall i | 5 <= i < 10
      ensures forall j :: 0 <= j < 20 && SameFace(b[i], b[j]) ==> i == j
    {
      if i == 5 {
        assert b[5] == Tri(1, 5, 9);
      } else if i == 6 {
        assert b[6] == Tri(5, 11, 4);
      } else if i == 7 {
        assert b[7] == Tri(11, 10, 2);
      } else if i == 8 {
        assert b[8] == Tri(10, 7, 6);
      } else if i == 9 {
        assert b[9] == Tri(7, 1, 8);
      }
    }
  }

  lemma FacesUnique10To14()
    ensures forall i, j :: 10 <= i < 15 && 0 <= j < 20 && SameFace(BaseTriangles()[i], BaseTriangles()[j]) ==> i == j
  {
    var b := BaseTriangles();
    forall i | 10 <= i < 15
      ensures forall j :: 0 <= j < 20 && SameFace(b[i], b[j]) ==> i == j
    {
      if i == 10 {
        assert b[10] == Tri(3, 9, 4);
      } else if i == 11 {
        assert b[11] == Tri(3, 4, 2);
      } else if i == 12 {
        assert b[12] == Tri(3, 2, 6);
      } else if i == 13 {
        assert b[13] == Tri(3, 6, 8);
      } else if i == 14 {
        assert b[14] == Tri(3, 8, 9);
      }
    }
  }

  lemma FacesUnique15To19()
    ensures forall i, j :: 15 <= i < 20 && 0 <= j < 20 && SameFace(BaseTriangles()[i], BaseTriangles()[j]) ==> i == j
  {
    var b := BaseTriangles();
    forall i | 15 <= i < 20
      ensures forall j :: 0 <= j < 20 && SameFace(b[i], b[j]) ==> i == j
    {
      if i == 15 {
        assert b[15] == Tri(4, 9, 5);
      } else if i == 16 {
        assert b[16] == Tri(2, 4, 11);
      } else if i == 17 {
        assert b[17] == Tri(6, 2, 10);
      } else if i == 18 {
        assert b[18] == Tri(8, 6, 7);
      } else if i == 19 {
        assert b[19] == Tri(9, 8, 1);
      }
    }
  }

  /** The 20 faces have three distinct corners each and no two of them have
      the same corners. */
  lemma BaseSimple()
    ensures Simple(BaseTriangles())
  {
    FacesUnique0To4();
    FacesUnique5To9();
    FacesUnique10To14();
    FacesUnique15To19();
  }
}
