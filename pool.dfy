/**
 * The float pool shared by the optimised writer and the YAML writer of
 * OBJParser/Program.cs: the raw list of every coordinate of an object set,
 * its frequency ranking, and the dictionary `floatDict` from a coordinate to
 * its id.
 */
module Pool {
  import opened Geometry
  import opened Ranking

  /** x, y and z of every vertex, in order. */
  function VertexCoords(vs: seq<Vertex3D>): seq<Coord>
  {
    if vs == [] then []
    else var v := vs[|vs| - 1]; VertexCoords(vs[..|vs| - 1]) + [v.x, v.y, v.z]
  }

  /** x and y of every texture vertex, in order. */
  function TextureCoords(ts: seq<Vertex2D>): seq<Coord>
  {
    if ts == [] then []
    else var t := ts[|ts| - 1]; TextureCoords(ts[..|ts| - 1]) + [t.x, t.y]
  }

  /** x, y and z of every normal, in order. */
  function NormalCoords(ns: seq<Vector3D>): seq<Coord>
  {
    if ns == [] then []
    else var n := ns[|ns| - 1]; NormalCoords(ns[..|ns| - 1]) + [n.x, n.y, n.z]
  }

  function AllVertexCoords(objs: seq<OBJObject>): seq<Coord>
  {
    if objs == [] then [] else AllVertexCoords(objs[..|objs| - 1]) + VertexCoords(objs[|objs| - 1].vertices)
  }

  function AllTextureCoords(objs: seq<OBJObject>): seq<Coord>
  {
    if objs == [] then [] else AllTextureCoords(objs[..|objs| - 1]) + TextureCoords(objs[|objs| - 1].textureVertices)
  }

  function AllNormalCoords(objs: seq<OBJObject>): seq<Coord>
  {
    if objs == [] then [] else AllNormalCoords(objs[..|objs| - 1]) + NormalCoords(objs[|objs| - 1].normals)
  }

  /** `floatList`: the vertex coordinates of all objects, then the texture
      coordinates of all objects, then the normal coordinates of all objects. */
  function FloatList(objs: seq<OBJObject>): seq<Coord>
  {
    AllVertexCoords(objs) + AllTextureCoords(objs) + AllNormalCoords(objs)
  }

  /** `uniquefloats`: the distinct coordinates, most frequent first. */
  function UniqueFloats(objs: seq<OBJObject>): seq<Coord>
  {
    RankByFrequency(FloatList(objs))
  }

  /** `floatDict`: `uniquefloats` zipped with 1, 2, ... up to the length of
      `floatList`. */
  function FloatDict(objs: seq<OBJObject>): map<Coord, int>
  {
    PoolNumbering(FloatList(objs))
  }

  /** Every coordinate of `o` is a key of `d`. */
  predicate ObjectCovered(o: OBJObject, d: map<Coord, int>)
  {
    (forall v :: v in o.vertices ==> v.x in d && v.y in d && v.z in d) &&
    (forall t :: t in o.textureVertices ==> t.x in d && t.y in d) &&
    (forall n :: n in o.normals ==> n.x in d && n.y in d && n.z in d)
  }

  /** Every coordinate of every object is a key of `d`: no lookup fails. */
  predicate Covers(objs: seq<OBJObject>, d: map<Coord, int>)
  {
    forall o :: o in objs ==> ObjectCovered(o, d)
  }

  /** Every coordinate of a vertex list is in its coordinate list. */
  lemma {:induction false} VertexCoordsListed(vs: seq<Vertex3D>, v: Vertex3D)
    requires v in vs
    ensures v.x in VertexCoords(vs) && v.y in VertexCoords(vs) && v.z in VertexCoords(vs)
    decreases |vs|
  {
    if v != vs[|vs| - 1] {
      VertexCoordsListed(vs[..|vs| - 1], v);
    }
  }

  lemma {:induction false} TextureCoordsListed(ts: seq<Vertex2D>, t: Vertex2D)
    requires t in ts
    ensures t.x in TextureCoords(ts) && t.y in TextureCoords(ts)
    decreases |ts|
  {
    if t != ts[|ts| - 1] {
      TextureCoordsListed(ts[..|ts| - 1], t);
    }
  }

  lemma {:induction false} NormalCoordsListed(ns: seq<Vector3D>, n: Vector3D)
    requires n in ns
    ensures n.x in NormalCoords(ns) && n.y in NormalCoords(ns) && n.z in NormalCoords(ns)
    decreases |ns|
  {
    if n != ns[|ns| - 1] {
      NormalCoordsListed(ns[..|ns| - 1], n);
    }
  }

  /** Every coordinate of an object is in the raw list of any object set
      holding it. */
  lemma {:induction false} ObjectCoordsListed(objs: seq<OBJObject>, o: OBJObject)
    requires o in objs
    ensures forall c :: c in VertexCoords(o.vertices) ==> c in AllVertexCoords(objs)
    ensures forall c :: c in TextureCoords(o.textureVertices) ==> c in AllTextureCoords(objs)
    ensures forall c :: c in NormalCoords(o.normals) ==> c in AllNormalCoords(objs)
    decreases |objs|
  {
    if o != objs[|objs| - 1] {
      ObjectCoordsListed(objs[..|objs| - 1], o);
    }
  }

  /** The ids cover the object set they were built from: every coordinate of
      every object has an id, so no `floatDict` lookup of the writers fails. */
  lemma FloatDictCovers(objs: seq<OBJObject>)
    ensures Covers(objs, FloatDict(objs))
  {
    var d := FloatDict(objs);
    PoolIds(FloatList(objs));
    forall o | o in objs
      ensures ObjectCovered(o, d)
    {
      ObjectCoordsListed(objs, o);
      forall v | v in o.vertices
        ensures v.x in d && v.y in d && v.z in d
      {
        VertexCoordsListed(o.vertices, v);
      }
      forall t | t in o.textureVertices
        ensures t.x in d && t.y in d
      {
        TextureCoordsListed(o.textureVertices, t);
      }
      forall n | n in o.normals
        ensures n.x in d && n.y in d && n.z in d
      {
        NormalCoordsListed(o.normals, n);
      }
    }
  }

  /** The pool of an object set: ids are exactly 1..N over the distinct
      coordinates, the value with id k is the k-th pooled value, and ids are
      ordered by descending occurrence count in `floatList`, ties by first
      occurrence in its scan order. */
  lemma FloatDictIds(objs: seq<OBJObject>)
    ensures forall c :: c in FloatDict(objs) <==> c in FloatList(objs)
    ensures NoDuplicates(UniqueFloats(objs))
    ensures forall c :: c in FloatDict(objs) ==>
      1 <= FloatDict(objs)[c] <= |UniqueFloats(objs)| && UniqueFloats(objs)[FloatDict(objs)[c] - 1] == c
    ensures forall c, e :: c in FloatDict(objs) && e in FloatDict(objs) && c != e ==>
      (FloatDict(objs)[c] < FloatDict(objs)[e] <==> MoreFrequent(FloatList(objs), c, e))
  {
    PoolIds(FloatList(objs));
    RankingOrder(FloatList(objs));
  }
}
