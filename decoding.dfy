/**
 * Reading the pooled output back: in the optimised and the YAML form, the
 * ids written for the records of object `i` are those of its own records, in
 * order, and each id names, in the `d` table or the `Floats` list, the
 * coordinate it replaced.
 */
module Decoding {
  import opened Wrappers
  import opened Text
  import opened Geometry
  import opened Directives
  import opened Ranking
  import opened Pool
  import opened Writers

  // ---------------------------------------------------------------------------
  // The owner filter
  // ---------------------------------------------------------------------------

  /** The `index` numbers of the objects, in order. */
  function Indices(objs: seq<OBJObject>): seq<int>
  {
    seq(|objs|, k requires 0 <= k < |objs| => objs[k].index)
  }

  /** No two objects share an `index` (segmentation numbers them 1..n). */
  predicate DistinctIndices(objs: seq<OBJObject>)
  {
    forall a, b :: 0 <= a < b < |objs| ==> objs[a].index != objs[b].index
  }

  lemma {:induction false} OwnedAppend<T>(a: seq<T>, b: seq<T>, ownerOf: T -> int, owner: int)
    ensures Owned(a + b, ownerOf, owner) == Owned(a, ownerOf, owner) + Owned(b, ownerOf, owner)
    decreases |b|
  {
    if b == [] {
      assert a + b == a;
    } else {
      var b' := b[..|b| - 1];
      assert (a + b)[..|a + b| - 1] == a + b';
      assert (a + b)[|a + b| - 1] == b[|b| - 1];
      OwnedAppend(a, b', ownerOf, owner);
    }
  }

  /** Filtering a table every row of which has the owner keeps it whole. */
  lemma {:induction false} OwnedAll<T>(xs: seq<T>, ownerOf: T -> int, owner: int)
    requires forall k :: 0 <= k < |xs| ==> ownerOf(xs[k]) == owner
    ensures Owned(xs, ownerOf, owner) == xs
    decreases |xs|
  {
    if xs != [] {
      OwnedAll(xs[..|xs| - 1], ownerOf, owner);
    }
  }

  /** Filtering a table none of whose rows has the owner keeps nothing. */
  lemma {:induction false} OwnedNone<T>(xs: seq<T>, ownerOf: T -> int, owner: int)
    requires forall k :: 0 <= k < |xs| ==> ownerOf(xs[k]) != owner
    ensures Owned(xs, ownerOf, owner) == []
    decreases |xs|
  {
    if xs != [] {
      OwnedNone(xs[..|xs| - 1], ownerOf, owner);
    }
  }

  /** Every id record of an object set carries the index of one of its objects. */
  lemma {:induction false} IdOwnersAreObjects(objs: seq<OBJObject>, d: map<Coord, int>)
    requires Covers(objs, d)
    ensures forall k :: 0 <= k < |AllVertexIds(objs, d)| ==> AllVertexIds(objs, d)[k].ownerID in Indices(objs)
    ensures forall k :: 0 <= k < |AllTextureIds(objs, d)| ==> AllTextureIds(objs, d)[k].ownerID in Indices(objs)
    ensures forall k :: 0 <= k < |AllNormalIds(objs, d)| ==> AllNormalIds(objs, d)[k].ownerID in Indices(objs)
    decreases |objs|
  {
    if objs != [] {
      var init := objs[..|objs| - 1];
      var o := objs[|objs| - 1];
      IdOwnersAreObjects(init, d);
      assert Indices(objs) == Indices(init) + [o.index];
    }
  }

  /** A table all of whose owners are listed, filtered by an owner not
      listed, keeps nothing. */
  lemma NoneOwnedBy<T>(xs: seq<T>, ownerOf: T -> int, owner: int, owners: seq<int>)
    requires forall k :: 0 <= k < |xs| ==> ownerOf(xs[k]) in owners
    requires owner !in owners
    ensures Owned(xs, ownerOf, owner) == []
  {
    OwnedNone(xs, ownerOf, owner);
  }

  /** Dropping the last object keeps the rest covered, and with distinct
      indices the last index is not among the others. */
  lemma LastObjectApart(objs: seq<OBJObject>, d: map<Coord, int>)
    requires Covers(objs, d) && DistinctIndices(objs) && |objs| > 0
    ensures Covers(objs[..|objs| - 1], d)
    ensures objs[|objs| - 1].index !in Indices(objs[..|objs| - 1])
  {
    var init := objs[..|objs| - 1];
    forall o | o in init
      ensures ObjectCovered(o, d)
    {
      assert o in objs;
    }
    forall j | 0 <= j < |init|
      ensures Indices(init)[j] != objs[|objs| - 1].index
    {
      assert init[j] == objs[j];
    }
  }

  /** The rows of `ivertices` owned by the last object are its own. */
  lemma OwnedVertexOfLast(objs: seq<OBJObject>, d: map<Coord, int>)
    requires Covers(objs, d) && DistinctIndices(objs) && |objs| > 0 && ObjectCovered(objs[|objs| - 1], d)
    ensures Owned(AllVertexIds(objs, d), TripleOwner, objs[|objs| - 1].index) ==
      VertexIds(objs[|objs| - 1].index, objs[|objs| - 1].vertices, d)
  {
    var init := objs[..|objs| - 1];
    var o := objs[|objs| - 1];
    assert AllVertexIds(objs, d) == AllVertexIds(init, d) + VertexIds(o.index, o.vertices, d);
    OwnedAppend(AllVertexIds(init, d), VertexIds(o.index, o.vertices, d), TripleOwner, o.index);
    LastObjectApart(objs, d);
    IdOwnersAreObjects(init, d);
    NoneOwnedBy(AllVertexIds(init, d), TripleOwner, o.index, Indices(init));
    OwnedAll(VertexIds(o.index, o.vertices, d), TripleOwner, o.index);
  }

  /** With distinct indices, filtering the whole `ivertices` table by the index of
      object `i` gives exactly the id records of object `i`'s vertices, in order. */
  lemma {:induction false} OwnedVertexOfObject(objs: seq<OBJObject>, d: map<Coord, int>, i: int)
    requires Covers(objs, d) && DistinctIndices(objs) && 0 <= i < |objs| && ObjectCovered(objs[i], d)
    ensures Owned(AllVertexIds(objs, d), TripleOwner, objs[i].index) == VertexIds(objs[i].index, objs[i].vertices, d)
    decreases |objs|
  {
    if i == |objs| - 1 {
      OwnedVertexOfLast(objs, d);
    } else {
      var init := objs[..|objs| - 1];
      var o := objs[|objs| - 1];
      var owner := objs[i].index;
      assert o in objs;
      assert AllVertexIds(objs, d) == AllVertexIds(init, d) + VertexIds(o.index, o.vertices, d);
      OwnedAppend(AllVertexIds(init, d), VertexIds(o.index, o.vertices, d), TripleOwner, owner);
      assert init[i] == objs[i];
      OwnedVertexOfObject(init, d, i);
      OwnedNone(VertexIds(o.index, o.vertices, d), TripleOwner, owner);
    }
  }

  /** The rows of `itexturevertices` owned by the last object are its own. */
  lemma OwnedTextureOfLast(objs: seq<OBJObject>, d: map<Coord, int>)
    requires Covers(objs, d) && DistinctIndices(objs) && |objs| > 0 && ObjectCovered(objs[|objs| - 1], d)
    ensures Owned(AllTextureIds(objs, d), PairOwner, objs[|objs| - 1].index) ==
      TextureIds(objs[|objs| - 1].index, objs[|objs| - 1].textureVertices, d)
  {
    var init := objs[..|objs| - 1];
    var o := objs[|objs| - 1];
    assert AllTextureIds(objs, d) == AllTextureIds(init, d) + TextureIds(o.index, o.textureVertices, d);
    OwnedAppend(AllTextureIds(init, d), TextureIds(o.index, o.textureVertices, d), PairOwner, o.index);
    LastObjectApart(objs, d);
    IdOwnersAreObjects(init, d);
    NoneOwnedBy(AllTextureIds(init, d), PairOwner, o.index, Indices(init));
    OwnedAll(TextureIds(o.index, o.textureVertices, d), PairOwner, o.index);
  }

  /** With distinct indices, filtering the whole `itexturevertices` table by the index of
      object `i` gives exactly the id records of object `i`'s texture vertices, in order. */
  lemma {:induction false} OwnedTextureOfObject(objs: seq<OBJObject>, d: map<Coord, int>, i: int)
    requires Covers(objs, d) && DistinctIndices(objs) && 0 <= i < |objs| && ObjectCovered(objs[i], d)
    ensures Owned(AllTextureIds(objs, d), PairOwner, objs[i].index) == TextureIds(objs[i].index, objs[i].textureVertices, d)
    decreases |objs|
  {
    if i == |objs| - 1 {
      OwnedTextureOfLast(objs, d);
    } else {
      var init := objs[..|objs| - 1];
      var o := objs[|objs| - 1];
      var owner := objs[i].index;
      assert o in objs;
      assert AllTextureIds(objs, d) == AllTextureIds(init, d) + TextureIds(o.index, o.textureVertices, d);
      OwnedAppend(AllTextureIds(init, d), TextureIds(o.index, o.textureVertices, d), PairOwner, owner);
      assert init[i] == objs[i];
      OwnedTextureOfObject(init, d, i);
      OwnedNone(TextureIds(o.index, o.textureVertices, d), PairOwner, owner);
    }
  }

  /** The rows of `inormals` owned by the last object are its own. */
  lemma OwnedNormalOfLast(objs: seq<OBJObject>, d: map<Coord, int>)
    requires Covers(objs, d) && DistinctIndices(objs) && |objs| > 0 && ObjectCovered(objs[|objs| - 1], d)
    ensures Owned(AllNormalIds(objs, d), TripleOwner, objs[|objs| - 1].index) ==
      NormalIds(objs[|objs| - 1].index, objs[|objs| - 1].normals, d)
  {
    var init := objs[..|objs| - 1];
    var o := objs[|objs| - 1];
    assert AllNormalIds(objs, d) == AllNormalIds(init, d) + NormalIds(o.index, o.normals, d);
    OwnedAppend(AllNormalIds(init, d), NormalIds(o.index, o.normals, d), TripleOwner, o.index);
    LastObjectApart(objs, d);
    IdOwnersAreObjects(init, d);
    NoneOwnedBy(AllNormalIds(init, d), TripleOwner, o.index, Indices(init));
    OwnedAll(NormalIds(o.index, o.normals, d), TripleOwner, o.index);
  }

  /** With distinct indices, filtering the whole `inormals` table by the index of
      object `i` gives exactly the id records of object `i`'s normals, in order. */
  lemma {:induction false} OwnedNormalOfObject(objs: seq<OBJObject>, d: map<Coord, int>, i: int)
    requires Covers(objs, d) && DistinctIndices(objs) && 0 <= i < |objs| && ObjectCovered(objs[i], d)
    ensures Owned(AllNormalIds(objs, d), TripleOwner, objs[i].index) == NormalIds(objs[i].index, objs[i].normals, d)
    decreases |objs|
  {
    if i == |objs| - 1 {
      OwnedNormalOfLast(objs, d);
    } else {
      var init := objs[..|objs| - 1];
      var o := objs[|objs| - 1];
      var owner := objs[i].index;
      assert o in objs;
      assert AllNormalIds(objs, d) == AllNormalIds(init, d) + NormalIds(o.index, o.normals, d);
      OwnedAppend(AllNormalIds(init, d), NormalIds(o.index, o.normals, d), TripleOwner, owner);
      assert init[i] == objs[i];
      OwnedNormalOfObject(init, d, i);
      OwnedNone(NormalIds(o.index, o.normals, d), TripleOwner, owner);
    }
  }

  /** Every id of `d` is a position of `u` holding the coordinate it stands for. */
  predicate Decodes(d: map<Coord, int>, u: seq<Coord>)
  {
    forall c :: c in d ==> 1 <= d[c] <= |u| && u[d[c] - 1] == c
  }

  /** Record by record, the ids name, as positions of `u` counted from 1,
      the coordinates of the vertices they stand for. */
  predicate VertexIdsName(ids: seq<IdTriple>, vs: seq<Vertex3D>, u: seq<Coord>)
  {
    |ids| == |vs| &&
    forall k :: 0 <= k < |ids| ==>
      1 <= ids[k].x <= |u| && u[ids[k].x - 1] == vs[k].x &&
      1 <= ids[k].y <= |u| && u[ids[k].y - 1] == vs[k].y &&
      1 <= ids[k].z <= |u| && u[ids[k].z - 1] == vs[k].z
  }

  /** The same for texture vertices. */
  predicate TextureIdsName(ids: seq<IdPair>, ts: seq<Vertex2D>, u: seq<Coord>)
  {
    |ids| == |ts| &&
    forall k :: 0 <= k < |ids| ==>
      1 <= ids[k].x <= |u| && u[ids[k].x - 1] == ts[k].x &&
      1 <= ids[k].y <= |u| && u[ids[k].y - 1] == ts[k].y
  }

  /** The same for normals. */
  predicate NormalIdsName(ids: seq<IdTriple>, ns: seq<Vector3D>, u: seq<Coord>)
  {
    |ids| == |ns| &&
    forall k :: 0 <= k < |ids| ==>
      1 <= ids[k].x <= |u| && u[ids[k].x - 1] == ns[k].x &&
      1 <= ids[k].y <= |u| && u[ids[k].y - 1] == ns[k].y &&
      1 <= ids[k].z <= |u| && u[ids[k].z - 1] == ns[k].z
  }

  /** The float pool's ids decode through the pool's list. */
  lemma PoolDecodes(objs: seq<OBJObject>)
    ensures Covers(objs, FloatDict(objs))
    ensures Decodes(FloatDict(objs), UniqueFloats(objs))
  {
    FloatDictIds(objs);
    FloatDictCovers(objs);
  }

  /** Vertex id records built with a decoding table name their coordinates. */
  lemma VertexIdsDecode(owner: int, vs: seq<Vertex3D>, d: map<Coord, int>, u: seq<Coord>)
    requires forall v :: v in vs ==> v.x in d && v.y in d && v.z in d
    requires Decodes(d, u)
    ensures VertexIdsName(VertexIds(owner, vs, d), vs, u)
  {
    var ids := VertexIds(owner, vs, d);
    forall k | 0 <= k < |ids|
      ensures vs[k].x in d && vs[k].y in d && vs[k].z in d
    {
      assert vs[k] in vs;
    }
  }

  /** Texture id records built with a decoding table name their coordinates. */
  lemma TextureIdsDecode(owner: int, ts: seq<Vertex2D>, d: map<Coord, int>, u: seq<Coord>)
    requires forall t :: t in ts ==> t.x in d && t.y in d
    requires Decodes(d, u)
    ensures TextureIdsName(TextureIds(owner, ts, d), ts, u)
  {
    var ids := TextureIds(owner, ts, d);
    forall k | 0 <= k < |ids|
      ensures ts[k].x in d && ts[k].y in d
    {
      assert ts[k] in ts;
    }
  }

  /** Normal id records built with a decoding table name their coordinates. */
  lemma NormalIdsDecode(owner: int, ns: seq<Vector3D>, d: map<Coord, int>, u: seq<Coord>)
    requires forall n :: n in ns ==> n.x in d && n.y in d && n.z in d
    requires Decodes(d, u)
    ensures NormalIdsName(NormalIds(owner, ns, d), ns, u)
  {
    var ids := NormalIds(owner, ns, d);
    forall k | 0 <= k < |ids|
      ensures ns[k].x in d && ns[k].y in d && ns[k].z in d
    {
      assert ns[k] in ns;
    }
  }

  /** The ids the optimised and the YAML writer emit for object `i`'s
      vertices are, record by record, ids of the pool whose entry is the
      coordinate they replace. */
  lemma PooledVertexIdsDecode(objs: seq<OBJObject>, i: int)
    requires DistinctIndices(objs) && 0 <= i < |objs|
    ensures Covers(objs, FloatDict(objs))
    ensures VertexIdsName(Owned(AllVertexIds(objs, FloatDict(objs)), TripleOwner, objs[i].index), objs[i].vertices, UniqueFloats(objs))
  {
    var d, u, o := FloatDict(objs), UniqueFloats(objs), objs[i];
    PoolDecodes(objs);
    assert ObjectCovered(o, d) by { assert o in objs; }
    OwnedVertexOfObject(objs, d, i);
    VertexIdsDecode(o.index, o.vertices, d, u);
  }

  /** The ids the optimised and the YAML writer emit for object `i`'s
      texture vertices are, record by record, ids of the pool whose entry is the
      coordinate they replace. */
  lemma PooledTextureIdsDecode(objs: seq<OBJObject>, i: int)
    requires DistinctIndices(objs) && 0 <= i < |objs|
    ensures Covers(objs, FloatDict(objs))
    ensures TextureIdsName(Owned(AllTextureIds(objs, FloatDict(objs)), PairOwner, objs[i].index), objs[i].textureVertices, UniqueFloats(objs))
  {
    var d, u, o := FloatDict(objs), UniqueFloats(objs), objs[i];
    PoolDecodes(objs);
    assert ObjectCovered(o, d) by { assert o in objs; }
    OwnedTextureOfObject(objs, d, i);
    TextureIdsDecode(o.index, o.textureVertices, d, u);
  }

  /** The ids the optimised and the YAML writer emit for object `i`'s
      normals are, record by record, ids of the pool whose entry is the
      coordinate they replace. */
  lemma PooledNormalIdsDecode(objs: seq<OBJObject>, i: int)
    requires DistinctIndices(objs) && 0 <= i < |objs|
    ensures Covers(objs, FloatDict(objs))
    ensures NormalIdsName(Owned(AllNormalIds(objs, FloatDict(objs)), TripleOwner, objs[i].index), objs[i].normals, UniqueFloats(objs))
  {
    var d, u, o := FloatDict(objs), UniqueFloats(objs), objs[i];
    PoolDecodes(objs);
    assert ObjectCovered(o, d) by { assert o in objs; }
    OwnedNormalOfObject(objs, d, i);
    NormalIdsDecode(o.index, o.normals, d, u);
  }

  // ---------------------------------------------------------------------------
  // The pool table of the optimised form and the Floats list of the YAML form
  // ---------------------------------------------------------------------------

  /** A `d` line is its key and the printed coordinate, which reads back. */
  lemma TableLineReadsBack(fmt: RealFormat, c: Coord)
    requires ReadsBack(fmt)
    ensures LineWords("d " + fmt.show(c)) == ["d", fmt.show(c)]
    ensures fmt.read(fmt.show(c)) == Some(c)
  {
    assert ' ' !in fmt.show(c) && fmt.read(fmt.show(c)) == Some(c);
    WordsOfTwo("d", fmt.show(c));
    assert "d" + " " + fmt.show(c) == "d " + fmt.show(c);
  }

  /** The optimised form ends with the pool table. */
  lemma TableAtEnd(objs: seq<OBJObject>, fmt: RealFormat)
    ensures var lines := OptimizedLines(objs, fmt);
      |lines| >= |UniqueFloats(objs)| + 1 && lines[0] == OptimizedHeader &&
      lines[|lines| - |UniqueFloats(objs)|..] == Render(UniqueFloats(objs), TableLineIn(fmt))
  {
    FloatDictCovers(objs);
    var lines := OptimizedLines(objs, fmt);
    var body := [OptimizedHeader] + OptimizedBody(objs, IdTablesOf(objs, FloatDict(objs)));
    assert lines == body + Render(UniqueFloats(objs), TableLineIn(fmt));
  }

  /** In lines ending with the pool table, the `d` line at a value's id holds
      that value and reads back as it. */
  lemma TableEntryDecodes(lines: seq<string>, u: seq<Coord>, fmt: RealFormat, k: int)
    requires ReadsBack(fmt) && 0 <= k < |u| < |lines|
    requires lines[|lines| - |u|..] == Render(u, TableLineIn(fmt))
    ensures LineWords(lines[|lines| - |u| + k]) == ["d", fmt.show(u[k])]
    ensures fmt.read(LineWords(lines[|lines| - |u| + k])[1]) == Some(u[k])
  {
    var table := lines[|lines| - |u|..];
    assert lines[|lines| - |u| + k] == table[k];
    assert table[k] == TableLineIn(fmt)(u[k]) == "d " + fmt.show(u[k]);
    TableLineReadsBack(fmt, u[k]);
  }

  /** In lines ending with the pool table, every `d` line reads back. */
  lemma TableEntriesDecode(lines: seq<string>, u: seq<Coord>, fmt: RealFormat)
    requires ReadsBack(fmt) && |u| < |lines|
    requires lines[|lines| - |u|..] == Render(u, TableLineIn(fmt))
    ensures forall k :: 0 <= k < |u| ==>
      LineWords(lines[|lines| - |u| + k]) == ["d", fmt.show(u[k])] &&
      fmt.read(LineWords(lines[|lines| - |u| + k])[1]) == Some(u[k])
  {
    forall k | 0 <= k < |u|
      ensures LineWords(lines[|lines| - |u| + k]) == ["d", fmt.show(u[k])]
      ensures fmt.read(LineWords(lines[|lines| - |u| + k])[1]) == Some(u[k])
    {
      TableEntryDecodes(lines, u, fmt, k);
    }
  }

  /** The optimised form opens with its header and ends with the pool table:
      the `k`-th `d` line holds the `k`-th pooled value, whose id is `k + 1`, and reads back as
      it, so an id written in place of a coordinate leads back to it. */
  lemma TableDecodes(objs: seq<OBJObject>, fmt: RealFormat)
    requires ReadsBack(fmt)
    ensures var lines := OptimizedLines(objs, fmt);
      var u := UniqueFloats(objs);
      |lines| >= |u| + 1 && lines[0] == OptimizedHeader &&
      forall k :: 0 <= k < |u| ==>
        LineWords(lines[|lines| - |u| + k]) == ["d", fmt.show(u[k])] &&
        fmt.read(LineWords(lines[|lines| - |u| + k])[1]) == Some(u[k])
  {
    TableAtEnd(objs, fmt);
    TableEntriesDecode(OptimizedLines(objs, fmt), UniqueFloats(objs), fmt);
  }

  /** The `Floats` entries are the printed pool values joined by commas. */
  lemma {:induction false} FloatEntriesJoined(u: seq<Coord>, fmt: RealFormat)
    ensures FloatEntries(u, fmt) == Join(Render(u, fmt.show), ",")
    decreases |u|
  {
    if u != [] {
      var init := u[..|u| - 1];
      FloatEntriesJoined(init, fmt);
      assert Render(u, fmt.show) == Render(init, fmt.show) + [fmt.show(u[|u| - 1])];
      if init != [] {
        JoinSnoc(Render(init, fmt.show), fmt.show(u[|u| - 1]), ",");
      } else {
        assert FloatEntries(u, fmt) == "" + "" + fmt.show(u[|u| - 1]);
      }
    }
  }

  /** The YAML form ends with the `Floats` line. When no printed value holds a
      comma, cutting its entries at the commas gives back the printed pool, and
      the entry at a coordinate's id is that coordinate. */
  lemma FloatsDecode(objs: seq<OBJObject>, fmt: RealFormat)
    requires forall c :: ',' !in fmt.show(c)
    ensures var lines := YamlLines(objs, fmt);
      var u := UniqueFloats(objs);
      |lines| >= 3 && lines[0] == YamlHeader && lines[1] == "Objects: " &&
      lines[|lines| - 1] == "Floats: [" + FloatEntries(u, fmt) + "]" &&
      (|u| > 0 ==> Split(FloatEntries(u, fmt), ",") == Render(u, fmt.show))
    ensures forall c :: c in FloatDict(objs) ==>
      1 <= FloatDict(objs)[c] <= |UniqueFloats(objs)| &&
      Split(FloatEntries(UniqueFloats(objs), fmt), ",")[FloatDict(objs)[c] - 1] == fmt.show(c)
  {
    var u := UniqueFloats(objs);
    FloatDictCovers(objs);
    FloatDictIds(objs);
    FloatEntriesJoined(u, fmt);
    if |u| > 0 {
      SplitJoin(Render(u, fmt.show), ",");
    }
  }
}
