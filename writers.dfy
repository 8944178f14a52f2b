/**
 * The three writers of OBJParser/Program.cs: `outputStdOBJ` (plain OBJ),
 * `outputSlightlyOptimizedOBJ` (coordinates replaced by float-pool ids, the
 * pool appended as `d` lines) and `outputOBJAsYAML` (a YAML-like dialect with
 * the pool as a trailing `Floats` list). The file is a `TextWriter` holding
 * the lines written so far; each writer is specified by a function giving
 * its whole output.
 */
module Writers {
  import opened Text
  import opened Geometry
  import opened Directives
  import opened Ranking
  import opened Pool

  // ---------------------------------------------------------------------------
  // The stream writer
  // ---------------------------------------------------------------------------

  /** A `StreamWriter`: the completed lines and the line being written. */
  class TextWriter {
    var lines: seq<string>
    var pending: string

    constructor ()
      ensures lines == [] && pending == ""
    {
      lines, pending := [], "";
    }

    /** `Write`: text added to the current line. */
    method Write(s: string)
      modifies this
      ensures lines == old(lines) && pending == old(pending) + s
    {
      pending := pending + s;
    }

    /** `WriteLine`: text added to the current line, which is then complete. */
    method WriteLine(s: string)
      modifies this
      ensures lines == old(lines) + [old(pending) + s] && pending == ""
      ensures old(pending) == "" ==> lines == old(lines) + [s]
    {
      assert "" + s == s;
      lines, pending := lines + [pending + s], "";
    }
  }

  /** A proof step, not a property of the program: sequence concatenation is
      associative, so lines appended in several writes are the lines of one
      write. Called by the writers' proofs to regroup their output. */
  lemma AppendAssoc<T>(a: seq<T>, b: seq<T>, c: seq<T>)
    ensures a + b + c == a + (b + c)
  {
  }

  /** The lines of a sequence of records written one `WriteLine` each. */
  function Render<T>(xs: seq<T>, line: T -> string): (r: seq<string>)
    ensures |r| == |xs|
    ensures forall k :: 0 <= k < |xs| ==> r[k] == line(xs[k])
  {
    if xs == [] then [] else Render(xs[..|xs| - 1], line) + [line(xs[|xs| - 1])]
  }

  /** One `WriteLine` per record, in order. */
  method WriteAll<T>(writer: TextWriter, xs: seq<T>, line: T -> string)
    modifies writer
    requires writer.pending == ""
    ensures writer.lines == old(writer.lines) + Render(xs, line) && writer.pending == ""
  {
    ghost var start := writer.lines;
    for k := 0 to |xs|
      invariant writer.lines == start + Render(xs[..k], line) && writer.pending == ""
    {
      writer.WriteLine(line(xs[k]));
      assert xs[..k + 1][..k] == xs[..k];
      AppendAssoc(start, Render(xs[..k], line), [line(xs[k])]);
    }
    assert xs[..|xs|] == xs;
  }

  // ---------------------------------------------------------------------------
  // Faces, written the same way by the plain and the optimised writer
  // ---------------------------------------------------------------------------

  /** `f`, then a space and the token of every reference. */
  function FaceLine(face: Face): string
  {
    if face == [] then "f" else FaceLine(face[..|face| - 1]) + " " + RefToken(face[|face| - 1])
  }

  /** The index with its prefix, then `/` and the texture index and `/` and
      the normal index as the flags say: the writes every writer makes for one
      reference. */
  method WriteRef(writer: TextWriter, prefix: string, e: FaceVertex)
    modifies writer
    ensures writer.lines == old(writer.lines)
    ensures writer.pending == old(writer.pending) + prefix + RefToken(e)
  {
    ghost var start := writer.pending;
    writer.Write(prefix + IntToString(e.vertexIndex));
    AppendAssoc(start, prefix, IntToString(e.vertexIndex));
    ghost var head := writer.pending;
    ghost var tail := "";
    assert head + tail == head;
    if e.hasTextureVertex || e.hasNormal {
      writer.Write("/");
      tail := "/";
      if e.hasTextureVertex {
        writer.Write(IntToString(e.textureVertex));
        AppendAssoc(head, tail, IntToString(e.textureVertex));
        tail := tail + IntToString(e.textureVertex);
      }
      if e.hasNormal {
        writer.Write("/" + IntToString(e.normalIndex));
        AppendAssoc(head, tail, "/" + IntToString(e.normalIndex));
        tail := tail + ("/" + IntToString(e.normalIndex));
      }
    }
    assert writer.pending == head + tail;
    assert RefToken(e) == IntToString(e.vertexIndex) + tail;
    AppendAssoc(start + prefix, IntToString(e.vertexIndex), tail);
  }

  /** One `f` line, written a reference at a time. */
  method WriteFace(writer: TextWriter, f: Face)
    modifies writer
    requires writer.pending == ""
    ensures writer.lines == old(writer.lines) + [FaceLine(f)] && writer.pending == ""
  {
    writer.Write("f");
    assert "" + "f" == FaceLine(f[..0]);
    for k := 0 to |f|
      invariant writer.lines == old(writer.lines) && writer.pending == FaceLine(f[..k])
    {
      WriteRef(writer, " ", f[k]);
      assert f[..k + 1][..k] == f[..k];
    }
    assert f[..|f|] == f;
    assert FaceLine(f) + "" == FaceLine(f);
    writer.WriteLine("");
  }

  /** The `f` lines of one object. */
  method WriteFaces(writer: TextWriter, faces: seq<Face>)
    modifies writer
    requires writer.pending == ""
    ensures writer.lines == old(writer.lines) + Render(faces, FaceLine) && writer.pending == ""
  {
    ghost var start := writer.lines;
    for j := 0 to |faces|
      invariant writer.lines == start + Render(faces[..j], FaceLine) && writer.pending == ""
    {
      WriteFace(writer, faces[j]);
      assert faces[..j + 1][..j] == faces[..j];
      AppendAssoc(start, Render(faces[..j], FaceLine), [FaceLine(faces[j])]);
    }
    assert faces[..|faces|] == faces;
  }

  // ---------------------------------------------------------------------------
  // The plain writer
  // ---------------------------------------------------------------------------

  /** `v {0} {1} {2}` in the given number format. */
  function VertexLineIn(fmt: RealFormat): Vertex3D -> string
  {
    (v: Vertex3D) => VertexLine(v, fmt)
  }

  /** `vt {0} {1}`. */
  function TextureLineIn(fmt: RealFormat): Vertex2D -> string
  {
    (t: Vertex2D) => "vt " + fmt.show(t.x) + " " + fmt.show(t.y)
  }

  /** `vn {0} {1} {2}`. */
  function NormalLineIn(fmt: RealFormat): Vector3D -> string
  {
    (n: Vector3D) => "vn " + fmt.show(n.x) + " " + fmt.show(n.y) + " " + fmt.show(n.z)
  }

  /** One object in plain form: its `o` line, an `f` line per face, then a
      `v`, `vt` or `vn` line per record. */
  function StdObjectLines(o: OBJObject, fmt: RealFormat): seq<string>
  {
    ["o " + o.name] + Render(o.faces, FaceLine) + Render(o.vertices, VertexLineIn(fmt)) +
    Render(o.textureVertices, TextureLineIn(fmt)) + Render(o.normals, NormalLineIn(fmt))
  }

  /** What `outputStdOBJ` writes. */
  function StdLines(objs: seq<OBJObject>, fmt: RealFormat): seq<string>
  {
    if objs == [] then [] else StdLines(objs[..|objs| - 1], fmt) + StdObjectLines(objs[|objs| - 1], fmt)
  }

  /** One object in plain form. */
  method WriteStdObject(writer: TextWriter, o: OBJObject, fmt: RealFormat)
    modifies writer
    requires writer.pending == ""
    ensures writer.lines == old(writer.lines) + StdObjectLines(o, fmt) && writer.pending == ""
  {
    ghost var start := writer.lines;
    ghost var written := ["o " + o.name];
    ghost var part := Render(o.faces, FaceLine);
    writer.WriteLine("o " + o.name);
    WriteFaces(writer, o.faces);
    AppendAssoc(start, written, part);
    written := written + part;
    part := Render(o.vertices, VertexLineIn(fmt));
    WriteAll(writer, o.vertices, VertexLineIn(fmt));
    AppendAssoc(start, written, part);
    written := written + part;
    part := Render(o.textureVertices, TextureLineIn(fmt));
    WriteAll(writer, o.textureVertices, TextureLineIn(fmt));
    AppendAssoc(start, written, part);
    written := written + part;
    part := Render(o.normals, NormalLineIn(fmt));
    WriteAll(writer, o.normals, NormalLineIn(fmt));
    AppendAssoc(start, written, part);
  }

  /** `outputStdOBJ`: the plain form of every object, in order. */
  method OutputStdOBJ(objs: seq<OBJObject>, fmt: RealFormat) returns (text: seq<string>)
    ensures text == StdLines(objs, fmt)
  {
    var writer := new TextWriter();
    for i := 0 to |objs|
      invariant writer.lines == StdLines(objs[..i], fmt) && writer.pending == ""
    {
      WriteStdObject(writer, objs[i], fmt);
      assert objs[..i + 1][..i] == objs[..i];
    }
    assert objs[..|objs|] == objs;
    text := writer.lines;
  }

  // ---------------------------------------------------------------------------
  // Pool ids of the records, with the number of the object owning them
  // ---------------------------------------------------------------------------

  /** An element of `ivertices` or `inormals`. */
  datatype IdTriple = IdTriple(ownerID: int, x: int, y: int, z: int)

  /** An element of `itexturevertices`. */
  datatype IdPair = IdPair(ownerID: int, x: int, y: int)

  function VertexIds(owner: int, vs: seq<Vertex3D>, d: map<Coord, int>): (r: seq<IdTriple>)
    requires forall v :: v in vs ==> v.x in d && v.y in d && v.z in d
    ensures |r| == |vs|
    ensures forall k :: 0 <= k < |vs| ==> r[k] == IdTriple(owner, d[vs[k].x], d[vs[k].y], d[vs[k].z])
  {
    if vs == [] then []
    else
      var v := vs[|vs| - 1];
      VertexIds(owner, vs[..|vs| - 1], d) + [IdTriple(owner, d[v.x], d[v.y], d[v.z])]
  }

  function TextureIds(owner: int, ts: seq<Vertex2D>, d: map<Coord, int>): (r: seq<IdPair>)
    requires forall t :: t in ts ==> t.x in d && t.y in d
    ensures |r| == |ts|
    ensures forall k :: 0 <= k < |ts| ==> r[k] == IdPair(owner, d[ts[k].x], d[ts[k].y])
  {
    if ts == [] then []
    else
      var t := ts[|ts| - 1];
      TextureIds(owner, ts[..|ts| - 1], d) + [IdPair(owner, d[t.x], d[t.y])]
  }

  function NormalIds(owner: int, ns: seq<Vector3D>, d: map<Coord, int>): (r: seq<IdTriple>)
    requires forall n :: n in ns ==> n.x in d && n.y in d && n.z in d
    ensures |r| == |ns|
    ensures forall k :: 0 <= k < |ns| ==> r[k] == IdTriple(owner, d[ns[k].x], d[ns[k].y], d[ns[k].z])
  {
    if ns == [] then []
    else
      var n := ns[|ns| - 1];
      NormalIds(owner, ns[..|ns| - 1], d) + [IdTriple(owner, d[n.x], d[n.y], d[n.z])]
  }

  /** `ivertices`: the ids of every vertex of every object, with its owner. */
  function AllVertexIds(objs: seq<OBJObject>, d: map<Coord, int>): seq<IdTriple>
    requires Covers(objs, d)
  {
    if objs == [] then []
    else
      var o := objs[|objs| - 1];
      assert o in objs;
      AllVertexIds(objs[..|objs| - 1], d) + VertexIds(o.index, o.vertices, d)
  }

  /** `itexturevertices`. */
  function AllTextureIds(objs: seq<OBJObject>, d: map<Coord, int>): seq<IdPair>
    requires Covers(objs, d)
  {
    if objs == [] then []
    else
      var o := objs[|objs| - 1];
      assert o in objs;
      AllTextureIds(objs[..|objs| - 1], d) + TextureIds(o.index, o.textureVertices, d)
  }

  /** `inormals`. */
  function AllNormalIds(objs: seq<OBJObject>, d: map<Coord, int>): seq<IdTriple>
    requires Covers(objs, d)
  {
    if objs == [] then []
    else
      var o := objs[|objs| - 1];
      assert o in objs;
      AllNormalIds(objs[..|objs| - 1], d) + NormalIds(o.index, o.normals, d)
  }

  function TripleOwner(t: IdTriple): int { t.ownerID }

  function PairOwner(p: IdPair): int { p.ownerID }

  /** `from v in <table> where v.ownerID == owner select v`. */
  function Owned<T>(xs: seq<T>, ownerOf: T -> int, owner: int): seq<T>
  {
    if xs == [] then []
    else
      var x := xs[|xs| - 1];
      Owned(xs[..|xs| - 1], ownerOf, owner) + if ownerOf(x) == owner then [x] else []
  }

  /** The id records of an object set. */
  datatype IdTables = IdTables(vertices: seq<IdTriple>, textureVertices: seq<IdPair>, normals: seq<IdTriple>)

  function IdTablesOf(objs: seq<OBJObject>, d: map<Coord, int>): IdTables
    requires Covers(objs, d)
  {
    IdTables(AllVertexIds(objs, d), AllTextureIds(objs, d), AllNormalIds(objs, d))
  }

  // ---------------------------------------------------------------------------
  // The optimised writer
  // ---------------------------------------------------------------------------

  const OptimizedHeader := "# OBJ SemiOptimized file created by James Larsen for kicks"

  /** `{key} {0} {1} {2}` of three ids. */
  function TripleLineOf(key: string): IdTriple -> string
  {
    (t: IdTriple) => key + " " + IntToString(t.x) + " " + IntToString(t.y) + " " + IntToString(t.z)
  }

  /** `vt {0} {1}` of two ids. */
  function PairLine(p: IdPair): string
  {
    "vt " + IntToString(p.x) + " " + IntToString(p.y)
  }

  /** `d {0}` of a pooled value. */
  function TableLineIn(fmt: RealFormat): Coord -> string
  {
    (c: Coord) => "d " + fmt.show(c)
  }

  /** One object in optimised form: as in plain form, with the ids of the
      records whose owner number is the object's own. */
  function OptimizedObjectLines(o: OBJObject, ids: IdTables): seq<string>
  {
    ["o " + o.name] + Render(o.faces, FaceLine) +
    Render(Owned(ids.vertices, TripleOwner, o.index), TripleLineOf("v")) +
    Render(Owned(ids.textureVertices, PairOwner, o.index), PairLine) +
    Render(Owned(ids.normals, TripleOwner, o.index), TripleLineOf("vn"))
  }

  function OptimizedBody(objs: seq<OBJObject>, ids: IdTables): seq<string>
  {
    if objs == [] then [] else OptimizedBody(objs[..|objs| - 1], ids) + OptimizedObjectLines(objs[|objs| - 1], ids)
  }

  /** What `outputSlightlyOptimizedOBJ` writes. */
  function OptimizedLines(objs: seq<OBJObject>, fmt: RealFormat): seq<string>
  {
    FloatDictCovers(objs);
    [OptimizedHeader] + OptimizedBody(objs, IdTablesOf(objs, FloatDict(objs))) +
    Render(UniqueFloats(objs), TableLineIn(fmt))
  }

  /** One object in optimised form. */
  method WriteOptimizedObject(writer: TextWriter, o: OBJObject, ids: IdTables)
    modifies writer
    requires writer.pending == ""
    ensures writer.lines == old(writer.lines) + OptimizedObjectLines(o, ids) && writer.pending == ""
  {
    ghost var start := writer.lines;
    ghost var written := ["o " + o.name];
    ghost var part := Render(o.faces, FaceLine);
    writer.WriteLine("o " + o.name);
    WriteFaces(writer, o.faces);
    AppendAssoc(start, written, part);
    written := written + part;
    var owned := Owned(ids.vertices, TripleOwner, o.index);
    part := Render(owned, TripleLineOf("v"));
    WriteAll(writer, owned, TripleLineOf("v"));
    AppendAssoc(start, written, part);
    written := written + part;
    var ownedPairs := Owned(ids.textureVertices, PairOwner, o.index);
    part := Render(ownedPairs, PairLine);
    WriteAll(writer, ownedPairs, PairLine);
    AppendAssoc(start, written, part);
    written := written + part;
    owned := Owned(ids.normals, TripleOwner, o.index);
    part := Render(owned, TripleLineOf("vn"));
    WriteAll(writer, owned, TripleLineOf("vn"));
    AppendAssoc(start, written, part);
  }

  /** Every object in optimised form. */
  method WriteOptimizedBody(writer: TextWriter, objs: seq<OBJObject>, ids: IdTables)
    modifies writer
    requires writer.pending == ""
    ensures writer.lines == old(writer.lines) + OptimizedBody(objs, ids) && writer.pending == ""
  {
    ghost var start := writer.lines;
    for i := 0 to |objs|
      invariant writer.lines == start + OptimizedBody(objs[..i], ids) && writer.pending == ""
    {
      WriteOptimizedObject(writer, objs[i], ids);
      assert objs[..i + 1][..i] == objs[..i];
      AppendAssoc(start, OptimizedBody(objs[..i], ids), OptimizedObjectLines(objs[i], ids));
    }
    assert objs[..|objs|] == objs;
  }

  /** `outputSlightlyOptimizedOBJ`: the header, every object with pool ids in
      place of coordinates, then one `d` line per pooled value. */
  method OutputSlightlyOptimizedOBJ(objs: seq<OBJObject>, fmt: RealFormat) returns (text: seq<string>)
    ensures text == OptimizedLines(objs, fmt)
  {
    var uniques := UniqueFloats(objs);
    var d := FloatDict(objs);
    FloatDictCovers(objs);
    var ids := IdTablesOf(objs, d);
    var writer := new TextWriter();
    writer.WriteLine(OptimizedHeader);
    assert writer.lines == [OptimizedHeader];
    WriteOptimizedBody(writer, objs, ids);
    WriteAll(writer, uniques, TableLineIn(fmt));
    text := writer.lines;
  }

  // ---------------------------------------------------------------------------
  // The YAML writer
  // ---------------------------------------------------------------------------

  const YamlHeader := "# OBJ SemiOptimized YAML file created by James Larsen for kicks"

  /** The reference tokens of a face separated by commas. */
  function YamlRefs(face: Face): string
  {
    if face == [] then ""
    else YamlRefs(face[..|face| - 1]) + (if |face| == 1 then "" else ",") + RefToken(face[|face| - 1])
  }

  /** `      - [` and the tokens, then `]`. */
  function YamlFaceLine(face: Face): string
  {
    "      - [" + YamlRefs(face) + "]"
  }

  /** `      - [{0},{1},{2}]` of three ids. */
  function YamlTripleLine(t: IdTriple): string
  {
    "      - [" + IntToString(t.x) + "," + IntToString(t.y) + "," + IntToString(t.z) + "]"
  }

  /** `      - [{0},{1}]` of two ids. */
  function YamlPairLine(p: IdPair): string
  {
    "      - [" + IntToString(p.x) + "," + IntToString(p.y) + "]"
  }

  /** One object in YAML form: its name, its faces, its vertices and texture
      vertices under their headers, then its normals with no header. */
  function YamlObjectLines(o: OBJObject, ids: IdTables): seq<string>
  {
    ["  Name: " + o.name, "    Faces:"] + Render(o.faces, YamlFaceLine) +
    ["    Vertices:"] + Render(Owned(ids.vertices, TripleOwner, o.index), YamlTripleLine) +
    ["    TextureVertices:"] + Render(Owned(ids.textureVertices, PairOwner, o.index), YamlPairLine) +
    Render(Owned(ids.normals, TripleOwner, o.index), YamlTripleLine)
  }

  function YamlBody(objs: seq<OBJObject>, ids: IdTables): seq<string>
  {
    if objs == [] then [] else YamlBody(objs[..|objs| - 1], ids) + YamlObjectLines(objs[|objs| - 1], ids)
  }

  /** The pooled values in id order, separated by commas. */
  function FloatEntries(uniques: seq<Coord>, fmt: RealFormat): string
  {
    if uniques == [] then ""
    else
      FloatEntries(uniques[..|uniques| - 1], fmt) + (if |uniques| == 1 then "" else ",") +
      fmt.show(uniques[|uniques| - 1])
  }

  /** What `outputOBJAsYAML` writes. */
  function YamlLines(objs: seq<OBJObject>, fmt: RealFormat): seq<string>
  {
    FloatDictCovers(objs);
    [YamlHeader, "Objects: "] + YamlBody(objs, IdTablesOf(objs, FloatDict(objs))) +
    ["Floats: [" + FloatEntries(UniqueFloats(objs), fmt) + "]"]
  }

  /** One face entry, the tokens written with a delimiter that becomes `,`
      after the first. */
  method WriteYamlFace(writer: TextWriter, f: Face)
    modifies writer
    requires writer.pending == ""
    ensures writer.lines == old(writer.lines) + [YamlFaceLine(f)] && writer.pending == ""
  {
    var open := "      - [";
    writer.Write(open);
    assert "" + open == open + YamlRefs(f[..0]);
    var delim := "";
    for k := 0 to |f|
      invariant writer.lines == old(writer.lines)
      invariant writer.pending == open + YamlRefs(f[..k])
      invariant delim == if k == 0 then "" else ","
    {
      WriteRef(writer, delim, f[k]);
      assert f[..k + 1][..k] == f[..k];
      AppendAssoc(open, YamlRefs(f[..k]), delim);
      AppendAssoc(open, YamlRefs(f[..k]) + delim, RefToken(f[k]));
      delim := ",";
    }
    assert f[..|f|] == f;
    writer.WriteLine("]");
  }

  method WriteYamlFaces(writer: TextWriter, faces: seq<Face>)
    modifies writer
    requires writer.pending == ""
    ensures writer.lines == old(writer.lines) + Render(faces, YamlFaceLine) && writer.pending == ""
  {
    ghost var start := writer.lines;
    for j := 0 to |faces|
      invariant writer.lines == start + Render(faces[..j], YamlFaceLine) && writer.pending == ""
    {
      WriteYamlFace(writer, faces[j]);
      assert faces[..j + 1][..j] == faces[..j];
      AppendAssoc(start, Render(faces[..j], YamlFaceLine), [YamlFaceLine(faces[j])]);
    }
    assert faces[..|faces|] == faces;
  }

  /** One object in YAML form. */
  method WriteYamlObject(writer: TextWriter, o: OBJObject, ids: IdTables)
    modifies writer
    requires writer.pending == ""
    ensures writer.lines == old(writer.lines) + YamlObjectLines(o, ids) && writer.pending == ""
  {
    ghost var start := writer.lines;
    ghost var written := ["  Name: " + o.name, "    Faces:"];
    ghost var part := Render(o.faces, YamlFaceLine);
    writer.WriteLine("  Name: " + o.name);
    writer.WriteLine("    Faces:");
    AppendAssoc(start, ["  Name: " + o.name], ["    Faces:"]);
    assert ["  Name: " + o.name] + ["    Faces:"] == written;
    WriteYamlFaces(writer, o.faces);
    AppendAssoc(start, written, part);
    written := written + part;
    writer.WriteLine("    Vertices:");
    AppendAssoc(start, written, ["    Vertices:"]);
    written := written + ["    Vertices:"];
    var owned := Owned(ids.vertices, TripleOwner, o.index);
    part := Render(owned, YamlTripleLine);
    WriteAll(writer, owned, YamlTripleLine);
    AppendAssoc(start, written, part);
    written := written + part;
    writer.WriteLine("    TextureVertices:");
    AppendAssoc(start, written, ["    TextureVertices:"]);
    written := written + ["    TextureVertices:"];
    var ownedPairs := Owned(ids.textureVertices, PairOwner, o.index);
    part := Render(ownedPairs, YamlPairLine);
    WriteAll(writer, ownedPairs, YamlPairLine);
    AppendAssoc(start, written, part);
    written := written + part;
    owned := Owned(ids.normals, TripleOwner, o.index);
    part := Render(owned, YamlTripleLine);
    WriteAll(writer, owned, YamlTripleLine);
    AppendAssoc(start, written, part);
  }

  method WriteYamlBody(writer: TextWriter, objs: seq<OBJObject>, ids: IdTables)
    modifies writer
    requires writer.pending == ""
    ensures writer.lines == old(writer.lines) + YamlBody(objs, ids) && writer.pending == ""
  {
    ghost var start := writer.lines;
    for i := 0 to |objs|
      invariant writer.lines == start + YamlBody(objs[..i], ids) && writer.pending == ""
    {
      WriteYamlObject(writer, objs[i], ids);
      assert objs[..i + 1][..i] == objs[..i];
      AppendAssoc(start, YamlBody(objs[..i], ids), YamlObjectLines(objs[i], ids));
    }
    assert objs[..|objs|] == objs;
  }

  /** The `Floats` line: the pooled values between brackets, the delimiter
      becoming `,` after the first. */
  method WriteFloats(writer: TextWriter, uniques: seq<Coord>, fmt: RealFormat)
    modifies writer
    requires writer.pending == ""
    ensures writer.lines == old(writer.lines) + ["Floats: [" + FloatEntries(uniques, fmt) + "]"] && writer.pending == ""
  {
    var open := "Floats: [";
    writer.Write(open);
    assert "" + open == open + FloatEntries(uniques[..0], fmt);
    var floatDelim := "";
    for k := 0 to |uniques|
      invariant writer.lines == old(writer.lines)
      invariant writer.pending == open + FloatEntries(uniques[..k], fmt)
      invariant floatDelim == if k == 0 then "" else ","
    {
      writer.Write(floatDelim + fmt.show(uniques[k]));
      assert uniques[..k + 1][..k] == uniques[..k];
      AppendAssoc(open, FloatEntries(uniques[..k], fmt), floatDelim + fmt.show(uniques[k]));
      AppendAssoc(FloatEntries(uniques[..k], fmt), floatDelim, fmt.show(uniques[k]));
      floatDelim := ",";
    }
    assert uniques[..|uniques|] == uniques;
    writer.WriteLine("]");
  }

  /** `outputOBJAsYAML`: the header, `Objects: `, every object in YAML form,
      then the pooled values as one bracketed list. */
  method OutputOBJAsYAML(objs: seq<OBJObject>, fmt: RealFormat) returns (text: seq<string>)
    ensures text == YamlLines(objs, fmt)
  {
    var uniques := UniqueFloats(objs);
    var d := FloatDict(objs);
    FloatDictCovers(objs);
    var ids := IdTablesOf(objs, d);
    var writer := new TextWriter();
    writer.WriteLine(YamlHeader);
    writer.WriteLine("Objects: ");
    assert writer.lines == [YamlHeader, "Objects: "];
    WriteYamlBody(writer, objs, ids);
    WriteFloats(writer, uniques, fmt);
    text := writer.lines;
  }

  /** A line of a YAML list: `      - [` and then the entry. */
  predicate IsYamlEntry(line: string)
  {
    |line| >= 9 && line[..9] == "      - ["
  }

  /** Text written after the start of an entry keeps it an entry. */
  lemma EntryExtended(line: string, more: string)
    requires IsYamlEntry(line)
    ensures IsYamlEntry(line + more)
  {
    assert (line + more)[..9] == line[..9];
  }

  /** Lines that are all list entries, after a header line. */
  lemma EntriesAfterHeader(front: seq<string>, header: string, p: seq<string>, n: seq<string>)
    requires forall k :: 0 <= k < |p| ==> IsYamlEntry(p[k])
    requires forall k :: 0 <= k < |n| ==> IsYamlEntry(n[k])
    ensures var lines, h := front + [header] + p + n, |front|;
      h == |lines| - |p| - |n| - 1 && lines[h] == header &&
      (forall k :: h < k < |lines| ==> IsYamlEntry(lines[k])) &&
      lines[h + 1 + |p|..] == n
  {
    var lines, h := front + [header] + p + n, |front|;
    forall k | h < k < |lines|
      ensures IsYamlEntry(lines[k])
    {
      if k <= h + |p| {
        assert lines[k] == p[k - h - 1];
      } else {
        assert lines[k] == n[k - h - 1 - |p|];
      }
    }
    assert lines[h + 1 + |p|..] == n;
  }

  lemma PairEntries(pairs: seq<IdPair>)
    ensures forall k :: 0 <= k < |pairs| ==> IsYamlEntry(Render(pairs, YamlPairLine)[k])
  {
    forall k | 0 <= k < |pairs|
      ensures IsYamlEntry(Render(pairs, YamlPairLine)[k])
    {
      var e, open := pairs[k], "      - [";
      assert IsYamlEntry(open);
      EntryExtended(open, IntToString(e.x));
      EntryExtended(open + IntToString(e.x), ",");
      EntryExtended(open + IntToString(e.x) + ",", IntToString(e.y));
      EntryExtended(open + IntToString(e.x) + "," + IntToString(e.y), "]");
    }
  }

  lemma TripleEntries(triples: seq<IdTriple>)
    ensures forall k :: 0 <= k < |triples| ==> IsYamlEntry(Render(triples, YamlTripleLine)[k])
  {
    forall k | 0 <= k < |triples|
      ensures IsYamlEntry(Render(triples, YamlTripleLine)[k])
    {
      var e, open := triples[k], "      - [";
      assert IsYamlEntry(open);
      EntryExtended(open, IntToString(e.x));
      EntryExtended(open + IntToString(e.x), ",");
      EntryExtended(open + IntToString(e.x) + ",", IntToString(e.y));
      EntryExtended(open + IntToString(e.x) + "," + IntToString(e.y), ",");
      EntryExtended(open + IntToString(e.x) + "," + IntToString(e.y) + ",", IntToString(e.z));
      EntryExtended(open + IntToString(e.x) + "," + IntToString(e.y) + "," + IntToString(e.z), "]");
    }
  }

  /** The normals of an object carry no header of their own: the last header
      of the object's YAML block is `TextureVertices:`, and every line after it
      is a list entry, the texture vertices' and then the normals'. */
  lemma YamlNormalsUnderTextureVertices(o: OBJObject, ids: IdTables)
    ensures var lines := YamlObjectLines(o, ids);
      var pairs := Owned(ids.textureVertices, PairOwner, o.index);
      var normals := Owned(ids.normals, TripleOwner, o.index);
      var h := |lines| - |pairs| - |normals| - 1;
      0 <= h && lines[h] == "    TextureVertices:" &&
      (forall k :: h < k < |lines| ==> IsYamlEntry(lines[k])) &&
      lines[h + 1 + |pairs|..] == Render(normals, YamlTripleLine)
  {
    var pairs := Owned(ids.textureVertices, PairOwner, o.index);
    var normals := Owned(ids.normals, TripleOwner, o.index);
    var front := ["  Name: " + o.name, "    Faces:"] + Render(o.faces, YamlFaceLine) +
      ["    Vertices:"] + Render(Owned(ids.vertices, TripleOwner, o.index), YamlTripleLine);
    var p, n := Render(pairs, YamlPairLine), Render(normals, YamlTripleLine);
    PairEntries(pairs);
    TripleEntries(normals);
    EntriesAfterHeader(front, "    TextureVertices:", p, n);
    assert YamlObjectLines(o, ids) == front + ["    TextureVertices:"] + p + n;
  }
}
