/**
 * The plain output of `outputStdOBJ` (OBJParser/Program.cs) read back by the
 * parser's own segmentation and directive queries: every object comes back
 * under its number and name, with its vertices (line number 0), texture
 * vertices and normals, and its faces regrouped in pass order.
 */
module PlainRoundTrip {
  import opened Wrappers
  import opened Text
  import opened Geometry
  import opened Directives
  import opened Segmentation
  import opened Writers
  import opened Readback

  // ---------------------------------------------------------------------------
  // A file made of one block of lines per object
  // ---------------------------------------------------------------------------

  /** The blocks of lines `block` gives for each object, one after the
      other. */
  function Flatten(objs: seq<OBJObject>, block: OBJObject -> seq<string>): seq<string>
  {
    if objs == [] then [] else Flatten(objs[..|objs| - 1], block) + block(objs[|objs| - 1])
  }

  /** The list index where object k's block starts. */
  function Start(objs: seq<OBJObject>, block: OBJObject -> seq<string>, k: int): nat
    requires 0 <= k <= |objs|
  {
    |Flatten(objs[..k], block)|
  }

  /** Flattening two object lists one after the other is flattening their
      concatenation. */
  lemma {:induction false} FlattenConcat(a: seq<OBJObject>, b: seq<OBJObject>, block: OBJObject -> seq<string>)
    ensures Flatten(a + b, block) == Flatten(a, block) + Flatten(b, block)
    decreases |b|
  {
    if b == [] {
      assert a + b == a;
    } else {
      var init := b[..|b| - 1];
      assert (a + b)[..|a + b| - 1] == a + init;
      assert (a + b)[|a + b| - 1] == b[|b| - 1];
      FlattenConcat(a, init, block);
    }
  }

  /** The file around object k: the blocks before it, its own block, and the
      blocks after it, the next one first. */
  lemma Layout(objs: seq<OBJObject>, block: OBJObject -> seq<string>, k: int)
    requires 0 <= k < |objs|
    ensures Flatten(objs, block) == Flatten(objs[..k], block) + block(objs[k]) + Flatten(objs[k + 1..], block)
    ensures Start(objs, block, k + 1) == Start(objs, block, k) + |block(objs[k])|
    ensures k < |objs| - 1 ==> (|Flatten(objs[k + 1..], block)| >= |block(objs[k + 1])| &&
      Flatten(objs[k + 1..], block)[..|block(objs[k + 1])|] == block(objs[k + 1]))
    ensures k == |objs| - 1 ==> Flatten(objs[k + 1..], block) == []
  {
    FlattenConcat(objs[..k + 1], objs[k + 1..], block);
    assert objs[..k + 1] + objs[k + 1..] == objs;
    assert objs[..k + 1][..k] == objs[..k];
    if k < |objs| - 1 {
      var rest := objs[k + 1..];
      FlattenConcat([rest[0]], rest[1..], block);
      assert [rest[0]] + rest[1..] == rest;
      assert [rest[0]][..0] == [];
    } else {
      assert objs[k + 1..] == [];
    }
  }

  /** Cutting a slice out of numbered lines is numbering the slice. */
  lemma NumberFromSlice(lines: seq<string>, offset: int, i: int, j: int)
    requires 0 <= i <= j <= |lines|
    ensures NumberFrom(lines, offset)[i..j] == NumberFrom(lines[i..j], offset + i)
  {
  }

  /** Each block holds exactly one marker, its object's name on the block's
      first line. */
  ghost predicate OneMarkerEach(objs: seq<OBJObject>, block: OBJObject -> seq<string>)
  {
    forall k, offset :: 0 <= k < |objs| ==>
      ObjectMarkers(NumberFrom(block(objs[k]), offset)) == [Marker(offset + 1, objs[k].name)]
  }

  /** The blocks of a prefix of the objects hold one marker each too. */
  lemma OneMarkerEachPrefix(objs: seq<OBJObject>, block: OBJObject -> seq<string>, m: int)
    requires OneMarkerEach(objs, block) && 0 <= m <= |objs|
    ensures OneMarkerEach(objs[..m], block)
  {
    forall k, offset | 0 <= k < m
      ensures ObjectMarkers(NumberFrom(block(objs[..m][k]), offset)) == [Marker(offset + 1, objs[..m][k].name)]
    {
      assert objs[..m][k] == objs[k];
    }
  }

  /** One more block, with its one marker, adds that marker at the end. */
  lemma MarkersSnoc(init: seq<OBJObject>, o: OBJObject, block: OBJObject -> seq<string>)
    requires ObjectMarkers(NumberFrom(block(o), |Flatten(init, block)|)) == [Marker(|Flatten(init, block)| + 1, o.name)]
    ensures ObjectMarkers(NumberFrom(Flatten(init + [o], block), 0)) ==
      ObjectMarkers(NumberFrom(Flatten(init, block), 0)) + [Marker(|Flatten(init, block)| + 1, o.name)]
  {
    var before := Flatten(init, block);
    assert (init + [o])[..|init|] == init;
    assert Flatten(init + [o], block) == before + block(o);
    NumberFromAppend(before, block(o), 0);
    MarkersAppend(NumberFrom(before, 0), NumberFrom(block(o), |before|));
  }

  /** Dropping the last object moves no earlier block. */
  lemma StartsOfPrefix(objs: seq<OBJObject>, block: OBJObject -> seq<string>)
    requires |objs| > 0
    ensures forall k :: 0 <= k < |objs| ==> Start(objs, block, k) == Start(objs[..|objs| - 1], block, k)
  {
    forall k | 0 <= k < |objs|
      ensures Start(objs, block, k) == Start(objs[..|objs| - 1], block, k)
    {
      assert objs[..k] == objs[..|objs| - 1][..k];
    }
  }

  /** The markers of a file made of such blocks are the objects, in order,
      each on its block's first line. */
  lemma {:induction false} FlattenMarkers(objs: seq<OBJObject>, block: OBJObject -> seq<string>)
    requires OneMarkerEach(objs, block)
    ensures ObjectMarkers(NumberFrom(Flatten(objs, block), 0)) ==
      seq(|objs|, k requires 0 <= k < |objs| => Marker(Start(objs, block, k) + 1, objs[k].name))
    decreases |objs|
  {
    if objs != [] {
      var n := |objs|;
      var init, o := objs[..n - 1], objs[n - 1];
      var s := |Flatten(init, block)|;
      OneMarkerEachPrefix(objs, block, n - 1);
      FlattenMarkers(init, block);
      assert ObjectMarkers(NumberFrom(block(objs[n - 1]), s)) == [Marker(s + 1, objs[n - 1].name)];
      MarkersSnoc(init, o, block);
      assert init + [o] == objs;
      StartMarkersSnoc(objs, block);
    }
  }

  /** The expected markers of all objects: those of all but the last, then
      the last one's at the end of the blocks before it. */
  lemma StartMarkersSnoc(objs: seq<OBJObject>, block: OBJObject -> seq<string>)
    requires |objs| > 0
    ensures var n, init := |objs|, objs[..|objs| - 1];
      seq(n, k requires 0 <= k < n => Marker(Start(objs, block, k) + 1, objs[k].name)) ==
        seq(n - 1, k requires 0 <= k < n - 1 => Marker(Start(init, block, k) + 1, init[k].name)) +
        [Marker(|Flatten(init, block)| + 1, objs[n - 1].name)]
  {
    StartsOfPrefix(objs, block);
  }

  /** The lines after the first of a middle run, up to and including the
      first line of the run after it. */
  lemma SliceAfterHead(before: seq<string>, own: seq<string>, after: seq<string>)
    requires |own| >= 1 && |after| >= 1
    ensures (before + own + after)[|before| + 1..|before| + |own| + 1] == own[1..] + [after[0]]
  {
    var lines := before + own + after;
    assert |lines| == |before| + |own| + |after|;
    forall i | 0 <= i < |own|
      ensures lines[|before| + 1..|before| + |own| + 1][i] == (own[1..] + [after[0]])[i]
    {
      if i < |own| - 1 {
        assert lines[|before| + 1 + i] == own[1 + i];
      } else {
        assert lines[|before| + |own|] == after[0];
      }
    }
  }

  /** Numbered lines made of a run between others: the run without its first
      line, then the first line after the run. */
  lemma NumberedMiddle(before: seq<string>, own: seq<string>, after: seq<string>, first: string)
    requires |own| >= 1 && |after| >= 1 && after[0] == first
    ensures |before| + 1 <= |before| + |own| + 1 <= |before + own + after|
    ensures NumberFrom(before + own + after, 0)[|before| + 1..|before| + |own| + 1] ==
      NumberFrom(own[1..], |before| + 1) + NumberFrom([first], |before| + |own|)
  {
    var lines := before + own + after;
    SliceAfterHead(before, own, after);
    NumberFromSlice(lines, 0, |before| + 1, |before| + |own| + 1);
    NumberFromAppend(own[1..], [first], |before| + 1);
  }

  /** The slice the parser cuts for an object followed by another: the
      object's block without its first line, numbered from just after that
      line, then the first line of the next block. */
  lemma MiddleBlockSlice(objs: seq<OBJObject>, block: OBJObject -> seq<string>, k: int)
    requires forall j :: 0 <= j < |objs| ==> |block(objs[j])| >= 1
    requires 0 <= k < |objs| - 1
    ensures var lines, p, q := Flatten(objs, block), Start(objs, block, k) + 1, Start(objs, block, k + 1);
      p <= q + 1 <= |lines| &&
      NumberFrom(lines, 0)[p..q + 1] == NumberFrom(block(objs[k])[1..], p) + NumberFrom([block(objs[k + 1])[0]], q)
  {
    var before, own, after := Flatten(objs[..k], block), block(objs[k]), Flatten(objs[k + 1..], block);
    var next := block(objs[k + 1]);
    Layout(objs, block, k);
    assert after[0] == next[0] by {
      assert after[..|next|][0] == next[0];
    }
    NumberedMiddle(before, own, after, next[0]);
  }

  /** The slice the parser cuts for the last object: its block without its
      first line, numbered from just after that line. */
  lemma LastBlockSlice(objs: seq<OBJObject>, block: OBJObject -> seq<string>)
    requires |objs| >= 1 && |block(objs[|objs| - 1])| >= 1
    ensures var lines, p := Flatten(objs, block), Start(objs, block, |objs| - 1) + 1;
      p <= |lines| && NumberFrom(lines, 0)[p..|lines|] == NumberFrom(block(objs[|objs| - 1])[1..], p)
  {
    var k := |objs| - 1;
    var lines, p := Flatten(objs, block), Start(objs, block, k) + 1;
    var before, own := Flatten(objs[..k], block), block(objs[k]);
    assert objs[..k] + [objs[k]] == objs;
    assert lines == before + own;
    assert lines[p..|lines|] == own[1..];
    NumberFromSlice(lines, 0, p, |lines|);
  }

  // ---------------------------------------------------------------------------
  // The plain output as such a file
  // ---------------------------------------------------------------------------

  /** The plain form of an object, as a block. */
  function StdObjectIn(fmt: RealFormat): OBJObject -> seq<string>
  {
    (o: OBJObject) => StdObjectLines(o, fmt)
  }

  /** The lines the plain writer puts after an object's `o` line. */
  function BodyOf(o: OBJObject, fmt: RealFormat): seq<string>
  {
    StdBody(o.faces, o.vertices, o.textureVertices, o.normals, fmt)
  }

  /** The plain output is the objects' plain blocks one after the other. */
  lemma {:induction false} StdLinesFlat(objs: seq<OBJObject>, fmt: RealFormat)
    ensures StdLines(objs, fmt) == Flatten(objs, StdObjectIn(fmt))
    decreases |objs|
  {
    if objs != [] {
      StdLinesFlat(objs[..|objs| - 1], fmt);
    }
  }

  /** An object's plain block is its `o` line followed by its body. */
  lemma StdObjectSplit(o: OBJObject, fmt: RealFormat)
    ensures StdObjectIn(fmt)(o) == ["o " + o.name] + BodyOf(o, fmt)
    ensures |StdObjectIn(fmt)(o)| >= 1 && StdObjectIn(fmt)(o)[0] == "o " + o.name &&
      StdObjectIn(fmt)(o)[1..] == BodyOf(o, fmt)
  {
  }

  /** An `o` line on its own is one marker. */
  lemma MarkerLine(name: string, offset: int)
    requires ' ' !in name
    ensures ObjectMarkers(NumberFrom(["o " + name], offset)) == [Marker(offset + 1, name)]
  {
    ObjectLineReadsBack(name);
    var nl := NumberFrom(["o " + name], offset);
    assert nl == [NumberedLine(["o", name], offset + 1)];
    assert nl[..0] == [];
  }

  /** An object's plain block holds one marker, on its `o` line. */
  lemma StdBlockMarker(o: OBJObject, fmt: RealFormat, offset: int)
    requires ReadsBack(fmt) && ' ' !in o.name
    ensures ObjectMarkers(NumberFrom(StdObjectIn(fmt)(o), offset)) == [Marker(offset + 1, o.name)]
  {
    var head, body := ["o " + o.name], BodyOf(o, fmt);
    var s1 := offset + 1;
    StdObjectSplit(o, fmt);
    NumberFromAppend(head, body, offset);
    assert NumberFrom(head + body, offset) == NumberFrom(head, offset) + NumberFrom(body, s1);
    MarkersAppend(NumberFrom(head, offset), NumberFrom(body, s1));
    MarkerLine(o.name, offset);
    StdBodyMarkers(o.faces, o.vertices, o.textureVertices, o.normals, fmt, s1);
  }

  /** The markers the plain output should hold: object k's name on the line
      after the blocks of the objects before it. */
  function StdMarkers(objs: seq<OBJObject>, fmt: RealFormat): seq<Marker>
  {
    seq(|objs|, k requires 0 <= k < |objs| => Marker(Start(objs, StdObjectIn(fmt), k) + 1, objs[k].name))
  }

  /** The markers of the plain output are the objects, in order, each on its
      own `o` line. */
  lemma StdLinesMarkers(objs: seq<OBJObject>, fmt: RealFormat)
    requires ReadsBack(fmt)
    requires forall k :: 0 <= k < |objs| ==> ' ' !in objs[k].name
    ensures Markers(StdLines(objs, fmt)) == StdMarkers(objs, fmt)
  {
    forall k, offset | 0 <= k < |objs|
      ensures ObjectMarkers(NumberFrom(StdObjectIn(fmt)(objs[k]), offset)) == [Marker(offset + 1, objs[k].name)]
    {
      StdBlockMarker(objs[k], fmt, offset);
    }
    FlattenMarkers(objs, StdObjectIn(fmt));
    StdLinesFlat(objs, fmt);
  }

  // ---------------------------------------------------------------------------
  // The slice of each object
  // ---------------------------------------------------------------------------

  /** Lines from which the parser reads no record of any kind. */
  predicate HoldsNoRecord(lines: seq<NumberedLine>, fmt: RealFormat)
  {
    Vertices(lines, fmt) == [] && TextureVertices(lines, fmt) == [] && Normals(lines, fmt) == [] &&
    FacesOfPass(lines, VertexOnly) == [] && FacesOfPass(lines, VertexNormal) == [] &&
    FacesOfPass(lines, VertexTexture) == [] && FacesOfPass(lines, VertexTextureNormal) == []
  }

  /** An `o` line holds no record. */
  lemma MarkerLineHoldsNoRecord(name: string, offset: int, fmt: RealFormat)
    requires ' ' !in name
    ensures HoldsNoRecord(NumberFrom(["o " + name], offset), fmt)
  {
    ObjectLineReadsBack(name);
    var line := NumberedLine(["o", name], offset + 1);
    assert NumberFrom(["o " + name], offset) == [line];
    CollectOne(line, VertexSelect(fmt));
    CollectOne(line, TextureSelect(fmt));
    CollectOne(line, NormalSelect(fmt));
    CollectOne(line, FaceSelect(VertexOnly));
    CollectOne(line, FaceSelect(VertexNormal));
    CollectOne(line, FaceSelect(VertexTexture));
    CollectOne(line, FaceSelect(VertexTextureNormal));
  }

  /** The slice the parser cuts for object k of the plain output: its body,
      numbered from just after its `o` line, then the next object's `o` line
      if there is one. */
  lemma ObjectSlice(objs: seq<OBJObject>, fmt: RealFormat, k: int)
    requires 0 <= k < |objs|
    ensures var lines, block := StdLines(objs, fmt), StdObjectIn(fmt);
      var p := Start(objs, block, k) + 1;
      if k < |objs| - 1 then
        p <= Start(objs, block, k + 1) + 1 <= |lines| &&
        NumberLines(lines)[p..Start(objs, block, k + 1) + 1] ==
          NumberFrom(BodyOf(objs[k], fmt), p) + NumberFrom(["o " + objs[k + 1].name], Start(objs, block, k + 1))
      else
        p <= |lines| && NumberLines(lines)[p..|lines|] == NumberFrom(BodyOf(objs[k], fmt), p)
  {
    if k < |objs| - 1 {
      MiddleObjectSlice(objs, fmt, k);
    } else {
      LastObjectSlice(objs, fmt);
    }
  }

  /** Every block of the plain output has its `o` line. */
  lemma StdBlocksNonEmpty(objs: seq<OBJObject>, fmt: RealFormat)
    ensures forall j :: 0 <= j < |objs| ==> |StdObjectIn(fmt)(objs[j])| >= 1
  {
    forall j | 0 <= j < |objs|
      ensures |StdObjectIn(fmt)(objs[j])| >= 1
    {
      StdObjectSplit(objs[j], fmt);
    }
  }

  /** A proof step, not a property of the program: rewriting a slice of
      numbered lines by equal lines and equal pieces. Stated apart so that the
      callers' proofs need not unfold the writer's functions to match the
      terms. */
  lemma SameSlice(lines: seq<string>, lines': seq<string>, p: int, piece: seq<string>, piece': seq<string>)
    requires lines == lines' && piece == piece' && 0 <= p <= |lines'|
    requires NumberFrom(lines', 0)[p..|lines'|] == NumberFrom(piece, p)
    ensures p <= |lines| && NumberLines(lines)[p..|lines|] == NumberFrom(piece', p)
  {
  }

  /** The same proof step for a slice made of two pieces. */
  lemma SameSliceTwo(lines: seq<string>, lines': seq<string>, p: int, q: int,
                     a: seq<string>, a': seq<string>, b: seq<string>, b': seq<string>)
    requires lines == lines' && a == a' && b == b' && 0 <= p <= q + 1 <= |lines'|
    requires NumberFrom(lines', 0)[p..q + 1] == NumberFrom(a, p) + NumberFrom(b, q)
    ensures p <= q + 1 <= |lines| && NumberLines(lines)[p..q + 1] == NumberFrom(a', p) + NumberFrom(b', q)
  {
  }

  /** MiddleBlockSlice for the blocks of the plain output. */
  lemma StdMiddleBlockSlice(objs: seq<OBJObject>, fmt: RealFormat, k: int)
    requires 0 <= k < |objs| - 1
    ensures var lines, block := Flatten(objs, StdObjectIn(fmt)), StdObjectIn(fmt);
      var p, q := Start(objs, block, k) + 1, Start(objs, block, k + 1);
      p <= q + 1 <= |lines| &&
      NumberFrom(lines, 0)[p..q + 1] == NumberFrom(block(objs[k])[1..], p) + NumberFrom([block(objs[k + 1])[0]], q)
  {
    StdBlocksNonEmpty(objs, fmt);
    MiddleBlockSlice(objs, StdObjectIn(fmt), k);
  }

  /** ObjectSlice for an object followed by another. */
  lemma MiddleObjectSlice(objs: seq<OBJObject>, fmt: RealFormat, k: int)
    requires 0 <= k < |objs| - 1
    ensures var lines, block := StdLines(objs, fmt), StdObjectIn(fmt);
      var p, q := Start(objs, block, k) + 1, Start(objs, block, k + 1);
      p <= q + 1 <= |lines| &&
      NumberLines(lines)[p..q + 1] == NumberFrom(BodyOf(objs[k], fmt), p) + NumberFrom(["o " + objs[k + 1].name], q)
  {
    var block, o, o2 := StdObjectIn(fmt), objs[k], objs[k + 1];
    var p, q := Start(objs, block, k) + 1, Start(objs, block, k + 1);
    StdMiddleBlockSlice(objs, fmt, k);
    StdObjectSplit(o, fmt);
    StdObjectSplit(o2, fmt);
    StdLinesFlat(objs, fmt);
    SameSliceTwo(StdLines(objs, fmt), Flatten(objs, block), p, q, block(o)[1..], BodyOf(o, fmt),
      [block(o2)[0]], ["o " + o2.name]);
  }

  /** ObjectSlice for the last object. */
  lemma LastObjectSlice(objs: seq<OBJObject>, fmt: RealFormat)
    requires |objs| >= 1
    ensures var lines, block := StdLines(objs, fmt), StdObjectIn(fmt);
      var p := Start(objs, block, |objs| - 1) + 1;
      p <= |lines| && NumberLines(lines)[p..|lines|] == NumberFrom(BodyOf(objs[|objs| - 1], fmt), p)
  {
    var block, o := StdObjectIn(fmt), objs[|objs| - 1];
    var p := Start(objs, block, |objs| - 1) + 1;
    StdObjectSplit(o, fmt);
    var body := BodyOf(o, fmt);
    LastBlockSlice(objs, block);
    StdLinesFlat(objs, fmt);
    SameSlice(StdLines(objs, fmt), Flatten(objs, block), p, block(o)[1..], body);
  }

  /** An object's body followed by lines holding no record reads back as the
      object's vertices (line number 0), texture vertices and normals. */
  lemma SliceRecords(o: OBJObject, fmt: RealFormat, offset: int, tail: seq<NumberedLine>)
    requires ReadsBack(fmt) && HoldsNoRecord(tail, fmt)
    ensures var slice := NumberFrom(BodyOf(o, fmt), offset) + tail;
      Vertices(slice, fmt) == ResetLines(o.vertices) && TextureVertices(slice, fmt) == o.textureVertices &&
      Normals(slice, fmt) == o.normals
  {
    var body := NumberFrom(BodyOf(o, fmt), offset);
    StdBodyVertices(o.faces, o.vertices, o.textureVertices, o.normals, fmt, offset);
    StdBodyTextures(o.faces, o.vertices, o.textureVertices, o.normals, fmt, offset);
    StdBodyNormals(o.faces, o.vertices, o.textureVertices, o.normals, fmt, offset);
    CollectAppend(body, tail, VertexSelect(fmt));
    CollectAppend(body, tail, TextureSelect(fmt));
    CollectAppend(body, tail, NormalSelect(fmt));
  }

  /** One pass over an object's body followed by lines holding no face finds
      the object's faces of its grammar. */
  lemma SlicePass(o: OBJObject, fmt: RealFormat, offset: int, tail: seq<NumberedLine>, g: RefGrammar)
    requires ReadsBack(fmt) && Writable(o) && FacesOfPass(tail, g) == []
    ensures FacesOfPass(NumberFrom(BodyOf(o, fmt), offset) + tail, g) == FacesWith(o.faces, g)
  {
    StdBodyPass(o.faces, o.vertices, o.textureVertices, o.normals, fmt, offset, g);
    CollectAppend(NumberFrom(BodyOf(o, fmt), offset), tail, FaceSelect(g));
  }

  /** An object's body followed by lines holding no record reads back as the
      object's faces, regrouped in pass order. */
  lemma SliceFaces(o: OBJObject, fmt: RealFormat, offset: int, tail: seq<NumberedLine>)
    requires ReadsBack(fmt) && Writable(o) && HoldsNoRecord(tail, fmt)
    ensures Faces(NumberFrom(BodyOf(o, fmt), offset) + tail) == Regrouped(o.faces)
  {
    SlicePass(o, fmt, offset, tail, VertexOnly);
    SlicePass(o, fmt, offset, tail, VertexNormal);
    SlicePass(o, fmt, offset, tail, VertexTexture);
    SlicePass(o, fmt, offset, tail, VertexTextureNormal);
  }

  // ---------------------------------------------------------------------------
  // The round trip
  // ---------------------------------------------------------------------------

  /** What the parser rebuilds for object k of the plain output: number
      k + 1, the `o` line as its position, the next `o` line (or the end of
      the output) as its last position, the same name, the vertices with line
      number 0, the same texture vertices and normals, and the faces
      regrouped in pass order. */
  function Reread(objs: seq<OBJObject>, fmt: RealFormat, k: int): OBJObject
    requires 0 <= k < |objs|
  {
    var o, block := objs[k], StdObjectIn(fmt);
    OBJObject(k + 1, Start(objs, block, k) + 1,
              if k < |objs| - 1 then Start(objs, block, k + 1) + 1 else |StdLines(objs, fmt)|,
              o.name, ResetLines(o.vertices), o.textureVertices, o.normals, Regrouped(o.faces))
  }

  /** What the parser rebuilds from the plain output, object by object. */
  function StdReadBack(objs: seq<OBJObject>, fmt: RealFormat): seq<OBJObject>
  {
    seq(|objs|, k requires 0 <= k < |objs| => Reread(objs, fmt, k))
  }

  /** The row the join yields for object k of the plain output. */
  lemma StdRange(objs: seq<OBJObject>, fmt: RealFormat, k: int)
    requires 0 <= k < |objs|
    ensures var block := StdObjectIn(fmt);
      ExpectedRange(StdMarkers(objs, fmt), k, |StdLines(objs, fmt)|) ==
        ObjectRange(k + 1, Start(objs, block, k) + 1,
                    if k < |objs| - 1 then Start(objs, block, k + 1) + 1 else |StdLines(objs, fmt)|,
                    objs[k].name)
  {
  }

  /** Object k of the plain output, cut out by its marker's range, is read
      back as `Reread(objs, fmt, k)`. */
  lemma ObjectReadsBack(objs: seq<OBJObject>, fmt: RealFormat, k: int)
    requires ReadsBack(fmt)
    requires forall j :: 0 <= j < |objs| ==> Writable(objs[j])
    requires 0 <= k < |objs|
    ensures var lines := StdLines(objs, fmt);
      var r := ExpectedRange(StdMarkers(objs, fmt), k, |lines|);
      r.position <= r.lastPosition <= |lines| &&
      ObjectOf(r, NumberLines(lines)[r.position..r.lastPosition], fmt) == Reread(objs, fmt, k)
  {
    var lines, block := StdLines(objs, fmt), StdObjectIn(fmt);
    var o := objs[k];
    var p := Start(objs, block, k) + 1;
    var r := ExpectedRange(StdMarkers(objs, fmt), k, |lines|);
    StdRange(objs, fmt, k);
    ObjectSlice(objs, fmt, k);
    var tail: seq<NumberedLine> := [];
    if k < |objs| - 1 {
      tail := NumberFrom(["o " + objs[k + 1].name], Start(objs, block, k + 1));
      MarkerLineHoldsNoRecord(objs[k + 1].name, Start(objs, block, k + 1), fmt);
    } else {
      assert NumberFrom(BodyOf(o, fmt), p) + [] == NumberFrom(BodyOf(o, fmt), p);
    }
    var slice := NumberLines(lines)[r.position..r.lastPosition];
    assert slice == NumberFrom(BodyOf(o, fmt), p) + tail;
    SliceRecords(o, fmt, p, tail);
    SliceFaces(o, fmt, p, tail);
  }

  /** The plain output's markers carry the objects' names, in order. */
  lemma StdMarkerNames(objs: seq<OBJObject>, fmt: RealFormat)
    ensures |StdMarkers(objs, fmt)| == |objs|
    ensures forall k :: 0 <= k < |objs| ==> StdMarkers(objs, fmt)[k].name == objs[k].name
  {
  }

  /** Markers named after the objects share the last name exactly when the
      objects do. */
  lemma LastNameAsObjects(ms: seq<Marker>, objs: seq<OBJObject>)
    requires |ms| == |objs|
    requires forall k :: 0 <= k < |objs| ==> ms[k].name == objs[k].name
    ensures LastNameUnique(ms) <==> forall k :: 0 <= k < |objs| - 1 ==> objs[k].name != objs[|objs| - 1].name
  {
    if !LastNameUnique(ms) {
      var k :| 0 <= k < |ms| - 1 && ms[k].name == ms[|ms| - 1].name;
      assert objs[k].name == objs[|objs| - 1].name;
    }
    if exists k :: 0 <= k < |objs| - 1 && objs[k].name == objs[|objs| - 1].name {
      var k :| 0 <= k < |objs| - 1 && objs[k].name == objs[|objs| - 1].name;
      assert ms[k].name == ms[|ms| - 1].name;
    }
  }

  /** A parse that succeeded with the expected objects, one by one. */
  lemma ParsedAs(res: Result<seq<OBJObject>, SegmentFailure>, expected: seq<OBJObject>)
    requires res.Success? && |res.value| == |expected|
    requires forall k :: 0 <= k < |expected| ==> res.value[k] == expected[k]
    ensures res == Success(expected)
  {
    assert res.value == expected;
  }

  /** The plain writer's partner: when the format reads its numbers back,
      names hold no space, every face is one the parser can have read, and no
      earlier object has the last object's name, parsing the plain output
      succeeds and rebuilds every object as `Reread` says. */
  lemma StdRoundTrip(objs: seq<OBJObject>, fmt: RealFormat)
    requires ReadsBack(fmt)
    requires forall k :: 0 <= k < |objs| ==> Writable(objs[k])
    requires forall k :: 0 <= k < |objs| - 1 ==> objs[k].name != objs[|objs| - 1].name
    ensures ParseObjects(StdLines(objs, fmt), fmt) == Success(StdReadBack(objs, fmt))
  {
    var lines := StdLines(objs, fmt);
    var ms := Markers(lines);
    StdLinesMarkers(objs, fmt);
    StdMarkerNames(objs, fmt);
    LastNameAsObjects(ms, objs);
    SegmentsObjects(lines, fmt);
    var res := ParseObjects(lines, fmt);
    forall k | 0 <= k < |objs|
      ensures res.value[k] == StdReadBack(objs, fmt)[k]
    {
      ObjectReadsBack(objs, fmt, k);
    }
    ParsedAs(res, StdReadBack(objs, fmt));
  }

  /** The other side: when an earlier object has the last object's name, the
      parser cannot read the plain output back. */
  lemma StdRoundTripFails(objs: seq<OBJObject>, fmt: RealFormat)
    requires ReadsBack(fmt)
    requires forall k :: 0 <= k < |objs| ==> ' ' !in objs[k].name
    requires exists k :: 0 <= k < |objs| - 1 && objs[k].name == objs[|objs| - 1].name
    ensures ParseObjects(StdLines(objs, fmt), fmt).Failure?
  {
    var lines := StdLines(objs, fmt);
    StdLinesMarkers(objs, fmt);
    StdMarkerNames(objs, fmt);
    LastNameAsObjects(Markers(lines), objs);
    DuplicateLastNameFails(lines, fmt);
  }

  // ---------------------------------------------------------------------------
  // Through the file: `WriteLine` per line, then `File.ReadLines`
  // ---------------------------------------------------------------------------

  /** No line of `lines` holds a line break. */
  predicate Unbroken(lines: seq<string>)
  {
    forall k :: 0 <= k < |lines| ==> NoLineBreak(lines[k])
  }

  lemma UnbrokenAppend(a: seq<string>, b: seq<string>)
    requires Unbroken(a) && Unbroken(b)
    ensures Unbroken(a + b)
  {
    forall k | 0 <= k < |a + b|
      ensures NoLineBreak((a + b)[k])
    {
      if k < |a| {
        assert (a + b)[k] == a[k];
      } else {
        assert (a + b)[k] == b[k - |a|];
      }
    }
  }

  lemma UnbrokenRender<T>(xs: seq<T>, line: T -> string)
    requires forall k :: 0 <= k < |xs| ==> NoLineBreak(line(xs[k]))
    ensures Unbroken(Render(xs, line))
  {
  }

  /** An `f` line holds no line break. */
  lemma {:induction false} FaceLineUnbroken(face: Face)
    ensures NoLineBreak(FaceLine(face))
    decreases |face|
  {
    if face != [] {
      FaceLineUnbroken(face[..|face| - 1]);
      RefTokenHasNoSeparator(face[|face| - 1]);
    }
  }

  /** Every line the plain writer writes for one object is free of line
      breaks. */
  lemma StdObjectUnbroken(o: OBJObject, fmt: RealFormat)
    requires ReadsBack(fmt) && NoLineBreak(o.name)
    ensures Unbroken(StdObjectLines(o, fmt))
  {
    forall k | 0 <= k < |o.faces|
      ensures NoLineBreak(FaceLine(o.faces[k]))
    {
      FaceLineUnbroken(o.faces[k]);
    }
    UnbrokenRender(o.faces, FaceLine);
    forall k | 0 <= k < |o.vertices|
      ensures NoLineBreak(VertexLineIn(fmt)(o.vertices[k]))
    {
      var v := o.vertices[k];
      assert NoLineBreak(fmt.show(v.x)) && NoLineBreak(fmt.show(v.y)) && NoLineBreak(fmt.show(v.z));
    }
    UnbrokenRender(o.vertices, VertexLineIn(fmt));
    forall k | 0 <= k < |o.textureVertices|
      ensures NoLineBreak(TextureLineIn(fmt)(o.textureVertices[k]))
    {
      var t := o.textureVertices[k];
      assert NoLineBreak(fmt.show(t.x)) && NoLineBreak(fmt.show(t.y));
    }
    UnbrokenRender(o.textureVertices, TextureLineIn(fmt));
    forall k | 0 <= k < |o.normals|
      ensures NoLineBreak(NormalLineIn(fmt)(o.normals[k]))
    {
      var n := o.normals[k];
      assert NoLineBreak(fmt.show(n.x)) && NoLineBreak(fmt.show(n.y)) && NoLineBreak(fmt.show(n.z));
    }
    UnbrokenRender(o.normals, NormalLineIn(fmt));
    var head := ["o " + o.name];
    assert Unbroken(head);
    var a := head + Render(o.faces, FaceLine);
    UnbrokenAppend(head, Render(o.faces, FaceLine));
    var b := a + Render(o.vertices, VertexLineIn(fmt));
    UnbrokenAppend(a, Render(o.vertices, VertexLineIn(fmt)));
    var c := b + Render(o.textureVertices, TextureLineIn(fmt));
    UnbrokenAppend(b, Render(o.textureVertices, TextureLineIn(fmt)));
    UnbrokenAppend(c, Render(o.normals, NormalLineIn(fmt)));
  }

  /** The whole plain output is free of line breaks when the names and the
      printed numbers are. */
  lemma {:induction false} StdLinesUnbroken(objs: seq<OBJObject>, fmt: RealFormat)
    requires ReadsBack(fmt)
    requires forall k :: 0 <= k < |objs| ==> NoLineBreak(objs[k].name)
    ensures Unbroken(StdLines(objs, fmt))
    decreases |objs|
  {
    if objs != [] {
      var init := objs[..|objs| - 1];
      StdLinesUnbroken(init, fmt);
      StdObjectUnbroken(objs[|objs| - 1], fmt);
      UnbrokenAppend(StdLines(init, fmt), StdObjectLines(objs[|objs| - 1], fmt));
    }
  }

  /** `File.ReadLines` on the file `outputStdOBJ` writes gives back the lines
      written. */
  lemma StdFileLines(objs: seq<OBJObject>, fmt: RealFormat, nl: string)
    requires ReadsBack(fmt) && IsNewLine(nl)
    requires forall k :: 0 <= k < |objs| ==> NoLineBreak(objs[k].name)
    ensures ReadLines(FileText(StdLines(objs, fmt), nl)) == StdLines(objs, fmt)
  {
    StdLinesUnbroken(objs, fmt);
    ReadLinesOfFileText(StdLines(objs, fmt), nl);
  }

  /** The round trip through the file: `Main` reading, with `File.ReadLines`,
      the file `outputStdOBJ` wrote rebuilds every object as `Reread` says. */
  lemma StdFileRoundTrip(objs: seq<OBJObject>, fmt: RealFormat, nl: string)
    requires ReadsBack(fmt) && IsNewLine(nl)
    requires forall k :: 0 <= k < |objs| ==> Writable(objs[k])
    requires forall k :: 0 <= k < |objs| - 1 ==> objs[k].name != objs[|objs| - 1].name
    ensures ParseObjects(ReadLines(FileText(StdLines(objs, fmt), nl)), fmt) == Success(StdReadBack(objs, fmt))
  {
    StdFileLines(objs, fmt, nl);
    StdRoundTrip(objs, fmt);
  }

  /** Through the file as well, an earlier object with the last object's name
      makes the parse fail. */
  lemma StdFileRoundTripFails(objs: seq<OBJObject>, fmt: RealFormat, nl: string)
    requires ReadsBack(fmt) && IsNewLine(nl)
    requires forall k :: 0 <= k < |objs| ==> ' ' !in objs[k].name && NoLineBreak(objs[k].name)
    requires exists k :: 0 <= k < |objs| - 1 && objs[k].name == objs[|objs| - 1].name
    ensures ParseObjects(ReadLines(FileText(StdLines(objs, fmt), nl)), fmt).Failure?
  {
    StdFileLines(objs, fmt, nl);
    StdRoundTripFails(objs, fmt);
  }
}
