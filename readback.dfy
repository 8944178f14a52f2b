/**
 * Reading back what the writers of OBJParser/Program.cs print. Every line
 * `outputStdOBJ` writes is read by the directive parsers as the record it was
 * written from, the face lists of the YAML form cut at their commas read back
 * as the face, and a whole plain-form file read by `Main`'s segmentation gives
 * back the objects it was written from: same names, same records, faces
 * regrouped by reference grammar, vertices with line number 0.
 */
module Readback {
  import opened Wrappers
  import opened Text
  import opened Geometry
  import opened Directives
  import opened Segmentation
  import opened Writers

  // ---------------------------------------------------------------------------
  // The words of a written face
  // ---------------------------------------------------------------------------

  /** A face that a parser pass can have read: at least three references,
      all well formed and of the grammar of the first. */
  predicate ParsedFace(face: Face)
  {
    |face| >= 3 && IsFaceOf(face, GrammarOf(face[0]))
  }

  /** The reference tokens of a face, in order. */
  function Tokens(face: Face): seq<string>
  {
    Render(face, RefToken)
  }

  /** No token holds a space or a comma. */
  lemma TokensHaveNoSeparator(face: Face)
    ensures forall k :: 0 <= k < |Tokens(face)| ==> ' ' !in Tokens(face)[k] && ',' !in Tokens(face)[k]
  {
    forall k | 0 <= k < |Tokens(face)|
      ensures ' ' !in Tokens(face)[k] && ',' !in Tokens(face)[k]
    {
      RefTokenHasNoSeparator(face[k]);
    }
  }

  /** An `f` line is `f`, a space and the tokens joined by spaces. */
  lemma {:induction false} FaceLineJoined(face: Face)
    requires |face| >= 1
    ensures FaceLine(face) == "f" + " " + Join(Tokens(face), " ")
    decreases |face|
  {
    var init, last := face[..|face| - 1], face[|face| - 1];
    assert Tokens(face) == Tokens(init) + [RefToken(last)];
    if init == [] {
      assert FaceLine(face) == "f" + " " + RefToken(last);
    } else {
      FaceLineJoined(init);
      JoinedStep("f", FaceLine(init), Tokens(init), RefToken(last));
    }
  }

  /** One more word after a key line keeps it the key and the joined words. */
  lemma JoinedStep(key: string, line: string, words: seq<string>, w: string)
    requires |words| >= 1 && line == key + " " + Join(words, " ")
    ensures line + " " + w == key + " " + Join(words + [w], " ")
  {
    JoinSnoc(words, w, " ");
  }

  /** A key, a space and words joined by spaces splits back into the key
      and the words. */
  lemma KeyedJoinWords(key: string, words: seq<string>)
    requires ' ' !in key && |words| >= 1
    requires forall k :: 0 <= k < |words| ==> ' ' !in words[k]
    ensures LineWords(key + " " + Join(words, " ")) == [key] + words
  {
    KeyFirst(key, Join(words, " "));
    SplitJoin(words, " ");
  }

  /** The words of an `f` line: `f`, then one token per reference. */
  lemma FaceLineWords(face: Face)
    ensures LineWords(FaceLine(face)) == ["f"] + Tokens(face)
  {
    if face == [] {
      SplitWithoutSeparator("f", " ");
    } else {
      FaceLineJoined(face);
      TokensHaveNoSeparator(face);
      KeyedJoinWords("f", Tokens(face));
    }
  }

  /** The YAML list of a face is its tokens joined by commas. */
  lemma {:induction false} YamlRefsJoined(face: Face)
    ensures YamlRefs(face) == Join(Tokens(face), ",")
    decreases |face|
  {
    if face != [] {
      var init, last := face[..|face| - 1], face[|face| - 1];
      YamlRefsJoined(init);
      assert Tokens(face) == Tokens(init) + [RefToken(last)];
      if init == [] {
        assert YamlRefs(face) == "" + "" + RefToken(last);
      } else {
        JoinSnoc(Tokens(init), RefToken(last), ",");
      }
    }
  }

  /** The tokens of a face read with its own grammar give the face back. */
  lemma TokensParse(face: Face, g: RefGrammar)
    requires forall k :: 0 <= k < |face| ==> GrammarOf(face[k]) == g && WellFormedRef(face[k])
    ensures ParseRefs(g, Tokens(face)) == Some(face)
  {
    var tokens := Tokens(face);
    forall k | 0 <= k < |tokens|
      ensures ParseRef(g, tokens[k]) == Some(face[k])
    {
      RefTokenRoundTrip(face[k]);
    }
    var r := ParseRefs(g, tokens);
    assert r.Some?;
    forall k | 0 <= k < |face|
      ensures r.value[k] == face[k]
    {
      assert ParseRef(g, tokens[k]) == Some(r.value[k]);
    }
    assert r.value == face;
  }

  /** Read with another grammar, the tokens of a non-empty face are refused. */
  lemma TokensRefused(face: Face, g: RefGrammar)
    requires |face| >= 1 && WellFormedRef(face[0]) && g != GrammarOf(face[0])
    ensures ParseRefs(g, Tokens(face)).None?
  {
    RefTokenRoundTrip(face[0]);
    assert ParseRef(g, Tokens(face)[0]).None?;
  }

  /** An `f` line of three or more tokens is read as its tokens are. */
  lemma FaceOfKeyed(g: RefGrammar, tokens: seq<string>)
    requires |tokens| >= 3
    ensures FaceOf(g, ["f"] + tokens) == ParseRefs(g, tokens)
  {
    assert (["f"] + tokens)[1..] == tokens;
  }

  /** An `f` line the plain and optimised writers print is read by exactly
      one parser pass, the one of its grammar, and that pass reads the face it
      was written from. */
  lemma FaceLineReadsBack(face: Face)
    requires ParsedFace(face)
    ensures forall g :: FaceOf(g, LineWords(FaceLine(face))) == if g == GrammarOf(face[0]) then Some(face) else None
  {
    var tokens := Tokens(face);
    FaceLineWords(face);
    forall g
      ensures FaceOf(g, ["f"] + tokens) == if g == GrammarOf(face[0]) then Some(face) else None
    {
      FaceOfKeyed(g, tokens);
      if g == GrammarOf(face[0]) {
        TokensParse(face, g);
      } else {
        TokensRefused(face, g);
      }
    }
  }

  /** A face line of the YAML form holds the tokens joined by commas; cut at
      the commas, they read back as the face with its own grammar. */
  lemma YamlFaceReadsBack(face: Face)
    requires ParsedFace(face)
    ensures YamlFaceLine(face) == "      - [" + Join(Tokens(face), ",") + "]"
    ensures Split(YamlRefs(face), ",") == Tokens(face)
    ensures ParseRefs(GrammarOf(face[0]), Split(YamlRefs(face), ",")) == Some(face)
  {
    YamlRefsJoined(face);
    TokensHaveNoSeparator(face);
    SplitJoin(Tokens(face), ",");
    TokensParse(face, GrammarOf(face[0]));
  }

  // ---------------------------------------------------------------------------
  // The words of the other written lines
  // ---------------------------------------------------------------------------

  /** An `o` line names the object, when the name has no space. */
  lemma ObjectLineReadsBack(name: string)
    requires ' ' !in name
    ensures LineWords("o " + name) == ["o", name] && IsObjectMarker(LineWords("o " + name))
  {
    WordsOfTwo("o", name);
    assert "o " + name == "o" + " " + name;
  }

  /** A `vt` line reads back as the texture vertex it was written from. */
  lemma TextureLineReadsBack(t: Vertex2D, fmt: RealFormat)
    requires ReadsBack(fmt)
    ensures LineWords(TextureLineIn(fmt)(t)) == ["vt", fmt.show(t.x), fmt.show(t.y)]
    ensures TextureVertexOf(LineWords(TextureLineIn(fmt)(t)), fmt) == Some(t)
  {
    assert ' ' !in fmt.show(t.x) && fmt.read(fmt.show(t.x)) == Some(t.x);
    assert ' ' !in fmt.show(t.y) && fmt.read(fmt.show(t.y)) == Some(t.y);
    WordsOfThree("vt", fmt.show(t.x), fmt.show(t.y));
    assert TextureLineIn(fmt)(t) == "vt" + " " + fmt.show(t.x) + " " + fmt.show(t.y);
  }

  /** A `vn` line reads back as the normal it was written from. */
  lemma NormalLineReadsBack(n: Vector3D, fmt: RealFormat)
    requires ReadsBack(fmt)
    ensures LineWords(NormalLineIn(fmt)(n)) == ["vn", fmt.show(n.x), fmt.show(n.y), fmt.show(n.z)]
    ensures NormalOf(LineWords(NormalLineIn(fmt)(n)), fmt) == Some(n)
  {
    assert ' ' !in fmt.show(n.x) && fmt.read(fmt.show(n.x)) == Some(n.x);
    assert ' ' !in fmt.show(n.y) && fmt.read(fmt.show(n.y)) == Some(n.y);
    assert ' ' !in fmt.show(n.z) && fmt.read(fmt.show(n.z)) == Some(n.z);
    WordsOfFour("vn", fmt.show(n.x), fmt.show(n.y), fmt.show(n.z));
    assert NormalLineIn(fmt)(n) == "vn" + " " + fmt.show(n.x) + " " + fmt.show(n.y) + " " + fmt.show(n.z);
  }

  // ---------------------------------------------------------------------------
  // Record lists parsed back from written lines
  // ---------------------------------------------------------------------------

  /** Numbering two runs of lines one after the other. */
  lemma NumberFromAppend(a: seq<string>, b: seq<string>, offset: int)
    ensures NumberFrom(a + b, offset) == NumberFrom(a, offset) + NumberFrom(b, offset + |a|)
  {
  }

  /** What a query selects from lines written one per record. */
  function Harvest<T, U>(xs: seq<T>, line: T -> string, select: Words -> Option<U>): seq<U>
  {
    if xs == [] then [] else Harvest(xs[..|xs| - 1], line, select) + Emit(select(LineWords(line(xs[|xs| - 1]))))
  }

  /** A query over written lines selects record by record, wherever the lines
      are numbered from. */
  lemma {:induction false} CollectRendered<T, U>(xs: seq<T>, line: T -> string, select: Words -> Option<U>, offset: int)
    ensures Collect(NumberFrom(Render(xs, line), offset), select) == Harvest(xs, line, select)
    decreases |xs|
  {
    if xs != [] {
      var init, last := xs[..|xs| - 1], xs[|xs| - 1];
      CollectRendered(init, line, select, offset);
      NumberFromAppend(Render(init, line), [line(last)], offset);
      var lastLine := NumberedLine(LineWords(line(last)), offset + |init| + 1);
      assert NumberFrom([line(last)], offset + |init|) == [lastLine];
      CollectAppend(NumberFrom(Render(init, line), offset), [lastLine], select);
      CollectOne(lastLine, select);
    }
  }

  /** Every line read back as its record: the query yields the records. */
  lemma {:induction false} HarvestAll<T, U>(xs: seq<T>, line: T -> string, select: Words -> Option<U>, ys: seq<U>)
    requires |ys| == |xs|
    requires forall k :: 0 <= k < |xs| ==> select(LineWords(line(xs[k]))) == Some(ys[k])
    ensures Harvest(xs, line, select) == ys
    decreases |xs|
  {
    if xs != [] {
      HarvestAll(xs[..|xs| - 1], line, select, ys[..|ys| - 1]);
    }
  }

  /** No line accepted: the query yields nothing. */
  lemma {:induction false} HarvestNone<T, U>(xs: seq<T>, line: T -> string, select: Words -> Option<U>)
    requires forall k :: 0 <= k < |xs| ==> select(LineWords(line(xs[k]))).None?
    ensures Harvest(xs, line, select) == []
    decreases |xs|
  {
    if xs != [] {
      HarvestNone(xs[..|xs| - 1], line, select);
    }
  }

  /** Every written line starts with the word `key`. */
  predicate KeyedLines<T>(xs: seq<T>, line: T -> string, key: string)
  {
    forall k :: 0 <= k < |xs| ==> |LineWords(line(xs[k]))| > 0 && LineWords(line(xs[k]))[0] == key
  }

  /** Lines not starting with `v` hold no vertex. */
  lemma NoVertices<T>(xs: seq<T>, line: T -> string, key: string, fmt: RealFormat, offset: int)
    requires KeyedLines(xs, line, key) && key != "v"
    ensures Vertices(NumberFrom(Render(xs, line), offset), fmt) == []
  {
    CollectRendered(xs, line, VertexSelect(fmt), offset);
    HarvestNone(xs, line, VertexSelect(fmt));
  }

  /** Lines not starting with `vt` hold no texture vertex. */
  lemma NoTextureVertices<T>(xs: seq<T>, line: T -> string, key: string, fmt: RealFormat, offset: int)
    requires KeyedLines(xs, line, key) && key != "vt"
    ensures TextureVertices(NumberFrom(Render(xs, line), offset), fmt) == []
  {
    CollectRendered(xs, line, TextureSelect(fmt), offset);
    HarvestNone(xs, line, TextureSelect(fmt));
  }

  /** Lines not starting with `vn` hold no normal. */
  lemma NoNormals<T>(xs: seq<T>, line: T -> string, key: string, fmt: RealFormat, offset: int)
    requires KeyedLines(xs, line, key) && key != "vn"
    ensures Normals(NumberFrom(Render(xs, line), offset), fmt) == []
  {
    CollectRendered(xs, line, NormalSelect(fmt), offset);
    HarvestNone(xs, line, NormalSelect(fmt));
  }

  /** Lines not starting with `f` hold no face, for any pass. */
  lemma NoFaces<T>(xs: seq<T>, line: T -> string, key: string, g: RefGrammar, offset: int)
    requires KeyedLines(xs, line, key) && key != "f"
    ensures FacesOfPass(NumberFrom(Render(xs, line), offset), g) == []
  {
    CollectRendered(xs, line, FaceSelect(g), offset);
    HarvestNone(xs, line, FaceSelect(g));
  }

  /** No line is an `o` line: no marker. */
  lemma {:induction false} NoMarkersIn(lines: seq<NumberedLine>)
    requires forall k :: 0 <= k < |lines| ==> |lines[k].lineWords| > 0 && lines[k].lineWords[0] != "o"
    ensures ObjectMarkers(lines) == []
    decreases |lines|
  {
    if lines != [] {
      NoMarkersIn(lines[..|lines| - 1]);
    }
  }

  /** Lines not starting with `o` hold no marker. */
  lemma NoMarkers<T>(xs: seq<T>, line: T -> string, key: string, offset: int)
    requires KeyedLines(xs, line, key) && key != "o"
    ensures ObjectMarkers(NumberFrom(Render(xs, line), offset)) == []
  {
    NoMarkersIn(NumberFrom(Render(xs, line), offset));
  }

  /** The faces of a list whose grammar is `g`, in order. */
  function FacesWith(faces: seq<Face>, g: RefGrammar): (r: seq<Face>)
    ensures forall k :: 0 <= k < |r| ==> r[k] in faces && r[k] != [] && GrammarOf(r[k][0]) == g
  {
    if faces == [] then []
    else
      var last := faces[|faces| - 1];
      FacesWith(faces[..|faces| - 1], g) + if last != [] && GrammarOf(last[0]) == g then [last] else []
  }

  /** The faces a pass reads back from the `f` lines of a face list. */
  lemma {:induction false} HarvestFaces(faces: seq<Face>, g: RefGrammar)
    requires forall k :: 0 <= k < |faces| ==> ParsedFace(faces[k])
    ensures Harvest(faces, FaceLine, FaceSelect(g)) == FacesWith(faces, g)
    decreases |faces|
  {
    if faces != [] {
      HarvestFaces(faces[..|faces| - 1], g);
      FaceLineReadsBack(faces[|faces| - 1]);
    }
  }

  /** Every `f` line starts with `f`. */
  lemma FaceLinesKeyed(faces: seq<Face>)
    ensures KeyedLines(faces, FaceLine, "f")
  {
    forall k | 0 <= k < |faces|
      ensures |LineWords(FaceLine(faces[k]))| > 0 && LineWords(FaceLine(faces[k]))[0] == "f"
    {
      FaceLineWords(faces[k]);
    }
  }

  /** Every `v` line starts with `v`. */
  lemma VertexLinesKeyed(vs: seq<Vertex3D>, fmt: RealFormat)
    requires ReadsBack(fmt)
    ensures KeyedLines(vs, VertexLineIn(fmt), "v")
  {
    forall k | 0 <= k < |vs|
      ensures |LineWords(VertexLineIn(fmt)(vs[k]))| > 0 && LineWords(VertexLineIn(fmt)(vs[k]))[0] == "v"
    {
      VertexLineReadsBack(vs[k], fmt);
    }
  }

  /** Every `vt` line starts with `vt`. */
  lemma TextureLinesKeyed(ts: seq<Vertex2D>, fmt: RealFormat)
    requires ReadsBack(fmt)
    ensures KeyedLines(ts, TextureLineIn(fmt), "vt")
  {
    forall k | 0 <= k < |ts|
      ensures |LineWords(TextureLineIn(fmt)(ts[k]))| > 0 && LineWords(TextureLineIn(fmt)(ts[k]))[0] == "vt"
    {
      TextureLineReadsBack(ts[k], fmt);
    }
  }

  /** Every `vn` line starts with `vn`. */
  lemma NormalLinesKeyed(ns: seq<Vector3D>, fmt: RealFormat)
    requires ReadsBack(fmt)
    ensures KeyedLines(ns, NormalLineIn(fmt), "vn")
  {
    forall k | 0 <= k < |ns|
      ensures |LineWords(NormalLineIn(fmt)(ns[k]))| > 0 && LineWords(NormalLineIn(fmt)(ns[k]))[0] == "vn"
    {
      NormalLineReadsBack(ns[k], fmt);
    }
  }

  /** The `f` lines of an object read back: every pass finds the faces of its
      grammar, in order. */
  lemma FacePartReadsBack(faces: seq<Face>, g: RefGrammar, offset: int)
    requires forall k :: 0 <= k < |faces| ==> ParsedFace(faces[k])
    ensures FacesOfPass(NumberFrom(Render(faces, FaceLine), offset), g) == FacesWith(faces, g)
  {
    CollectRendered(faces, FaceLine, FaceSelect(g), offset);
    HarvestFaces(faces, g);
  }

  /** The vertices as the parser builds them: line number 0. */
  function ResetLines(vs: seq<Vertex3D>): seq<Vertex3D>
  {
    seq(|vs|, k requires 0 <= k < |vs| => vs[k].(lineNumber := 0))
  }

  /** The `v` lines of an object read back as its vertices, with line
      number 0. */
  lemma VertexPartReadsBack(vs: seq<Vertex3D>, fmt: RealFormat, offset: int)
    requires ReadsBack(fmt)
    ensures Vertices(NumberFrom(Render(vs, VertexLineIn(fmt)), offset), fmt) == ResetLines(vs)
  {
    var line := VertexLineIn(fmt);
    forall k | 0 <= k < |vs|
      ensures VertexSelect(fmt)(LineWords(line(vs[k]))) == Some(ResetLines(vs)[k])
    {
      VertexLineReadsBack(vs[k], fmt);
    }
    CollectRendered(vs, line, VertexSelect(fmt), offset);
    HarvestAll(vs, line, VertexSelect(fmt), ResetLines(vs));
  }

  /** The `vt` lines of an object read back as its texture vertices. */
  lemma TexturePartReadsBack(ts: seq<Vertex2D>, fmt: RealFormat, offset: int)
    requires ReadsBack(fmt)
    ensures TextureVertices(NumberFrom(Render(ts, TextureLineIn(fmt)), offset), fmt) == ts
  {
    var line := TextureLineIn(fmt);
    forall k | 0 <= k < |ts|
      ensures TextureSelect(fmt)(LineWords(line(ts[k]))) == Some(ts[k])
    {
      TextureLineReadsBack(ts[k], fmt);
    }
    CollectRendered(ts, line, TextureSelect(fmt), offset);
    HarvestAll(ts, line, TextureSelect(fmt), ts);
  }

  /** The `vn` lines of an object read back as its normals. */
  lemma NormalPartReadsBack(ns: seq<Vector3D>, fmt: RealFormat, offset: int)
    requires ReadsBack(fmt)
    ensures Normals(NumberFrom(Render(ns, NormalLineIn(fmt)), offset), fmt) == ns
  {
    var line := NormalLineIn(fmt);
    forall k | 0 <= k < |ns|
      ensures NormalSelect(fmt)(LineWords(line(ns[k]))) == Some(ns[k])
    {
      NormalLineReadsBack(ns[k], fmt);
    }
    CollectRendered(ns, line, NormalSelect(fmt), offset);
    HarvestAll(ns, line, NormalSelect(fmt), ns);
  }

  // ---------------------------------------------------------------------------
  // One object written and read back
  // ---------------------------------------------------------------------------

  /** An object the plain writer can write so that it reads back: its name has
      no space and no line break, and every face is one a parser pass can have
      read. */
  predicate Writable(o: OBJObject)
  {
    ' ' !in o.name && NoLineBreak(o.name) && forall k :: 0 <= k < |o.faces| ==> ParsedFace(o.faces[k])
  }

  /** The lines after an object's `o` line: its faces, vertices, texture
      vertices and normals. */
  function StdBody(faces: seq<Face>, vs: seq<Vertex3D>, ts: seq<Vertex2D>, ns: seq<Vector3D>, fmt: RealFormat): seq<string>
  {
    Render(faces, FaceLine) + Render(vs, VertexLineIn(fmt)) + Render(ts, TextureLineIn(fmt)) + Render(ns, NormalLineIn(fmt))
  }

  /** The faces of a list regrouped as the four parser passes read them:
      vertex-only faces, then vertex//normal, then vertex/texture, then
      vertex/texture/normal, each group in list order. */
  function Regrouped(faces: seq<Face>): seq<Face>
  {
    FacesWith(faces, VertexOnly) + FacesWith(faces, VertexNormal) +
    FacesWith(faces, VertexTexture) + FacesWith(faces, VertexTextureNormal)
  }

  /** Numbering four runs of lines one after the other, the runs starting
      at `offset`, `ob`, `oc` and `od`. */
  lemma NumberFromFour(a: seq<string>, b: seq<string>, c: seq<string>, d: seq<string>,
                       offset: int, ob: int, oc: int, od: int)
    requires ob == offset + |a| && oc == ob + |b| && od == oc + |c|
    ensures NumberFrom(a + b + c + d, offset) ==
      NumberFrom(a, offset) + NumberFrom(b, ob) + NumberFrom(c, oc) + NumberFrom(d, od)
  {
    NumberFromAppend(a, b, offset);
    NumberFromAppend(a + b, c, offset);
    NumberFromAppend(a + b + c, d, offset);
  }

  /** Querying four runs of lines one after the other. */
  lemma CollectFour<U>(a: seq<NumberedLine>, b: seq<NumberedLine>, c: seq<NumberedLine>, d: seq<NumberedLine>,
                       select: Words -> Option<U>)
    ensures Collect(a + b + c + d, select) == Collect(a, select) + Collect(b, select) + Collect(c, select) + Collect(d, select)
  {
    CollectAppend(a, b, select);
    CollectAppend(a + b, c, select);
    CollectAppend(a + b + c, d, select);
  }

  /** Markers distribute over concatenation of line runs. */
  lemma {:induction false} MarkersAppend(a: seq<NumberedLine>, b: seq<NumberedLine>)
    ensures ObjectMarkers(a + b) == ObjectMarkers(a) + ObjectMarkers(b)
    decreases |b|
  {
    if b == [] {
      assert a + b == a;
    } else {
      var init := b[..|b| - 1];
      assert (a + b)[..|a + b| - 1] == a + init;
      assert (a + b)[|a + b| - 1] == b[|b| - 1];
      MarkersAppend(a, init);
    }
  }

  /** A query over four runs of lines numbered one after the other, each of
      whose answers is known. */
  lemma CollectInParts<U>(a: seq<string>, b: seq<string>, c: seq<string>, d: seq<string>,
                          offset: int, ob: int, oc: int, od: int,
                          select: Words -> Option<U>, ya: seq<U>, yb: seq<U>, yc: seq<U>, yd: seq<U>)
    requires ob == offset + |a| && oc == ob + |b| && od == oc + |c|
    requires Collect(NumberFrom(a, offset), select) == ya
    requires Collect(NumberFrom(b, ob), select) == yb
    requires Collect(NumberFrom(c, oc), select) == yc
    requires Collect(NumberFrom(d, od), select) == yd
    ensures Collect(NumberFrom(a + b + c + d, offset), select) == ya + yb + yc + yd
  {
    NumberFromFour(a, b, c, d, offset, ob, oc, od);
    CollectFour(NumberFrom(a, offset), NumberFrom(b, ob), NumberFrom(c, oc), NumberFrom(d, od), select);
  }

  /** Four runs of lines numbered one after the other, none holding a
      marker. */
  lemma NoMarkersInParts(a: seq<string>, b: seq<string>, c: seq<string>, d: seq<string>,
                          offset: int, ob: int, oc: int, od: int)
    requires ob == offset + |a| && oc == ob + |b| && od == oc + |c|
    requires ObjectMarkers(NumberFrom(a, offset)) == []
    requires ObjectMarkers(NumberFrom(b, ob)) == []
    requires ObjectMarkers(NumberFrom(c, oc)) == []
    requires ObjectMarkers(NumberFrom(d, od)) == []
    ensures ObjectMarkers(NumberFrom(a + b + c + d, offset)) == []
  {
    var na, nb, nc, nd := NumberFrom(a, offset), NumberFrom(b, ob), NumberFrom(c, oc), NumberFrom(d, od);
    NumberFromFour(a, b, c, d, offset, ob, oc, od);
    MarkersAppend(na, nb);
    MarkersAppend(na + nb, nc);
    MarkersAppend(na + nb + nc, nd);
  }

  /** The lines after an object's `o` line read back as its vertices, with
      line number 0. */
  lemma StdBodyVertices(faces: seq<Face>, vs: seq<Vertex3D>, ts: seq<Vertex2D>, ns: seq<Vector3D>, fmt: RealFormat, offset: int)
    requires ReadsBack(fmt)
    ensures Vertices(NumberFrom(StdBody(faces, vs, ts, ns, fmt), offset), fmt) == ResetLines(vs)
  {
    var a, b, c, d := Render(faces, FaceLine), Render(vs, VertexLineIn(fmt)), Render(ts, TextureLineIn(fmt)), Render(ns, NormalLineIn(fmt));
    var ob, oc, od := offset + |a|, offset + |a| + |b|, offset + |a| + |b| + |c|;
    FaceLinesKeyed(faces);
    NoVertices(faces, FaceLine, "f", fmt, offset);
    VertexPartReadsBack(vs, fmt, ob);
    TextureLinesKeyed(ts, fmt);
    NoVertices(ts, TextureLineIn(fmt), "vt", fmt, oc);
    NormalLinesKeyed(ns, fmt);
    NoVertices(ns, NormalLineIn(fmt), "vn", fmt, od);
    CollectInParts(a, b, c, d, offset, ob, oc, od, VertexSelect(fmt), [], ResetLines(vs), [], []);
    assert [] + ResetLines(vs) + [] + [] == ResetLines(vs);
  }

  /** The lines after an object's `o` line read back as its texture vertices. */
  lemma StdBodyTextures(faces: seq<Face>, vs: seq<Vertex3D>, ts: seq<Vertex2D>, ns: seq<Vector3D>, fmt: RealFormat, offset: int)
    requires ReadsBack(fmt)
    ensures TextureVertices(NumberFrom(StdBody(faces, vs, ts, ns, fmt), offset), fmt) == ts
  {
    var a, b, c, d := Render(faces, FaceLine), Render(vs, VertexLineIn(fmt)), Render(ts, TextureLineIn(fmt)), Render(ns, NormalLineIn(fmt));
    var ob, oc, od := offset + |a|, offset + |a| + |b|, offset + |a| + |b| + |c|;
    FaceLinesKeyed(faces);
    NoTextureVertices(faces, FaceLine, "f", fmt, offset);
    VertexLinesKeyed(vs, fmt);
    NoTextureVertices(vs, VertexLineIn(fmt), "v", fmt, ob);
    TexturePartReadsBack(ts, fmt, oc);
    NormalLinesKeyed(ns, fmt);
    NoTextureVertices(ns, NormalLineIn(fmt), "vn", fmt, od);
    CollectInParts(a, b, c, d, offset, ob, oc, od, TextureSelect(fmt), [], [], ts, []);
    assert [] + [] + ts + [] == ts;
  }

  /** The lines after an object's `o` line read back as its normals. */
  lemma StdBodyNormals(faces: seq<Face>, vs: seq<Vertex3D>, ts: seq<Vertex2D>, ns: seq<Vector3D>, fmt: RealFormat, offset: int)
    requires ReadsBack(fmt)
    ensures Normals(NumberFrom(StdBody(faces, vs, ts, ns, fmt), offset), fmt) == ns
  {
    var a, b, c, d := Render(faces, FaceLine), Render(vs, VertexLineIn(fmt)), Render(ts, TextureLineIn(fmt)), Render(ns, NormalLineIn(fmt));
    var ob, oc, od := offset + |a|, offset + |a| + |b|, offset + |a| + |b| + |c|;
    FaceLinesKeyed(faces);
    NoNormals(faces, FaceLine, "f", fmt, offset);
    VertexLinesKeyed(vs, fmt);
    NoNormals(vs, VertexLineIn(fmt), "v", fmt, ob);
    TextureLinesKeyed(ts, fmt);
    NoNormals(ts, TextureLineIn(fmt), "vt", fmt, oc);
    NormalPartReadsBack(ns, fmt, od);
    CollectInParts(a, b, c, d, offset, ob, oc, od, NormalSelect(fmt), [], [], [], ns);
    assert [] + [] + [] + ns == ns;
  }

  /** One parser pass over the lines after an object's `o` line finds the
      object's faces of its grammar, in order. */
  lemma StdBodyPass(faces: seq<Face>, vs: seq<Vertex3D>, ts: seq<Vertex2D>, ns: seq<Vector3D>, fmt: RealFormat, offset: int,
                    g: RefGrammar)
    requires ReadsBack(fmt) && forall k :: 0 <= k < |faces| ==> ParsedFace(faces[k])
    ensures FacesOfPass(NumberFrom(StdBody(faces, vs, ts, ns, fmt), offset), g) == FacesWith(faces, g)
  {
    var a, b, c, d := Render(faces, FaceLine), Render(vs, VertexLineIn(fmt)), Render(ts, TextureLineIn(fmt)), Render(ns, NormalLineIn(fmt));
    var ob, oc, od := offset + |a|, offset + |a| + |b|, offset + |a| + |b| + |c|;
    FacePartReadsBack(faces, g, offset);
    VertexLinesKeyed(vs, fmt);
    NoFaces(vs, VertexLineIn(fmt), "v", g, ob);
    TextureLinesKeyed(ts, fmt);
    NoFaces(ts, TextureLineIn(fmt), "vt", g, oc);
    NormalLinesKeyed(ns, fmt);
    NoFaces(ns, NormalLineIn(fmt), "vn", g, od);
    CollectInParts(a, b, c, d, offset, ob, oc, od, FaceSelect(g), FacesWith(faces, g), [], [], []);
    assert FacesWith(faces, g) + [] + [] + [] == FacesWith(faces, g);
  }

  /** The lines after an object's `o` line read back as its faces, regrouped
      by grammar. */
  lemma StdBodyFaces(faces: seq<Face>, vs: seq<Vertex3D>, ts: seq<Vertex2D>, ns: seq<Vector3D>, fmt: RealFormat, offset: int)
    requires ReadsBack(fmt) && forall k :: 0 <= k < |faces| ==> ParsedFace(faces[k])
    ensures Faces(NumberFrom(StdBody(faces, vs, ts, ns, fmt), offset)) == Regrouped(faces)
  {
    StdBodyPass(faces, vs, ts, ns, fmt, offset, VertexOnly);
    StdBodyPass(faces, vs, ts, ns, fmt, offset, VertexNormal);
    StdBodyPass(faces, vs, ts, ns, fmt, offset, VertexTexture);
    StdBodyPass(faces, vs, ts, ns, fmt, offset, VertexTextureNormal);
  }

  /** No line after an object's `o` line is a marker. */
  lemma StdBodyMarkers(faces: seq<Face>, vs: seq<Vertex3D>, ts: seq<Vertex2D>, ns: seq<Vector3D>, fmt: RealFormat, offset: int)
    requires ReadsBack(fmt)
    ensures ObjectMarkers(NumberFrom(StdBody(faces, vs, ts, ns, fmt), offset)) == []
  {
    var a, b, c, d := Render(faces, FaceLine), Render(vs, VertexLineIn(fmt)), Render(ts, TextureLineIn(fmt)), Render(ns, NormalLineIn(fmt));
    var ob, oc, od := offset + |a|, offset + |a| + |b|, offset + |a| + |b| + |c|;
    FaceLinesKeyed(faces);
    NoMarkers(faces, FaceLine, "f", offset);
    VertexLinesKeyed(vs, fmt);
    NoMarkers(vs, VertexLineIn(fmt), "v", ob);
    TextureLinesKeyed(ts, fmt);
    NoMarkers(ts, TextureLineIn(fmt), "vt", oc);
    NormalLinesKeyed(ns, fmt);
    NoMarkers(ns, NormalLineIn(fmt), "vn", od);
    NoMarkersInParts(a, b, c, d, offset, ob, oc, od);
  }
}
