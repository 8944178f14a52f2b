/**
 * The geometry records of the OBJ parser (OBJParser/Program.cs), and the
 * face-vertex reference: its four textual grammars and its printed form.
 */
module Geometry {
  import opened Wrappers
  import opened Text

  /** A coordinate, a `double` in the program. Nothing here does arithmetic on
      coordinates: they are only parsed, compared for equality and printed. */
  type Coord(==, !new)

  /** The culture-dependent text format of doubles: `read` is `double.TryParse`
      together with `double.Parse` (None when TryParse fails), `show` is the
      `{0}` formatting of a double. */
  datatype RealFormat = RealFormat(read: string -> Option<Coord>, show: Coord -> string)

  /** A format whose printed numbers parse back to themselves and contain none
      of the separators the writers put between them: no space, and no line
      break. */
  ghost predicate ReadsBack(fmt: RealFormat)
  {
    forall c :: fmt.read(fmt.show(c)) == Some(c) && ' ' !in fmt.show(c) && NoLineBreak(fmt.show(c))
  }

  /** `Vertex3D`: a vertex, with the source line it was read from (always 0 as
      built by the parser). */
  datatype Vertex3D = Vertex3D(lineNumber: int, x: Coord, y: Coord, z: Coord)

  /** `Vertex2D`: a texture vertex. */
  datatype Vertex2D = Vertex2D(x: Coord, y: Coord)

  /** `Vector3D`: a normal. */
  datatype Vector3D = Vector3D(x: Coord, y: Coord, z: Coord)

  /** `FaceVertex`: one reference of a face, with presence flags for the
      texture vertex and the normal. Indices are as written, never checked. */
  datatype FaceVertex = FaceVertex(
    vertexIndex: int,
    hasTextureVertex: bool,
    textureVertex: int,
    hasNormal: bool,
    normalIndex: int)

  type Face = seq<FaceVertex>

  /** `OBJObject`: a named object with its 1-based number, the bounds of its
      line range and the four record lists parsed from that range. */
  datatype OBJObject = OBJObject(
    index: int,
    position: int,
    lastPosition: int,
    name: string,
    vertices: seq<Vertex3D>,
    textureVertices: seq<Vertex2D>,
    normals: seq<Vector3D>,
    faces: seq<Face>)

  // ---------------------------------------------------------------------------
  // The FaceVertex constructors
  // ---------------------------------------------------------------------------

  /** `new FaceVertex(i)`. */
  function VertexOnlyRef(i: int): FaceVertex
  {
    FaceVertex(i, false, 0, false, 0)
  }

  /** `new FaceVertex(i, n)`: a vertex and a normal. */
  function VertexNormalRef(i: int, n: int): FaceVertex
  {
    FaceVertex(i, false, 0, true, n)
  }

  /** `new FaceVertex(i, t, n)`: a vertex, a texture vertex and a normal. */
  function VertexTextureNormalRef(i: int, t: int, n: int): FaceVertex
  {
    FaceVertex(i, true, t, true, n)
  }

  /** Every constructor stores 0 in the index whose flag it clears. */
  predicate WellFormedRef(r: FaceVertex)
  {
    (!r.hasTextureVertex ==> r.textureVertex == 0) && (!r.hasNormal ==> r.normalIndex == 0)
  }

  /** Each constructor sets the presence flags of its grammar, keeps the
      indices it is given, and leaves 0 in the index whose flag it clears;
      the five-argument form as the `i/t` pass calls it has a texture vertex
      and no normal. */
  lemma ConstructorFlags(i: int, t: int, n: int)
    ensures var r := VertexOnlyRef(i);
      GrammarOf(r) == VertexOnly && WellFormedRef(r) && r.vertexIndex == i
    ensures var r := VertexNormalRef(i, n);
      GrammarOf(r) == VertexNormal && WellFormedRef(r) && r.vertexIndex == i && r.normalIndex == n
    ensures var r := FaceVertex(i, true, t, false, 0);
      GrammarOf(r) == VertexTexture && WellFormedRef(r) && r.vertexIndex == i && r.textureVertex == t
    ensures var r := VertexTextureNormalRef(i, t, n);
      GrammarOf(r) == VertexTextureNormal && WellFormedRef(r) &&
      r.vertexIndex == i && r.textureVertex == t && r.normalIndex == n
  {
  }

  // ---------------------------------------------------------------------------
  // The four reference grammars
  // ---------------------------------------------------------------------------

  /** The four grammars of a face reference, in the order of the parser's
      passes: `i`, `i//n`, `i/t`, `i/t/n`. */
  datatype RefGrammar = VertexOnly | VertexNormal | VertexTexture | VertexTextureNormal

  /** The pass number of a grammar (0 to 3). */
  function PassRank(g: RefGrammar): nat
  {
    match g
    case VertexOnly => 0
    case VertexNormal => 1
    case VertexTexture => 2
    case VertexTextureNormal => 3
  }

  /** The grammar a reference belongs to, read off its presence flags. */
  function GrammarOf(r: FaceVertex): RefGrammar
  {
    if r.hasTextureVertex && r.hasNormal then VertexTextureNormal
    else if r.hasTextureVertex then VertexTexture
    else if r.hasNormal then VertexNormal
    else VertexOnly
  }

  /** One reference token read with one grammar: `int.TryParse` of the whole
      token, of the two halves around `//`, of the two halves around `/`, or of
      the three fields around `/`. The reference built carries exactly the
      flags of that grammar. */
  function ParseRef(g: RefGrammar, token: string): (r: Option<FaceVertex>)
    ensures r.Some? ==> GrammarOf(r.value) == g && WellFormedRef(r.value)
    ensures r.Some? && g == VertexOnly ==> Some(r.value.vertexIndex) == ParseInt(token)
  {
    match g
    case VertexOnly =>
      (match ParseInt(token)
       case Some(i) => Some(VertexOnlyRef(i))
       case None => None)
    case VertexNormal =>
      var p := Split(token, "//");
      if |p| == 2 && ParseInt(p[0]).Some? && ParseInt(p[1]).Some?
      then Some(VertexNormalRef(ParseInt(p[0]).value, ParseInt(p[1]).value))
      else None
    case VertexTexture =>
      var p := Split(token, "/");
      if |p| == 2 && ParseInt(p[0]).Some? && ParseInt(p[1]).Some?
      then Some(FaceVertex(ParseInt(p[0]).value, true, ParseInt(p[1]).value, false, 0))
      else None
    case VertexTextureNormal =>
      var p := Split(token, "/");
      if |p| == 3 && ParseInt(p[0]).Some? && ParseInt(p[1]).Some? && ParseInt(p[2]).Some?
      then Some(VertexTextureNormalRef(ParseInt(p[0]).value, ParseInt(p[1]).value, ParseInt(p[2]).value))
      else None
  }

  /** Two pieces around a separator put back together. */
  lemma TwoPieces(token: string, sep: string)
    requires |sep| > 0 && |Split(token, sep)| == 2
    ensures token == Split(token, sep)[0] + sep + Split(token, sep)[1]
  {
    var p := Split(token, sep);
    JoinSplit(token, sep);
    assert p[1..] == [p[1]];
  }

  /** A token the `//` grammar accepts splits on `/` into three fields, the
      middle one empty. */
  lemma DoubleSlashFields(token: string)
    requires var p := Split(token, "//"); |p| == 2 && IsIntToken(p[0]) && IsIntToken(p[1])
    ensures '/' in token
    ensures var p := Split(token, "//"); Split(token, "/") == [p[0], "", p[1]]
  {
    var p := Split(token, "//");
    SplitPiecesNeedSeparator(token, "//");
    TwoPieces(token, "//");
    IntTokenHasNoSeparator(p[0]);
    IntTokenHasNoSeparator(p[1]);
    SlashFields(p[0], p[1]);
  }

  /** Two slash-free fields around `//` are three fields around `/`, the
      middle one empty. */
  lemma SlashFields(a: string, b: string)
    requires '/' !in a && '/' !in b
    ensures Split(a + "//" + b, "/") == [a, "", b]
  {
    var tail := "/" + b;
    assert a + "//" + b == a + "/" + tail;
    SplitAtFirst(a, "/", tail);
    assert tail == "" + "/" + b;
    SplitAtFirst("", "/", b);
    SplitWithoutSeparator(b, "/");
  }

  /** A reference token is accepted by at most one grammar: the grammars are
      told apart by the number of `/` and by the empty middle field of `//`. */
  lemma RefGrammarsDisjoint(token: string, g1: RefGrammar, g2: RefGrammar)
    requires ParseRef(g1, token).Some? && ParseRef(g2, token).Some?
    ensures g1 == g2
  {
    if g1 != g2 {
      if VertexOnly in {g1, g2} {
        // a bare integer holds no '/', so no other grammar cuts it
        IntTokenHasNoSeparator(token);
        SplitWithoutSeparator(token, "/");
        SplitWithoutSeparator(token, "//");
      } else if VertexNormal in {g1, g2} {
        DoubleSlashFields(token);
      }
    }
  }

  /** `{0}` of the vertex index, then `/`, the texture index and `/` and the
      normal index as the flags say: the form all three writers print. */
  function RefToken(e: FaceVertex): string
  {
    IntToString(e.vertexIndex) +
    (if e.hasTextureVertex || e.hasNormal then
       "/" + (if e.hasTextureVertex then IntToString(e.textureVertex) else "") +
       (if e.hasNormal then "/" + IntToString(e.normalIndex) else "")
     else "")
  }

  /** A printed reference holds no space, no comma and no line break, so it
      stays one token of an `f` line and one entry of a YAML list. */
  lemma RefTokenHasNoSeparator(e: FaceVertex)
    ensures ' ' !in RefToken(e) && ',' !in RefToken(e)
    ensures NoLineBreak(RefToken(e))
  {
    ParseIntOfIntToString(e.vertexIndex);
    ParseIntOfIntToString(e.textureVertex);
    ParseIntOfIntToString(e.normalIndex);
    IntTokenHasNoSeparator(IntToString(e.vertexIndex));
    IntTokenHasNoSeparator(IntToString(e.textureVertex));
    IntTokenHasNoSeparator(IntToString(e.normalIndex));
  }

  /** The grammar a well-formed reference's flags name reads its printed token
      back as that same reference. */
  lemma RefTokenReadsBack(e: FaceVertex)
    requires WellFormedRef(e)
    ensures ParseRef(GrammarOf(e), RefToken(e)) == Some(e)
  {
    ParseIntOfIntToString(e.vertexIndex);
    match GrammarOf(e) {
      case VertexOnly =>
        assert RefToken(e) == IntToString(e.vertexIndex);
      case VertexNormal => VertexNormalReadsBack(e);
      case VertexTexture => VertexTextureReadsBack(e);
      case VertexTextureNormal => VertexTextureNormalReadsBack(e);
    }
  }

  /** `v//vn`: the `//` grammar reads the printed token back. */
  lemma VertexNormalReadsBack(e: FaceVertex)
    requires WellFormedRef(e) && GrammarOf(e) == VertexNormal
    ensures ParseRef(VertexNormal, RefToken(e)) == Some(e)
  {
    var a, n := IntToString(e.vertexIndex), IntToString(e.normalIndex);
    ParseIntOfIntToString(e.vertexIndex);
    ParseIntOfIntToString(e.normalIndex);
    IntTokenHasNoSeparator(a);
    IntTokenHasNoSeparator(n);
    assert RefToken(e) == a + "//" + n;
    SplitAtFirst(a, "//", n);
    SplitWithoutSeparator(n, "//");
    assert Split(RefToken(e), "//") == [a, n];
  }

  /** `v/vt`: the one-slash grammar reads the printed token back. */
  lemma VertexTextureReadsBack(e: FaceVertex)
    requires WellFormedRef(e) && GrammarOf(e) == VertexTexture
    ensures ParseRef(VertexTexture, RefToken(e)) == Some(e)
  {
    var a, t := IntToString(e.vertexIndex), IntToString(e.textureVertex);
    ParseIntOfIntToString(e.vertexIndex);
    ParseIntOfIntToString(e.textureVertex);
    IntTokenHasNoSeparator(a);
    IntTokenHasNoSeparator(t);
    assert RefToken(e) == a + "/" + t;
    SplitAtFirst(a, "/", t);
    SplitWithoutSeparator(t, "/");
    assert Split(RefToken(e), "/") == [a, t];
  }

  /** `v/vt/vn`: the two-slash grammar reads the printed token back. */
  lemma VertexTextureNormalReadsBack(e: FaceVertex)
    requires WellFormedRef(e) && GrammarOf(e) == VertexTextureNormal
    ensures ParseRef(VertexTextureNormal, RefToken(e)) == Some(e)
  {
    var a, t, n := IntToString(e.vertexIndex), IntToString(e.textureVertex), IntToString(e.normalIndex);
    ParseIntOfIntToString(e.vertexIndex);
    ParseIntOfIntToString(e.textureVertex);
    ParseIntOfIntToString(e.normalIndex);
    IntTokenHasNoSeparator(a);
    IntTokenHasNoSeparator(t);
    IntTokenHasNoSeparator(n);
    assert RefToken(e) == a + "/" + (t + "/" + n);
    SplitAtFirst(a, "/", t + "/" + n);
    SplitAtFirst(t, "/", n);
    SplitWithoutSeparator(n, "/");
    assert Split(RefToken(e), "/") == [a, t, n];
  }

  /** Printing a reference and reading the token back with the four grammars
      gives the same reference from the grammar its flags name, and nothing
      from the other three. */
  lemma RefTokenRoundTrip(e: FaceVertex)
    requires WellFormedRef(e)
    ensures forall g :: ParseRef(g, RefToken(e)) == if g == GrammarOf(e) then Some(e) else None
  {
    var token := RefToken(e);
    RefTokenReadsBack(e);
    forall g | g != GrammarOf(e)
      ensures ParseRef(g, token) == None
    {
      if ParseRef(g, token).Some? {
        RefGrammarsDisjoint(token, g, GrammarOf(e));
      }
    }
  }
}
