/**
 * The directive parsers of OBJParser/Program.cs: how one line, split on single
 * spaces, becomes a vertex, a texture vertex, a normal or a face, and how an
 * object's line range becomes its four record lists. Also the `v` line members
 * of `Vertex3D` (IsStringValidOBJ, ParseOBJ, PrintOBJ).
 */
module Directives {
  import opened Wrappers
  import opened Text
  import opened Geometry

  /** A line cut on single spaces (`line.Split(" ")`). */
  type Words = seq<string>

  function LineWords(line: string): Words
  {
    Split(line, " ")
  }

  /** An entry of `numberedLines`: the words of a line and its 1-based number. */
  datatype NumberedLine = NumberedLine(lineWords: Words, lineNumber: int)

  /** An object marker: exactly two words, the first `o`; the second is the name. */
  predicate IsObjectMarker(w: Words)
  {
    |w| == 2 && w[0] == "o"
  }

  // ---------------------------------------------------------------------------
  // One line, one record
  // ---------------------------------------------------------------------------

  /** A `v` line: four words, the last three parse as doubles. */
  function VertexOf(w: Words, fmt: RealFormat): Option<Vertex3D>
  {
    if |w| == 4 && w[0] == "v" && fmt.read(w[1]).Some? && fmt.read(w[2]).Some? && fmt.read(w[3]).Some?
    then Some(Vertex3D(0, fmt.read(w[1]).value, fmt.read(w[2]).value, fmt.read(w[3]).value))
    else None
  }

  /** A `vt` line: three words, the last two parse as doubles. */
  function TextureVertexOf(w: Words, fmt: RealFormat): Option<Vertex2D>
  {
    if |w| == 3 && w[0] == "vt" && fmt.read(w[1]).Some? && fmt.read(w[2]).Some?
    then Some(Vertex2D(fmt.read(w[1]).value, fmt.read(w[2]).value))
    else None
  }

  /** A `vn` line: four words, the last three parse as doubles. */
  function NormalOf(w: Words, fmt: RealFormat): Option<Vector3D>
  {
    if |w| == 4 && w[0] == "vn" && fmt.read(w[1]).Some? && fmt.read(w[2]).Some? && fmt.read(w[3]).Some?
    then Some(Vector3D(fmt.read(w[1]).value, fmt.read(w[2]).value, fmt.read(w[3]).value))
    else None
  }

  /** Every token read with one grammar: Some exactly when each token is
      accepted, and then one reference per token, in token order. */
  function ParseRefs(g: RefGrammar, tokens: seq<string>): (r: Option<Face>)
    ensures r.Some? <==> forall k :: 0 <= k < |tokens| ==> ParseRef(g, tokens[k]).Some?
    ensures r.Some? ==> (|r.value| == |tokens| &&
      forall k :: 0 <= k < |tokens| ==> ParseRef(g, tokens[k]) == Some(r.value[k]))
  {
    if tokens == [] then Some([])
    else
      var init := ParseRefs(g, tokens[..|tokens| - 1]);
      var last := ParseRef(g, tokens[|tokens| - 1]);
      if init.Some? && last.Some? then Some(init.value + [last.value]) else None
  }

  /** An `f` line read by the pass of grammar `g`: at least four words, the
      first `f`, and every reference token accepted by `g`. The face has one
      reference per token, each of grammar `g`. */
  function FaceOf(g: RefGrammar, w: Words): (r: Option<Face>)
    ensures r.Some? <==> |w| >= 4 && w[0] == "f" && forall k :: 1 <= k < |w| ==> ParseRef(g, w[k]).Some?
    ensures r.Some? ==> |w| >= 4 && w[0] == "f" && |r.value| == |w| - 1 >= 3
    ensures r.Some? ==> forall k :: 0 <= k < |r.value| ==>
      GrammarOf(r.value[k]) == g && WellFormedRef(r.value[k]) && ParseRef(g, w[k + 1]) == Some(r.value[k])
  {
    if |w| >= 4 && w[0] == "f" then
      assert forall k :: 1 <= k < |w| ==> w[1..][k - 1] == w[k];
      ParseRefs(g, w[1..])
    else None
  }

  /** An `f` line is read by at most one of the four passes. */
  lemma FaceLineGrammarsDisjoint(w: Words, g1: RefGrammar, g2: RefGrammar)
    requires FaceOf(g1, w).Some? && FaceOf(g2, w).Some?
    ensures g1 == g2
  {
    assert ParseRef(g1, w[1]).Some? && ParseRef(g2, w[1]).Some?;
    RefGrammarsDisjoint(w[1], g1, g2);
  }

  // ---------------------------------------------------------------------------
  // A line range, four record lists
  // ---------------------------------------------------------------------------

  /** `from entry in range where <select accepts> select <record>`: the records
      of the accepted lines, in line order. */
  function Collect<T>(lines: seq<NumberedLine>, select: Words -> Option<T>): seq<T>
  {
    if lines == [] then []
    else Collect(lines[..|lines| - 1], select) + Emit(select(lines[|lines| - 1].lineWords))
  }

  /** The record of one accepted line, or nothing. */
  function Emit<T>(r: Option<T>): seq<T>
  {
    match r
    case Some(t) => [t]
    case None => []
  }

  /** Collecting distributes over concatenation of line ranges, so records keep
      the order of their lines. */
  lemma {:induction false} CollectAppend<T>(a: seq<NumberedLine>, b: seq<NumberedLine>, select: Words -> Option<T>)
    ensures Collect(a + b, select) == Collect(a, select) + Collect(b, select)
    decreases |b|
  {
    if b == [] {
      assert a + b == a;
    } else {
      var b' := b[..|b| - 1];
      assert (a + b)[..|a + b| - 1] == a + b';
      assert (a + b)[|a + b| - 1] == b[|b| - 1];
      CollectAppend(a, b', select);
    }
  }

  /** Collecting one line: its record, or nothing. */
  lemma CollectOne<T>(line: NumberedLine, select: Words -> Option<T>)
    ensures Collect([line], select) == Emit(select(line.lineWords))
  {
    assert [line][..0] == [];
  }

  /** The `where`/`select` pair of each query, as a function of a line's words. */
  function VertexSelect(fmt: RealFormat): Words -> Option<Vertex3D>
  {
    (w: Words) => VertexOf(w, fmt)
  }

  function TextureSelect(fmt: RealFormat): Words -> Option<Vertex2D>
  {
    (w: Words) => TextureVertexOf(w, fmt)
  }

  function NormalSelect(fmt: RealFormat): Words -> Option<Vector3D>
  {
    (w: Words) => NormalOf(w, fmt)
  }

  function FaceSelect(g: RefGrammar): Words -> Option<Face>
  {
    (w: Words) => FaceOf(g, w)
  }

  function Vertices(lines: seq<NumberedLine>, fmt: RealFormat): seq<Vertex3D>
  {
    Collect(lines, VertexSelect(fmt))
  }

  function TextureVertices(lines: seq<NumberedLine>, fmt: RealFormat): seq<Vertex2D>
  {
    Collect(lines, TextureSelect(fmt))
  }

  function Normals(lines: seq<NumberedLine>, fmt: RealFormat): seq<Vector3D>
  {
    Collect(lines, NormalSelect(fmt))
  }

  /** The faces one pass reads from a line range. */
  function FacesOfPass(lines: seq<NumberedLine>, g: RefGrammar): seq<Face>
  {
    Collect(lines, FaceSelect(g))
  }

  /** The four passes over the same line range, concatenated. */
  function Faces(lines: seq<NumberedLine>): seq<Face>
  {
    FacesOfPass(lines, VertexOnly) + FacesOfPass(lines, VertexNormal) +
    FacesOfPass(lines, VertexTexture) + FacesOfPass(lines, VertexTextureNormal)
  }

  /** Every face a pass reads has at least three references, all of that
      pass's grammar and well formed. */
  predicate IsFaceOf(face: Face, g: RefGrammar)
  {
    |face| >= 3 && forall k :: 0 <= k < |face| ==> GrammarOf(face[k]) == g && WellFormedRef(face[k])
  }

  lemma {:induction false} FacesOfPassShape(lines: seq<NumberedLine>, g: RefGrammar)
    ensures forall k :: 0 <= k < |FacesOfPass(lines, g)| ==> IsFaceOf(FacesOfPass(lines, g)[k], g)
    decreases |lines|
  {
    if lines != [] {
      var init := lines[..|lines| - 1];
      FacesOfPassShape(init, g);
      var last := FaceOf(g, lines[|lines| - 1].lineWords);
      assert FacesOfPass(lines, g) == FacesOfPass(init, g) + Emit(last);
      if last.Some? {
        assert IsFaceOf(last.value, g);
      }
    }
  }

  /** The grammar of a face: that of its first reference. */
  function FaceGrammar(face: Face): RefGrammar
    requires |face| > 0
  {
    GrammarOf(face[0])
  }

  /** Four lists of faces, the k-th all of pass k, put end to end are ordered
      by pass. */
  lemma {:induction false} PassesConcatenated(a0: seq<Face>, a1: seq<Face>, a2: seq<Face>, a3: seq<Face>)
    requires forall k :: 0 <= k < |a0| ==> IsFaceOf(a0[k], VertexOnly)
    requires forall k :: 0 <= k < |a1| ==> IsFaceOf(a1[k], VertexNormal)
    requires forall k :: 0 <= k < |a2| ==> IsFaceOf(a2[k], VertexTexture)
    requires forall k :: 0 <= k < |a3| ==> IsFaceOf(a3[k], VertexTextureNormal)
    ensures var all := a0 + a1 + a2 + a3;
      (forall k :: 0 <= k < |all| ==> |all[k]| >= 3) &&
      forall i, j :: 0 <= i < j < |all| ==> PassRank(FaceGrammar(all[i])) <= PassRank(FaceGrammar(all[j]))
  {
    var all := a0 + a1 + a2 + a3;
    var b1, b2, b3 := |a0|, |a0| + |a1|, |a0| + |a1| + |a2|;
    forall k | 0 <= k < |all|
      ensures |all[k]| >= 3
      ensures PassRank(FaceGrammar(all[k])) == if k < b1 then 0 else if k < b2 then 1 else if k < b3 then 2 else 3
    {
      if k < b1 {
        assert all[k] == a0[k];
      } else if k < b2 {
        assert all[k] == a1[k - b1];
      } else if k < b3 {
        assert all[k] == a2[k - b2];
      } else {
        assert all[k] == a3[k - b3];
      }
    }
  }

  /** Faces come grouped by grammar, not in file order: every `i` face, then
      every `i//n` face, then every `i/t` face, then every `i/t/n` face. */
  lemma FacesGroupedByGrammar(lines: seq<NumberedLine>)
    ensures forall k :: 0 <= k < |Faces(lines)| ==> |Faces(lines)[k]| >= 3
    ensures forall i, j :: 0 <= i < j < |Faces(lines)| ==>
      PassRank(FaceGrammar(Faces(lines)[i])) <= PassRank(FaceGrammar(Faces(lines)[j]))
  {
    FacesOfPassShape(lines, VertexOnly);
    FacesOfPassShape(lines, VertexNormal);
    FacesOfPassShape(lines, VertexTexture);
    FacesOfPassShape(lines, VertexTextureNormal);
    PassesConcatenated(FacesOfPass(lines, VertexOnly), FacesOfPass(lines, VertexNormal),
                       FacesOfPass(lines, VertexTexture), FacesOfPass(lines, VertexTextureNormal));
  }

  // ---------------------------------------------------------------------------
  // The `v` line members of Vertex3D
  // ---------------------------------------------------------------------------

  /** `Vertex3D.IsStringValidOBJ`: the loop that folds `double.TryParse` over
      the words after the first decides exactly the vertex filter of `Main`. */
  method IsStringValidOBJ(line: string, fmt: RealFormat) returns (isValid: bool)
    ensures isValid <==> VertexOf(LineWords(line), fmt).Some?
  {
    var lineContents := LineWords(line);
    isValid := lineContents[0] == "v" && |lineContents| == 4;
    for k := 1 to |lineContents|
      invariant isValid <==> (lineContents[0] == "v" && |lineContents| == 4 &&
        forall j :: 1 <= j < k ==> fmt.read(lineContents[j]).Some?)
    {
      isValid := isValid && fmt.read(lineContents[k]).Some?;
    }
  }

  /** How `Vertex3D.ParseOBJ` can throw: a missing word (index out of range) or
      a word `double.Parse` rejects. */
  datatype ParseFailure = IndexOutOfRange | FormatError

  /** A `Vertex3D` object, whose coordinate fields `ParseOBJ` overwrites in
      place. */
  class VertexCell {
    var lineNumber: int
    var x: Coord
    var y: Coord
    var z: Coord

    constructor (v: Vertex3D)
      ensures Value() == v
    {
      lineNumber, x, y, z := v.lineNumber, v.x, v.y, v.z;
    }

    /** The vertex the fields hold. */
    function Value(): Vertex3D
      reads this
    {
      Vertex3D(lineNumber, x, y, z)
    }

    /** `Vertex3D.ParseOBJ`: words 1, 2 and 3 are parsed into x, y and z in
        that order, each field assigned as soon as its word parses, so a throw
        at a later word leaves the earlier fields updated. It throws
        index-out-of-range at the first missing word and a format error at the
        first word that does not parse; the key word and the word count are
        not checked, and the line number is kept. On every line the vertex
        filter of `Main` accepts, it reads the same coordinates. */
    method ParseOBJ(line: string, fmt: RealFormat) returns (r: Result<(), ParseFailure>)
      modifies this
      ensures var w := LineWords(line);
        r.Success? <==> (|w| >= 4 && forall k :: 1 <= k < 4 ==> fmt.read(w[k]).Some?)
      ensures var w := LineWords(line);
        r == Failure(IndexOutOfRange) <==>
          (|w| < 4 && forall j :: 1 <= j < |w| ==> fmt.read(w[j]).Some?)
      ensures var w := LineWords(line);
        lineNumber == old(lineNumber) &&
        x == (if |w| >= 2 && fmt.read(w[1]).Some? then fmt.read(w[1]).value else old(x)) &&
        y == (if |w| >= 3 && fmt.read(w[1]).Some? && fmt.read(w[2]).Some?
              then fmt.read(w[2]).value else old(y)) &&
        z == (if r.Success? then fmt.read(w[3]).value else old(z))
      ensures var w := LineWords(line);
        VertexOf(w, fmt).Some? ==> r.Success? && Value() == VertexOf(w, fmt).value.(lineNumber := old(lineNumber))
    {
      var w := LineWords(line);
      if |w| < 2 {
        return Failure(IndexOutOfRange);
      }
      match fmt.read(w[1]) {
        case None => return Failure(FormatError);
        case Some(c) => x := c;
      }
      if |w| < 3 {
        return Failure(IndexOutOfRange);
      }
      match fmt.read(w[2]) {
        case None => return Failure(FormatError);
        case Some(c) => y := c;
      }
      if |w| < 4 {
        return Failure(IndexOutOfRange);
      }
      match fmt.read(w[3]) {
        case None => return Failure(FormatError);
        case Some(c) => z := c;
      }
      return Success(());
    }
  }

  /** `Vertex3D.PrintOBJ` as written: every coordinate is followed by a space,
      the last one included. */
  function PrintOBJ(v: Vertex3D, fmt: RealFormat): string
  {
    "v " + fmt.show(v.x) + " " + fmt.show(v.y) + " " + fmt.show(v.z) + " "
  }

  /** The `v` line as intended, with no trailing space; it is also the form the
      plain writer prints (`v {0} {1} {2}`). */
  function VertexLine(v: Vertex3D, fmt: RealFormat): string
  {
    "v " + fmt.show(v.x) + " " + fmt.show(v.y) + " " + fmt.show(v.z)
  }

  /** A key and a space in front of a line add the key as its first word. */
  lemma KeyFirst(key: string, rest: string)
    requires ' ' !in key
    ensures LineWords(key + " " + rest) == [key] + LineWords(rest)
  {
    SplitAtFirst(key, " ", rest);
  }

  /** The two words of a key and a word without spaces. */
  lemma WordsOfTwo(a: string, b: string)
    requires ' ' !in a && ' ' !in b
    ensures LineWords(a + " " + b) == [a, b]
  {
    KeyFirst(a, b);
    SplitWithoutSeparator(b, " ");
  }

  /** The three words of a `vt` or similar line with two numbers. */
  lemma WordsOfThree(a: string, b: string, c: string)
    requires ' ' !in a && ' ' !in b && ' ' !in c
    ensures LineWords(a + " " + b + " " + c) == [a, b, c]
  {
    WordsOfTwo(b, c);
    assert a + " " + b + " " + c == a + " " + (b + " " + c);
    KeyFirst(a, b + " " + c);
  }

  /** The four words of a `v`, `vn` or similar line with three numbers. */
  lemma WordsOfFour(a: string, b: string, c: string, d: string)
    requires ' ' !in a && ' ' !in b && ' ' !in c && ' ' !in d
    ensures LineWords(a + " " + b + " " + c + " " + d) == [a, b, c, d]
  {
    JoinCons(c, [d], " ");
    JoinCons(b, [c, d], " ");
    JoinCons(a, [b, c, d], " ");
    assert [a] + [b, c, d] == [a, b, c, d];
    assert a + " " + b + " " + c + " " + d == a + " " + (b + " " + (c + " " + d));
    SplitJoin([a, b, c, d], " ");
  }

  /** Finding: what PrintOBJ writes has five words, the last one empty, so
      IsStringValidOBJ (through the filter it decides) rejects it. */
  lemma PrintOBJRejected(v: Vertex3D, fmt: RealFormat)
    requires ReadsBack(fmt)
    ensures LineWords(PrintOBJ(v, fmt)) == ["v", fmt.show(v.x), fmt.show(v.y), fmt.show(v.z), ""]
    ensures VertexOf(LineWords(PrintOBJ(v, fmt)), fmt).None?
  {
    var x, y, z := fmt.show(v.x), fmt.show(v.y), fmt.show(v.z);
    JoinCons(z, [""], " ");
    JoinCons(y, [z, ""], " ");
    JoinCons(x, [y, z, ""], " ");
    JoinCons("v", [x, y, z, ""], " ");
    assert [z] + [""] == [z, ""];
    assert [y] + [z, ""] == [y, z, ""];
    assert [x] + [y, z, ""] == [x, y, z, ""];
    assert ["v"] + [x, y, z, ""] == ["v", x, y, z, ""];
    assert PrintOBJ(v, fmt) == "v" + " " + (x + " " + (y + " " + (z + " " + "")));
    SplitJoin(["v", x, y, z, ""], " ");
  }

  /** The corrected line reads back as the same vertex (line number 0, as the
      parser numbers every vertex). */
  lemma VertexLineReadsBack(v: Vertex3D, fmt: RealFormat)
    requires ReadsBack(fmt)
    ensures LineWords(VertexLine(v, fmt)) == ["v", fmt.show(v.x), fmt.show(v.y), fmt.show(v.z)]
    ensures VertexOf(LineWords(VertexLine(v, fmt)), fmt) == Some(v.(lineNumber := 0))
  {
    WordsOfFour("v", fmt.show(v.x), fmt.show(v.y), fmt.show(v.z));
    assert "v " == "v" + " ";
    var w := LineWords(VertexLine(v, fmt));
    assert w == ["v", fmt.show(v.x), fmt.show(v.y), fmt.show(v.z)];
    assert fmt.read(fmt.show(v.x)) == Some(v.x);
    assert fmt.read(fmt.show(v.y)) == Some(v.y);
    assert fmt.read(fmt.show(v.z)) == Some(v.z);
  }
}
