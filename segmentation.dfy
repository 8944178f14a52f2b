/**
 * Object segmentation, the first half of `Main` in OBJParser/Program.cs:
 * number the lines, find the `o` markers, pair each object with the next one
 * by a self-join to find where its line range ends, cut the range out with
 * `List.GetRange` and run the directive parsers over it.
 */
module Segmentation {
  import opened Wrappers
  import opened Text
  import opened Geometry
  import opened Directives

  // ---------------------------------------------------------------------------
  // Numbering and markers
  // ---------------------------------------------------------------------------

  /** `lines.Zip(Enumerable.Range(offset + 1, ...))`: each line's words with its
      number, counting from `offset + 1`. */
  function NumberFrom(lines: seq<string>, offset: int): seq<NumberedLine>
  {
    seq(|lines|, k requires 0 <= k < |lines| => NumberedLine(LineWords(lines[k]), offset + k + 1))
  }

  /** `numberedLines`: lines numbered from 1. */
  function NumberLines(lines: seq<string>): seq<NumberedLine>
  {
    NumberFrom(lines, 0)
  }

  /** An `o` line: its number and the name it gives. */
  datatype Marker = Marker(lineNumber: int, name: string)

  /** `objects`: the marker lines, in line order. */
  function ObjectMarkers(numbered: seq<NumberedLine>): seq<Marker>
  {
    if numbered == [] then []
    else
      var last := numbered[|numbered| - 1];
      ObjectMarkers(numbered[..|numbered| - 1]) +
      if IsObjectMarker(last.lineWords) then [Marker(last.lineNumber, last.lineWords[1])] else []
  }

  /** The markers of a whole file. */
  function Markers(lines: seq<string>): seq<Marker>
  {
    ObjectMarkers(NumberLines(lines))
  }

  /** `m` names an `o` line of `lines`, numbered from `offset + 1`. */
  predicate MarkerAt(lines: seq<string>, offset: int, m: Marker)
  {
    offset + 1 <= m.lineNumber <= offset + |lines| &&
    IsObjectMarker(LineWords(lines[m.lineNumber - offset - 1])) &&
    m.name == LineWords(lines[m.lineNumber - offset - 1])[1]
  }

  /** Marker line numbers strictly increase. */
  predicate StrictlyIncreasing(ms: seq<Marker>)
  {
    forall i, j :: 0 <= i < j < |ms| ==> ms[i].lineNumber < ms[j].lineNumber
  }

  /** The markers of a file are those of all but its last line, then the
      last line's if it is an `o` line. */
  lemma MarkersLast(lines: seq<string>, offset: int)
    requires lines != []
    ensures var init, w := lines[..|lines| - 1], LineWords(lines[|lines| - 1]);
      ObjectMarkers(NumberFrom(lines, offset)) ==
        ObjectMarkers(NumberFrom(init, offset)) + if IsObjectMarker(w) then [Marker(offset + |lines|, w[1])] else []
  {
    var nl := NumberFrom(lines, offset);
    assert nl[..|lines| - 1] == NumberFrom(lines[..|lines| - 1], offset);
  }

  /** Every marker is an `o` line within the file. */
  lemma {:induction false} MarkersAreObjectLines(lines: seq<string>, offset: int)
    ensures forall m :: m in ObjectMarkers(NumberFrom(lines, offset)) ==> MarkerAt(lines, offset, m)
    decreases |lines|
  {
    if lines != [] {
      var init := lines[..|lines| - 1];
      MarkersAreObjectLines(init, offset);
      MarkersLast(lines, offset);
      forall m | m in ObjectMarkers(NumberFrom(lines, offset))
        ensures MarkerAt(lines, offset, m)
      {
        if m in ObjectMarkers(NumberFrom(init, offset)) {
          assert MarkerAt(init, offset, m);
          assert lines[m.lineNumber - offset - 1] == init[m.lineNumber - offset - 1];
        }
      }
    }
  }

  /** Marker line numbers strictly increase. */
  lemma {:induction false} MarkersIncrease(lines: seq<string>, offset: int)
    ensures StrictlyIncreasing(ObjectMarkers(NumberFrom(lines, offset)))
    decreases |lines|
  {
    if lines != [] {
      var init := lines[..|lines| - 1];
      MarkersIncrease(init, offset);
      MarkersAreObjectLines(init, offset);
      MarkersLast(lines, offset);
      var ms, msInit := ObjectMarkers(NumberFrom(lines, offset)), ObjectMarkers(NumberFrom(init, offset));
      forall i, j | 0 <= i < j < |ms|
        ensures ms[i].lineNumber < ms[j].lineNumber
      {
        if j < |msInit| {
          assert ms[i] == msInit[i] && ms[j] == msInit[j];
        } else {
          assert ms[i] == msInit[i];
          assert ms[i] in msInit;
          assert MarkerAt(init, offset, ms[i]);
        }
      }
    }
  }

  /** No `o` line of the file is missed. */
  lemma {:induction false} MarkersComplete(lines: seq<string>, offset: int)
    ensures forall j :: 0 <= j < |lines| && IsObjectMarker(LineWords(lines[j])) ==>
      Marker(offset + j + 1, LineWords(lines[j])[1]) in ObjectMarkers(NumberFrom(lines, offset))
    decreases |lines|
  {
    if lines != [] {
      var init := lines[..|lines| - 1];
      MarkersComplete(init, offset);
      MarkersLast(lines, offset);
      var ms, msInit := ObjectMarkers(NumberFrom(lines, offset)), ObjectMarkers(NumberFrom(init, offset));
      forall j | 0 <= j < |lines| && IsObjectMarker(LineWords(lines[j]))
        ensures Marker(offset + j + 1, LineWords(lines[j])[1]) in ms
      {
        if j < |lines| - 1 {
          assert lines[j] == init[j];
          assert Marker(offset + j + 1, LineWords(lines[j])[1]) in msInit;
        } else {
          assert ms[|ms| - 1] == Marker(offset + j + 1, LineWords(lines[j])[1]);
        }
      }
    }
  }

  /** Markers list exactly the `o` lines of the file, in file order: every
      marker is an `o` line within the file, their numbers strictly increase,
      and no `o` line is missed. */
  lemma MarkersInFileOrder(lines: seq<string>, offset: int)
    ensures forall m :: m in ObjectMarkers(NumberFrom(lines, offset)) ==> MarkerAt(lines, offset, m)
    ensures StrictlyIncreasing(ObjectMarkers(NumberFrom(lines, offset)))
    ensures forall j :: 0 <= j < |lines| && IsObjectMarker(LineWords(lines[j])) ==>
      Marker(offset + j + 1, LineWords(lines[j])[1]) in ObjectMarkers(NumberFrom(lines, offset))
  {
    MarkersAreObjectLines(lines, offset);
    MarkersIncrease(lines, offset);
    MarkersComplete(lines, offset);
  }

  // ---------------------------------------------------------------------------
  // Numbering the objects and the self-join
  // ---------------------------------------------------------------------------

  /** `numberedObjects`: a marker with its 1-based object number `i`. */
  datatype NumberedObject = NumberedObject(name: string, lineNumber: int, i: int)

  function NumberObjects(ms: seq<Marker>): seq<NumberedObject>
  {
    seq(|ms|, k requires 0 <= k < |ms| => NumberedObject(ms[k].name, ms[k].lineNumber, k + 1))
  }

  /** A row of `rangedObjects`: object `i`, its `o` line and where it ends. */
  datatype ObjectRange = ObjectRange(i: int, position: int, lastPosition: int, name: string)

  /** The join condition: `second` is the next object, or `first` is the last
      object and `second` has its name. */
  predicate Joins(first: NumberedObject, second: NumberedObject, count: int)
  {
    first.i + 1 == second.i || (first.i == count && first.name == second.name)
  }

  /** The row selected for a joined pair; a pair on the same line is the last
      object with itself, and its range runs to the end of the file. */
  function RangeOf(first: NumberedObject, second: NumberedObject, lineCount: int): ObjectRange
  {
    ObjectRange(first.i, first.lineNumber,
                if first.lineNumber == second.lineNumber then lineCount else second.lineNumber,
                first.name)
  }

  /** The inner `from second in numberedObjects where ...` for one `first`. */
  function Pairings(first: NumberedObject, seconds: seq<NumberedObject>, count: int, lineCount: int): seq<ObjectRange>
  {
    if seconds == [] then []
    else
      var second := seconds[|seconds| - 1];
      Pairings(first, seconds[..|seconds| - 1], count, lineCount) +
      if Joins(first, second, count) then [RangeOf(first, second, lineCount)] else []
  }

  /** The self-join `from first in numberedObjects from second in
      numberedObjects where ... select ...`, for the firsts given. */
  function JoinRanges(firsts: seq<NumberedObject>, all: seq<NumberedObject>, lineCount: int): seq<ObjectRange>
  {
    if firsts == [] then []
    else JoinRanges(firsts[..|firsts| - 1], all, lineCount) + Pairings(firsts[|firsts| - 1], all, |all|, lineCount)
  }

  // ---------------------------------------------------------------------------
  // Cutting the ranges and parsing them
  // ---------------------------------------------------------------------------

  /** What `List.GetRange` throws. */
  datatype SegmentFailure = ArgumentOutOfRange | ArgumentInvalid

  /** `List.GetRange(index, count)`: a negative index or count is out of range;
      a range past the end is an invalid argument. */
  function GetRange<T>(list: seq<T>, index: int, count: int): (r: Result<seq<T>, SegmentFailure>)
    ensures r.Success? <==> 0 <= index && 0 <= count && index + count <= |list|
    ensures r.Success? ==> r.value == list[index..index + count]
  {
    if index < 0 || count < 0 then Failure(ArgumentOutOfRange)
    else if index + count > |list| then Failure(ArgumentInvalid)
    else Success(list[index..index + count])
  }

  /** The `OBJObject` built for one row from its slice of numbered lines. */
  function ObjectOf(r: ObjectRange, slice: seq<NumberedLine>, fmt: RealFormat): OBJObject
  {
    OBJObject(r.i, r.position, r.lastPosition, r.name,
              Vertices(slice, fmt), TextureVertices(slice, fmt), Normals(slice, fmt), Faces(slice))
  }

  /** `select new OBJObject(...)` over the rows, in order: the slice of each row
      is `numberedLines.GetRange(position, lastPosition - position)`, and the
      first row whose range `GetRange` refuses stops the enumeration. */
  function BuildObjects(ranges: seq<ObjectRange>, numbered: seq<NumberedLine>, fmt: RealFormat): Result<seq<OBJObject>, SegmentFailure>
  {
    if ranges == [] then Success([])
    else
      var r := ranges[0];
      match GetRange(numbered, r.position, r.lastPosition - r.position)
      case Failure(e) => Failure(e)
      case Success(slice) =>
        match BuildObjects(ranges[1..], numbered, fmt)
        case Failure(e) => Failure(e)
        case Success(rest) => Success([ObjectOf(r, slice, fmt)] + rest)
  }

  /** `rangedObjects` for a whole file. */
  function ParseObjects(lines: seq<string>, fmt: RealFormat): Result<seq<OBJObject>, SegmentFailure>
  {
    var numbered := NumberLines(lines);
    var nos := NumberObjects(ObjectMarkers(numbered));
    BuildObjects(JoinRanges(nos, nos, |lines|), numbered, fmt)
  }

  // ---------------------------------------------------------------------------
  // What segmentation yields
  // ---------------------------------------------------------------------------

  /** No marker before the last one has the last one's name. */
  predicate LastNameUnique(ms: seq<Marker>)
  {
    forall k :: 0 <= k < |ms| - 1 ==> ms[k].name != ms[|ms| - 1].name
  }

  /** The row the join yields for object k: its own `o` line to the next
      object's `o` line, or to the end of the file for the last object. */
  function ExpectedRange(ms: seq<Marker>, k: int, lineCount: int): ObjectRange
    requires 0 <= k < |ms|
  {
    ObjectRange(k + 1, ms[k].lineNumber, if k < |ms| - 1 then ms[k + 1].lineNumber else lineCount, ms[k].name)
  }

  /** A join over seconds of which exactly the one at `m` qualifies yields its
      single row. */
  lemma {:induction false} PairingsSingle(first: NumberedObject, seconds: seq<NumberedObject>, count: int, lineCount: int, m: int, j: int)
    requires 0 <= m < |seconds| && 0 <= j <= |seconds|
    requires Joins(first, seconds[m], count)
    requires forall k :: 0 <= k < |seconds| && k != m ==> !Joins(first, seconds[k], count)
    ensures Pairings(first, seconds[..j], count, lineCount) == if j > m then [RangeOf(first, seconds[m], lineCount)] else []
    decreases j
  {
    if j > 0 {
      assert seconds[..j][..j - 1] == seconds[..j - 1];
      PairingsSingle(first, seconds, count, lineCount, m, j - 1);
    }
  }

  /** The rows of object k: the next object, or for the last object itself,
      is its only partner. */
  lemma JoinRow(ms: seq<Marker>, k: int, lineCount: int)
    requires 0 <= k < |ms|
    requires StrictlyIncreasing(ms)
    requires LastNameUnique(ms)
    ensures var nos := NumberObjects(ms);
      Pairings(nos[k], nos, |nos|, lineCount) == [ExpectedRange(ms, k, lineCount)]
  {
    var nos := NumberObjects(ms);
    var n := |ms|;
    var first := nos[k];
    assert first == NumberedObject(ms[k].name, ms[k].lineNumber, k + 1);
    var partner := if k < n - 1 then k + 1 else k;
    forall j | 0 <= j < n && j != partner
      ensures !Joins(first, nos[j], n)
    {
      assert nos[j] == NumberedObject(ms[j].name, ms[j].lineNumber, j + 1);
    }
    assert nos[partner] == NumberedObject(ms[partner].name, ms[partner].lineNumber, partner + 1);
    PairingsSingle(first, nos, n, lineCount, partner, n);
    assert nos[..n] == nos;
    if k < n - 1 {
      assert ms[k].lineNumber < ms[k + 1].lineNumber;
    }
  }

  /** With increasing marker lines and a last name no earlier marker shares,
      the join yields exactly one row per object, in object order. */
  lemma {:induction false} JoinRangesShape(ms: seq<Marker>, m: int, lineCount: int)
    requires 0 <= m <= |ms|
    requires StrictlyIncreasing(ms)
    requires LastNameUnique(ms)
    ensures var nos := NumberObjects(ms);
      JoinRanges(nos[..m], nos, lineCount) == seq(m, k requires 0 <= k < m => ExpectedRange(ms, k, lineCount))
    decreases m
  {
    if m > 0 {
      JoinRangesShape(ms, m - 1, lineCount);
      JoinRow(ms, m - 1, lineCount);
      JoinRangesSnoc(NumberObjects(ms), m, lineCount);
      ExpectedRangesSnoc(ms, m, lineCount);
    }
  }

  /** Joining one more first adds its pairings at the end. */
  lemma JoinRangesSnoc(nos: seq<NumberedObject>, m: int, lineCount: int)
    requires 0 < m <= |nos|
    ensures JoinRanges(nos[..m], nos, lineCount) ==
      JoinRanges(nos[..m - 1], nos, lineCount) + Pairings(nos[m - 1], nos, |nos|, lineCount)
  {
    assert nos[..m][..m - 1] == nos[..m - 1];
    assert nos[..m][m - 1] == nos[m - 1];
  }

  /** The expected rows of the first m objects: those of the first m - 1,
      then row m - 1. */
  lemma ExpectedRangesSnoc(ms: seq<Marker>, m: int, lineCount: int)
    requires 0 < m <= |ms|
    ensures seq(m, k requires 0 <= k < m => ExpectedRange(ms, k, lineCount)) ==
      seq(m - 1, k requires 0 <= k < m - 1 => ExpectedRange(ms, k, lineCount)) + [ExpectedRange(ms, m - 1, lineCount)]
  {
  }

  /** Every row fits the list: rows built to the shape above never make
      GetRange fail, and each object is parsed from its own slice. */
  lemma {:induction false} BuildObjectsShape(ranges: seq<ObjectRange>, numbered: seq<NumberedLine>, fmt: RealFormat)
    requires forall k :: 0 <= k < |ranges| ==>
      0 <= ranges[k].position <= ranges[k].lastPosition <= |numbered|
    ensures BuildObjects(ranges, numbered, fmt).Success?
    ensures |BuildObjects(ranges, numbered, fmt).value| == |ranges|
    ensures forall k :: 0 <= k < |ranges| ==>
      BuildObjects(ranges, numbered, fmt).value[k] ==
        ObjectOf(ranges[k], numbered[ranges[k].position..ranges[k].lastPosition], fmt)
    decreases |ranges|
  {
    if ranges != [] {
      BuildObjectsShape(ranges[1..], numbered, fmt);
    }
  }

  /** Segmentation: with n markers and no earlier marker sharing the last
      one's name, there are exactly n objects, numbered 1..n in file order;
      object k starts at its `o` line and owns the list indices up to the next
      object's `o` line (the lines after its marker up to and including the
      next marker), the last one up to the end of the file. No marker, no
      object. */
  lemma SegmentsObjects(lines: seq<string>, fmt: RealFormat)
    requires LastNameUnique(Markers(lines))
    ensures ParseObjects(lines, fmt).Success?
    ensures |ParseObjects(lines, fmt).value| == |Markers(lines)|
    ensures forall k :: 0 <= k < |Markers(lines)| ==>
      var r := ExpectedRange(Markers(lines), k, |lines|);
      1 <= r.position <= r.lastPosition <= |lines| &&
      ParseObjects(lines, fmt).value[k] == ObjectOf(r, NumberLines(lines)[r.position..r.lastPosition], fmt)
  {
    var ms := Markers(lines);
    var n := |ms|;
    var nos := NumberObjects(ms);
    var numbered := NumberLines(lines);
    assert ms == ObjectMarkers(NumberFrom(lines, 0));
    MarkersInFileOrder(lines, 0);
    JoinRangesShape(ms, n, |lines|);
    assert nos[..n] == nos;
    var ranges := JoinRanges(nos, nos, |lines|);
    assert ranges == seq(n, k requires 0 <= k < n => ExpectedRange(ms, k, |lines|));
    forall k | 0 <= k < n
      ensures 1 <= ranges[k].position <= ranges[k].lastPosition <= |numbered|
    {
      ExpectedRangeBounds(lines, k);
    }
    BuildObjectsShape(ranges, numbered, fmt);
    var objs := BuildObjects(ranges, numbered, fmt);
    assert ParseObjects(lines, fmt) == objs;
    forall k | 0 <= k < n
      ensures var r := ExpectedRange(ms, k, |lines|);
        1 <= r.position <= r.lastPosition <= |lines| &&
        objs.value[k] == ObjectOf(r, numbered[r.position..r.lastPosition], fmt)
    {
      ExpectedRangeBounds(lines, k);
      assert ranges[k] == ExpectedRange(ms, k, |lines|);
    }
  }

  /** Object k's row lies within the file: it starts at its `o` line and ends
      no earlier. */
  lemma ExpectedRangeBounds(lines: seq<string>, k: int)
    requires 0 <= k < |Markers(lines)|
    ensures var r := ExpectedRange(Markers(lines), k, |lines|);
      1 <= r.position <= r.lastPosition <= |lines|
  {
    var ms := Markers(lines);
    assert ms == ObjectMarkers(NumberFrom(lines, 0));
    MarkersInFileOrder(lines, 0);
    assert ms[k] in ms && MarkerAt(lines, 0, ms[k]);
    if k < |ms| - 1 {
      assert ms[k + 1] in ms && MarkerAt(lines, 0, ms[k + 1]);
      assert ms[k].lineNumber < ms[k + 1].lineNumber;
    }
  }

  /** A row whose range GetRange refuses makes the whole enumeration fail. */
  lemma {:induction false} BuildObjectsFails(ranges: seq<ObjectRange>, numbered: seq<NumberedLine>, fmt: RealFormat, bad: int)
    requires 0 <= bad < |ranges|
    requires GetRange(numbered, ranges[bad].position, ranges[bad].lastPosition - ranges[bad].position).Failure?
    ensures BuildObjects(ranges, numbered, fmt).Failure?
    decreases |ranges|
  {
    if bad > 0 && GetRange(numbered, ranges[0].position, ranges[0].lastPosition - ranges[0].position).Success? {
      BuildObjectsFails(ranges[1..], numbered, fmt, bad - 1);
    }
  }

  /** A join row is among the rows of its `first`. */
  lemma {:induction false} PairingsContains(first: NumberedObject, seconds: seq<NumberedObject>, count: int, lineCount: int, m: int)
    requires 0 <= m < |seconds| && Joins(first, seconds[m], count)
    ensures RangeOf(first, seconds[m], lineCount) in Pairings(first, seconds, count, lineCount)
    decreases |seconds|
  {
    if m < |seconds| - 1 {
      assert seconds[..|seconds| - 1][m] == seconds[m];
      PairingsContains(first, seconds[..|seconds| - 1], count, lineCount, m);
    }
  }

  /** When an earlier object has the last object's name, the join also pairs
      the last object with that earlier one, whose line comes first: the
      resulting negative GetRange count makes the enumeration fail. */
  lemma DuplicateLastNameFails(lines: seq<string>, fmt: RealFormat)
    requires !LastNameUnique(Markers(lines))
    ensures ParseObjects(lines, fmt).Failure?
  {
    var ms := Markers(lines);
    var n := |ms|;
    var nos := NumberObjects(ms);
    assert ms == ObjectMarkers(NumberFrom(lines, 0));
    MarkersIncrease(lines, 0);
    var k :| 0 <= k < n - 1 && ms[k].name == ms[n - 1].name;
    var bad := BackwardRow(ms, k, |lines|);
    var before, rows := JoinRanges(nos[..n - 1], nos, |lines|), Pairings(nos[n - 1], nos, n, |lines|);
    JoinRangesSnoc(nos, n, |lines|);
    assert nos[..n] == nos;
    var idx := IndexInSuffix(before, rows, bad);
    BuildObjectsFails(before + rows, NumberLines(lines), fmt, idx);
  }

  /** A value of the second part of a concatenation has a position in it. */
  lemma IndexInSuffix<T>(before: seq<T>, rows: seq<T>, x: T) returns (idx: int)
    requires x in rows
    ensures 0 <= idx < |before + rows| && (before + rows)[idx] == x
  {
    var r :| 0 <= r < |rows| && rows[r] == x;
    idx := |before| + r;
  }

  /** The last object paired with an earlier object of its name: a row of the
      join whose end comes before its start. */
  lemma BackwardRow(ms: seq<Marker>, k: int, lineCount: int) returns (bad: ObjectRange)
    requires StrictlyIncreasing(ms)
    requires 0 <= k < |ms| - 1 && ms[k].name == ms[|ms| - 1].name
    ensures var nos := NumberObjects(ms);
      bad in Pairings(nos[|ms| - 1], nos, |ms|, lineCount)
    ensures bad.lastPosition - bad.position < 0
  {
    var n := |ms|;
    var nos := NumberObjects(ms);
    var first := nos[n - 1];
    assert first == NumberedObject(ms[n - 1].name, ms[n - 1].lineNumber, n);
    assert nos[k] == NumberedObject(ms[k].name, ms[k].lineNumber, k + 1);
    assert Joins(first, nos[k], n);
    PairingsContains(first, nos, n, lineCount, k);
    bad := RangeOf(first, nos[k], lineCount);
  }
}
