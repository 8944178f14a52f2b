# OBJParser in Dafny

A verified model of the core of `OBJParser/Program.cs`, a small C# tool that
reads a Wavefront OBJ text file into named objects and writes them out again
in one of three forms.

The model covers:

- **Segmentation.** `Main` splits each line on single spaces and numbers it
  from 1. It finds the `o` markers (two words, the first `o`) and numbers the
  objects 1..n. A self-join pairs each object with the next one to find where
  its line range ends. `List.GetRange` then cuts each range out of the
  numbered lines, with the 1-based line number used as a 0-based index.
- **Directive parsers.** Each object's range is filtered separately for `v`,
  `vt`, `vn` and `f` lines. Faces are read by four passes, one per reference
  grammar (`i`, `i//n`, `i/t`, `i/t/n`), and the passes are concatenated.
  This part also includes the `FaceVertex` constructors and the `Vertex3D`
  members `IsStringValidOBJ`, `ParseOBJ` and `PrintOBJ`.
- **Float pool.** Every coordinate goes into one list (vertices of all
  objects, then texture vertices, then normals). The list is ranked by a
  stable descending sort on occurrence count, duplicates are removed, and the
  values are numbered from 1.
- **Writers.** `outputStdOBJ`, `outputSlightlyOptimizedOBJ` and
  `outputOBJAsYAML` are methods on a `TextWriter` that holds the lines
  written so far. Each is proved equal to a function giving its whole output.
- **Fan triangulation.** This models `OBJObject.Triangulate`.

Coordinates are an abstract type with equality (`Geometry.Coord`). The
culture-dependent text format of doubles is a parameter, `RealFormat`: a
partial `read` (`double.TryParse` with `double.Parse`) and a `show` (`{0}`
formatting). Properties that need printed numbers to read back assume
`ReadsBack(fmt)`: every printed number parses back to itself and holds no
space and no line break.

The file between writer and reader is modelled too. `Text.FileText` is the
file a `StreamWriter` leaves after one `WriteLine` per line, with
`Environment.NewLine` being `\n` or `\r\n`. `Text.ReadLines` is
`File.ReadLines`, which ends a line at `\n`, `\r` or `\r\n`.

Main results:

- `PlainRoundTrip.StdFileRoundTrip`: `Main` reads the file the plain writer
  wrote back into the same objects. The faces come back regrouped in pass
  order, and the vertices come back with line number 0.
- `PlainRoundTrip.StdFileRoundTripFails`: when an earlier object shares the
  last object's name, the same file makes the parser fail.
- `Pool.FloatDictIds`: the pool is a frequency-ranked, duplicate-free table
  with ids 1..N.
- `Decoding.TableDecodes` and `Decoding.FloatsDecode`: every emitted id
  decodes back to its coordinate through the trailing table.

Files:

| file | module | contents |
|---|---|---|
| wrappers.dfy | Wrappers | `Option`, `Result` |
| text.dfy | Text | `String.Split`, `String.Join`, the integer text format |
| geometry.dfy | Geometry | records, `FaceVertex` constructors, reference grammars and printed form |
| directives.dfy | Directives | per-line parsers, range queries, `Vertex3D` members |
| ranking.dfy | Ranking | stable descending sort, `Distinct`, ranking by frequency, numbering |
| pool.dfy | Pool | `floatList`, `uniquefloats`, `floatDict` |
| segmentation.dfy | Segmentation | numbering, markers, the self-join, `GetRange` |
| writers.dfy | Writers | `TextWriter` and the three writers |
| triangulation.dfy | Triangulation | `Triangulate` |
| decoding.dfy | Decoding | pool ids per object and the tables that decode them |
| readback.dfy | Readback | single lines and line runs of the writers read back by the parsers |
| roundtrip.dfy | PlainRoundTrip | whole plain output read back by segmentation |

## Model

| member | source | states |
|---|---|---|
| Text.JoinSplit | OBJParser/Program.cs:653 | Splitting a line on a separator loses nothing: joining the pieces with the separator gives the line back. |
| Text.SplitJoin | OBJParser/Program.cs:653 | Splitting undoes joining when no piece contains the separator's first character, so a written line splits into exactly the words written. |
| Text.ParseIntOfIntToString | OBJParser/Program.cs:333-345 | An integer written with `{0}` is an integer token, and `int.TryParse`/`int.Parse` read it back as the same value. |
| Text.IntTokenHasNoSeparator | OBJParser/Program.cs:718-765 | An integer token contains no `/`, space, comma or line break, so the face grammars, the writers' separators and the file's line ends cannot split it. |
| Text.ReadLinesOfFileText | OBJParser/Program.cs:649 | `File.ReadLines` on a file written one `WriteLine` per line gives back exactly those lines, provided no line holds a line break. |
| Text.BrokenLineExample | OBJParser/Program.cs:649 | A line break inside a written line splits it in two when the file is read back: `o a\nb` comes back as `o a` and `b`. |
| Geometry.ConstructorFlags | OBJParser/Program.cs:166-195 | `FaceVertex(i)` has neither texture nor normal; `(i, n)` has only a normal; the five-argument form used by the `i/t` pass has only a texture; `(i, t, n)` has both. Each keeps its indices and stores 0 in a cleared index. |
| Geometry.ParseRef | OBJParser/Program.cs:718-765 | A token accepted by a grammar yields a well-formed reference whose flags name exactly that grammar. A bare token's vertex index is the token's integer value. |
| Geometry.RefGrammarsDisjoint | OBJParser/Program.cs:718-765 | No token is accepted by two different grammars. |
| Geometry.RefTokenReadsBack | OBJParser/Program.cs:333-345 | A well-formed reference printed as `i`, `i//n`, `i/t` or `i/t/n` parses back to itself under its own grammar. |
| Geometry.RefTokenRoundTrip | OBJParser/Program.cs:333-345 | A printed reference is accepted by its own grammar, giving itself back, and rejected by the other three. |
| Directives.ParseRefs | OBJParser/Program.cs:718-765 | The reference tokens of a line are accepted iff every token is accepted. The result then has one reference per token, in token order. |
| Directives.FaceOf | OBJParser/Program.cs:718-765 | A pass accepts an `f` line iff it has at least four words, the first `f`, and the pass's grammar accepts every token after the key. The face then has one reference per token, each of the pass's grammar, well formed and parsed from that token. |
| Directives.FaceLineGrammarsDisjoint | OBJParser/Program.cs:718-765 | An `f` line is accepted by at most one of the four passes. |
| Directives.CollectAppend | OBJParser/Program.cs:687-765 | Each query distributes over concatenated line ranges, so the accepted records keep their file order. |
| Directives.FacesOfPassShape | OBJParser/Program.cs:718-765 | Every face a pass yields has at least three references, all of that pass's grammar and well formed. |
| Directives.PassesConcatenated | OBJParser/Program.cs:718-765 | Four face lists, list k from pass k, concatenated are ordered by pass. |
| Directives.FacesGroupedByGrammar | OBJParser/Program.cs:718-765 | An object's faces are ordered by grammar, not by file order: bare, then `//`, then `i/t`, then `i/t/n`. |
| Directives.IsStringValidOBJ | OBJParser/Program.cs:82-92 | The loop folding `double.TryParse` over the words after the first returns true iff `Main`'s vertex filter accepts the line. |
| Directives.VertexCell.constructor | OBJParser/Program.cs:40-46 | A new vertex holds the line number and coordinates it is given. |
| Directives.VertexCell.ParseOBJ | OBJParser/Program.cs:94-100 | It succeeds iff words 1 to 3 exist and parse. It fails with index-out-of-range at the first missing word and with a format error at the first word that does not parse. Earlier fields stay updated after a failure, and the line number is kept. On every line `Main` accepts, it reads the same coordinates as `Main`. |
| Directives.PrintOBJRejected | OBJParser/Program.cs:109-117 | As written, `PrintOBJ`'s line splits into five words, the last one empty, so the vertex filter rejects it. |
| Directives.VertexLineReadsBack | OBJParser/Program.cs:349-352 | The `v` line without the trailing space splits into four words and reads back as the same vertex (line number 0). |
| Ranking.SortOrder | OBJParser/Program.cs:407-411 | The insertion sort is descending by key, is a permutation of its input, and is stable: of two distinct values, the one with the larger key, or with an equal key and an earlier first occurrence in the input, occurs first in the output. |
| Ranking.RankingOrder | OBJParser/Program.cs:407-411 | The ranking holds exactly the values of the list, each once, so its length is the number of distinct values. Of any two entries, the earlier one is more frequent, or as frequent and occurs first. |
| Ranking.NumberFromOneIds | OBJParser/Program.cs:413-415 | Zipping a duplicate-free list with 1, 2, ... gives keys exactly the list's values, the k-th value id k+1. |
| Ranking.PoolIds | OBJParser/Program.cs:407-415 | Ids go to exactly the values of the list and range over 1..N. Id k names the k-th ranked value. A smaller id means more frequent, or as frequent and first. |
| Ranking.RankingExample | OBJParser/Program.cs:407-411 | For `[0,0,0,0,0,1,0,0,2]` the ranking is `[0,1,2]`: the tie between 1 and 2 goes to first occurrence. |
| Pool.FloatDictCovers | OBJParser/Program.cs:417-444 | Every coordinate of every object is a key of `floatDict`, so no lookup of `ivertices`, `itexturevertices` or `inormals` fails. |
| Pool.FloatDictIds | OBJParser/Program.cs:373-415 | `floatDict` has a key for exactly the coordinates of `floatList`, and `uniquefloats` has no duplicates. Each key's id c satisfies 1 <= c <= N and names entry c of `uniquefloats`. A smaller id means more frequent in `floatList`, or as frequent and first in the scan order (vertices, then texture vertices, then normals). |
| Writers.TextWriter.Write | OBJParser/Program.cs:333-345 | `Write` appends to the line being written and leaves the completed lines alone. |
| Writers.TextWriter.WriteLine | OBJParser/Program.cs:325-360 | `WriteLine` completes the pending line with its text and starts an empty one. |
| Writers.Render | OBJParser/Program.cs:349-360 | One line per record, line k the rendering of record k. |
| Writers.WriteAll | OBJParser/Program.cs:349-360 | The loop writes exactly the rendered lines of the records, in order. |
| Writers.WriteRef | OBJParser/Program.cs:333-345 | Writing one reference appends the prefix and the reference's token `i`, `i//n`, `i/t` or `i/t/n` to the pending line. |
| Writers.WriteFace | OBJParser/Program.cs:330-347 | Writing a face adds exactly one `f` line: `f` followed by each reference's token after a space. |
| Writers.WriteFaces | OBJParser/Program.cs:328-347 | One `f` line per face, in order. |
| Writers.WriteStdObject | OBJParser/Program.cs:327-360 | One object adds its `o` line, an `f` line per face, then a `v`, `vt` or `vn` line per record. |
| Writers.OutputStdOBJ | OBJParser/Program.cs:320-365 | The plain writer's output is `StdLines`, the plain form of every object in order. |
| Writers.VertexIds | OBJParser/Program.cs:417-425 | `ivertices` for one object: one triple per vertex, owned by the object's number, each coordinate replaced by its id. |
| Writers.TextureIds | OBJParser/Program.cs:427-434 | `itexturevertices` for one object: one pair per texture vertex, each coordinate replaced by its id. |
| Writers.NormalIds | OBJParser/Program.cs:436-444 | `inormals` for one object: one triple per normal, each coordinate replaced by its id. |
| Writers.WriteOptimizedObject | OBJParser/Program.cs:589-631 | One object in optimised form: the `o` line, the `f` lines, then the `v`, `vt` and `vn` id lines of the records its number owns. |
| Writers.WriteOptimizedBody | OBJParser/Program.cs:589-631 | Every object in optimised form, in order. |
| Writers.OutputSlightlyOptimizedOBJ | OBJParser/Program.cs:509-639 | The output is `OptimizedLines`: the header, every object in optimised form, then one `d` line per pooled value in id order. |
| Writers.WriteYamlFace | OBJParser/Program.cs:454-473 | The delimiter loop writes one `- [...]` entry holding the reference tokens separated by commas. |
| Writers.WriteYamlFaces | OBJParser/Program.cs:452-474 | One entry per face, in order. |
| Writers.WriteYamlObject | OBJParser/Program.cs:450-494 | One object in YAML form: name, `Faces:` and its entries, `Vertices:` and its id entries, `TextureVertices:` and its id entries, then the normal id entries with no header. |
| Writers.WriteYamlBody | OBJParser/Program.cs:448-495 | Every object in YAML form, in order. |
| Writers.WriteFloats | OBJParser/Program.cs:496-503 | The `floatdelim` loop writes one `Floats: [...]` line with the pooled values separated by commas. |
| Writers.OutputOBJAsYAML | OBJParser/Program.cs:367-507 | The output is `YamlLines`: two header lines, every object in YAML form, then the `Floats` line. |
| Writers.YamlNormalsUnderTextureVertices | OBJParser/Program.cs:482-494 | In an object's YAML block the last header is `TextureVertices:`. Every later line is a list entry, and the normals' entries are the last ones, so the normals land under the texture vertices' header. |
| Triangulation.Triangulate | OBJParser/Program.cs:291-315 | A face of three or fewer references yields no triangles. A face of n > 3 yields n-2 triangles: the first is references 0..2, and triangle k is (reference 0, reference k+1, reference k+2). |
| Triangulation.FanShape | OBJParser/Program.cs:291-315 | Every triangle of the fan contains reference 0. Each triangle starts where the previous one ended. Every reference from 1 to n-2 is some triangle's middle corner, and the last triangle ends at the last reference. |
| Decoding.IdOwnersAreObjects | OBJParser/Program.cs:417-444 | Every id record is owned by the number of some object. |
| Decoding.OwnedVertexOfObject | OBJParser/Program.cs:613-615 | With distinct object numbers, `where v.ownerID == o.index` over `ivertices` selects exactly that object's vertex ids, in order. |
| Decoding.OwnedTextureOfObject | OBJParser/Program.cs:619-621 | The same for texture vertex ids. |
| Decoding.OwnedNormalOfObject | OBJParser/Program.cs:625-627 | The same for normal ids. |
| Decoding.PooledVertexIdsDecode | OBJParser/Program.cs:417-425 | Each vertex id an object's `v` lines carry names, in `uniquefloats`, the coordinate it replaced. |
| Decoding.PooledTextureIdsDecode | OBJParser/Program.cs:427-434 | The same for texture vertex ids. |
| Decoding.PooledNormalIdsDecode | OBJParser/Program.cs:436-444 | The same for normal ids. |
| Decoding.TableAtEnd | OBJParser/Program.cs:588-635 | The optimised output starts with its header and ends with one `d` line per pooled value, in id order. |
| Decoding.TableLineReadsBack | OBJParser/Program.cs:632-635 | A `d` line splits into `d` and the value's text, which parses back to the value. |
| Decoding.TableDecodes | OBJParser/Program.cs:632-635 | Line k of the trailing table of the optimised output reads back as the value with id k+1. |
| Decoding.FloatEntriesJoined | OBJParser/Program.cs:496-503 | The `Floats` entries are the values' texts joined by commas. |
| Decoding.FloatsDecode | OBJParser/Program.cs:496-503 | The YAML output ends with the `Floats` line. Split on commas, its entry c-1 is the text of the value with id c. |
| Segmentation.GetRange | OBJParser/Program.cs:687 | `GetRange(index, count)` succeeds iff the index and count are non-negative and the range fits. It then returns exactly that slice. |
| Segmentation.MarkersInFileOrder | OBJParser/Program.cs:651-665 | The markers are exactly the `o` lines of two words, each with its line number and second word as name, in strictly increasing line order. |
| Segmentation.JoinRangesShape | OBJParser/Program.cs:675-686 | When the last name is unique, the self-join yields one row per object, in order. Object k's range runs from its `o` line to the next object's `o` line, or to the end of the file for the last object. |
| Segmentation.BuildObjectsShape | OBJParser/Program.cs:687-765 | When every row's range fits, each row becomes the object parsed from exactly its slice of numbered lines. |
| Segmentation.SegmentsObjects | OBJParser/Program.cs:651-765 | With a unique last name, a file with n markers parses to exactly n objects (none for no markers). Object k is numbered k+1, and its records come from the lines after its `o` line up to the next `o` line, or to the end of the file. |
| Segmentation.DuplicateLastNameFails | OBJParser/Program.cs:675-687 | When an earlier object has the last object's name, the join yields a row with a negative `GetRange` count, and parsing fails. |
| Readback.TokensParse | OBJParser/Program.cs:333-345 | The printed tokens of a face whose references share a well-formed grammar parse back to the face under that grammar. |
| Readback.FaceLineReadsBack | OBJParser/Program.cs:328-347 | A plain `f` line of a face a pass can have read is accepted by exactly the face's own pass, which yields the face again. |
| Readback.YamlFaceReadsBack | OBJParser/Program.cs:454-473 | A YAML face entry's contents, split on commas, are the reference tokens, and they parse back to the face. |
| Readback.ObjectLineReadsBack | OBJParser/Program.cs:327 | `o name` with a space-free name is a marker naming that name. |
| Readback.TextureLineReadsBack | OBJParser/Program.cs:353-356 | A plain `vt` line reads back as the same texture vertex. |
| Readback.NormalLineReadsBack | OBJParser/Program.cs:357-360 | A plain `vn` line reads back as the same normal. |
| Readback.VertexPartReadsBack | OBJParser/Program.cs:349-352 | The `v` query over the plain `v` lines of a vertex list gives the list back, with line number 0. |
| Readback.TexturePartReadsBack | OBJParser/Program.cs:353-356 | The `vt` query over the plain `vt` lines gives the texture vertices back. |
| Readback.NormalPartReadsBack | OBJParser/Program.cs:357-360 | The `vn` query over the plain `vn` lines gives the normals back. |
| Readback.FacePartReadsBack | OBJParser/Program.cs:718-765 | A pass over the plain `f` lines of a face list yields exactly the faces of that pass's grammar, in order. |
| PlainRoundTrip.FlattenMarkers | OBJParser/Program.cs:658-665 | In a file made of blocks that each start with one `o` line, the markers are those `o` lines, one per block, in order. |
| PlainRoundTrip.StdLinesMarkers | OBJParser/Program.cs:658-665 | The markers of the plain output are the objects' `o` lines, in order, with their names. |
| PlainRoundTrip.ObjectReadsBack | OBJParser/Program.cs:687-765 | Object k's range in the plain output parses back to object k. Its records are read from its own block, with the next `o` line contributing nothing. |
| PlainRoundTrip.StdRoundTrip | OBJParser/Program.cs:320-365 | Parsing the plain output of objects with names free of spaces and line breaks, parsed faces and a unique last name gives every object back under its number and name. Texture vertices and normals come back unchanged, vertices with line number 0, and faces regrouped in pass order. |
| PlainRoundTrip.StdRoundTripFails | OBJParser/Program.cs:675-687 | When an earlier object has the last object's name, parsing the plain output fails. |
| PlainRoundTrip.StdLinesUnbroken | OBJParser/Program.cs:325-360 | With names and printed numbers free of line breaks, no line of the plain output holds one. |
| PlainRoundTrip.StdFileLines | OBJParser/Program.cs:649 | `File.ReadLines` on the file `outputStdOBJ` writes gives back exactly the lines written. |
| PlainRoundTrip.StdFileRoundTrip | OBJParser/Program.cs:649-765 | `Main` reading the file `outputStdOBJ` wrote, with either newline, rebuilds every object exactly as `StdRoundTrip` states. |
| PlainRoundTrip.StdFileRoundTripFails | OBJParser/Program.cs:675-687 | Through the file as well, an earlier object with the last object's name makes the parse fail. |

## Left out

- File and console I/O are modelled only as text. The file is a string, `Text.FileText` is what the writer leaves in it and `Text.ReadLines` is how `File.ReadLines` cuts it into lines. Not modelled: opening and closing the `FileStream` and `StreamWriter`, text encodings and byte-order marks, argument checks, the console summary, `ReadAllLines` in `GetVerticesFromLines`, and I/O errors. The optimised and YAML writers are modelled up to their lines, not through the file.
- Floating-point parsing and formatting are not modelled, because they are culture-dependent IEEE behaviour. They are the `RealFormat` parameter. NaN and -0.0 are not modelled either: there, `==` in the `orderby` count differs from the equality `Distinct` and `Dictionary` use. Coordinates are compared with one equality.
- `int.TryParse` details are not modelled: leading and trailing whitespace, culture signs and Int32 overflow. An integer token is an optional sign followed by ASCII digits, and integers are unbounded.
- The geometry stubs `CalculateConvexHull`, `IsPointInCircumcircle` and `GetMagnitudeSquared` are not modelled, because they are identity, constant or float arithmetic and no core operation uses them.
- `IDoubleDatabase` and the `Vertex3D` constructor that takes one are not modelled, because the interface has no implementation.
- Property getters and setters are not modelled; `FaceVertex` and the geometry records are immutable datatypes. The `NormalIndex` setter calls itself and would overflow the stack, and nothing in the core calls it.
- LINQ laziness and repeated enumeration are not modelled, because they affect cost but not results. The queries are functions over sequences. The one result that laziness does affect is kept: the rows are enumerated in order, and the first `GetRange` that throws ends the parse.
- `Triangulation.Triangulate` ignores its `vertices` parameter, as the source does.
- Only one copy of the float pool is modelled. The code at 515-557 and 767-805 repeats the code at 373-415, so `Pool` models it once.
- `Dictionary` throws on a duplicate key, but that cannot happen here: `uniquefloats` has no duplicates (`Pool.FloatDictIds`).
- `PlainRoundTrip.StdRoundTrip`: proved only for objects whose names have no space and no line break and whose faces each have at least three well-formed references of one grammar, because other objects do not read back. The `position` and `lastPosition` fields and the vertex line numbers are not preserved. The faces come back grouped by grammar.
- The round trip is proved for the plain writer only. For the optimised and YAML writers, the model proves the pool lookups (`Decoding.TableDecodes`, `Decoding.FloatsDecode`, the `Pooled*IdsDecode` lemmas). The optimised output does not parse back as the original objects, because its `v` lines hold ids.

## Findings

| source | as written | input that shows it | evidently intended | confidence | as-written member | corrected member |
|---|---|---|---|---|---|---|
| OBJParser/Program.cs:109-117 | `PrintOBJ` writes a space after every coordinate, the last one included | any vertex: `v 1 2 3 ` splits on spaces into five words, the last one empty, and `IsStringValidOBJ` (85) requires exactly four | `v x y z` with no trailing space, the form the plain writer uses at 351 | not executed | Directives.PrintOBJRejected | Directives.VertexLineReadsBack |
