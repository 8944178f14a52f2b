/**
 * `OBJObject.Triangulate` of OBJParser/Program.cs: a fan triangulation of a
 * face around its first reference. Faces of three or fewer references give
 * no triangles at all.
 */
module Triangulation {
  import opened Geometry

  /** The triangle of the fan holding the `k`-th edge away from the first
      reference. */
  predicate FanTriangle(face: Face, k: int, t: Face)
    requires 0 <= k && k + 2 < |face|
  {
    t == [face[0], face[k + 1], face[k + 2]]
  }

  /** `Triangulate(face, vertices)`: the first three references, then for
      every later reference the triangle of the first reference, the previous
      last reference and the new one. `vertices` is not consulted. */
  method Triangulate(face: Face, vertices: seq<Vertex3D>) returns (triangles: seq<Face>)
    ensures |face| <= 3 ==> triangles == []
    ensures |face| > 3 ==> |triangles| == |face| - 2 && triangles[0] == face[..3]
    ensures |face| > 3 ==> forall k :: 0 <= k < |triangles| ==> FanTriangle(face, k, triangles[k])
  {
    triangles := [];
    if |face| > 3 {
      var first := face[..3];
      triangles := triangles + [first];
      var firstPoint := first[0];
      var intermediatePoint := first[2];
      var rest := face[3..];
      for j := 0 to |rest|
        invariant |triangles| == j + 1 && triangles[0] == face[..3]
        invariant intermediatePoint == face[j + 2]
        invariant forall k :: 0 <= k < |triangles| ==> FanTriangle(face, k, triangles[k])
      {
        triangles := triangles + [[firstPoint, intermediatePoint, rest[j]]];
        intermediatePoint := rest[j];
      }
    }
  }

  /** Every triangle of the fan holds the first reference, and consecutive
      triangles share the edge from the first reference to the reference the
      loop carries over. */
  lemma FanShape(face: Face, triangles: seq<Face>)
    requires |face| > 3 && |triangles| == |face| - 2
    requires forall k :: 0 <= k < |triangles| ==> FanTriangle(face, k, triangles[k])
    ensures forall k :: 0 <= k < |triangles| ==> |triangles[k]| == 3 && triangles[k][0] == face[0]
    ensures forall k :: 0 <= k < |triangles| - 1 ==> triangles[k][2] == triangles[k + 1][1]
    ensures forall j :: 0 < j < |face| - 1 ==> triangles[j - 1][1] == face[j]
    ensures triangles[|triangles| - 1][2] == face[|face| - 1]
  {
    assert FanTriangle(face, |triangles| - 1, triangles[|triangles| - 1]);
  }
}
