/** The in-memory collision model: versions, vectors, bounding volume,
    spheres, boxes, vertices, faces, face groups and the model record that
    owns them, with the defaults a freshly constructed object carries. */
module ColDataStructures {
  import opened Bytes

  /** COLVersion: exactly the four collision format versions. */
  datatype Version = Col1 | Col2 | Col3 | Col4 {
    /** The enum's integer value. */
    function Value(): (n: nat)
      ensures 1 <= n <= 4
    {
      match this
      case Col1 => 1
      case Col2 => 2
      case Col3 => 3
      case Col4 => 4
    }
  }

  /** `COLVersion(n)`: the version with integer value `n`, if there is one. */
  function VersionOf(n: int): (r: Option<Version>)
    ensures r.Some? <==> 1 <= n <= 4
    ensures r.Some? ==> r.value.Value() == n
  {
    if n == 1 then Some(Col1)
    else if n == 2 then Some(Col2)
    else if n == 3 then Some(Col3)
    else if n == 4 then Some(Col4)
    else None
  }

  lemma VersionValueRoundTrip(v: Version)
    ensures VersionOf(v.Value()) == Some(v)
  {
  }

  /** A scalar component. Floats read from the buffer are kept as their
      uninterpreted IEEE-754 32-bit word; fixed-point values and the
      constructors' defaults are exact. */
  datatype Num = F32(bits: nat) | Exact(value: real)

  datatype Vector3 = Vector3(x: Num, y: Num, z: Num)

  function Vec(x: real, y: real, z: real): Vector3
  {
    Vector3(Exact(x), Exact(y), Exact(z))
  }

  datatype BoundingBox = BoundingBox(min: Vector3, max: Vector3, center: Vector3, radius: Num)

  /** `BoundingBox()`: the unit cube around the origin. */
  function DefaultBoundingBox(): BoundingBox
  {
    BoundingBox(Vec(-1.0, -1.0, -1.0), Vec(1.0, 1.0, 1.0), Vec(0.0, 0.0, 0.0), Exact(1.0))
  }

  datatype Sphere = Sphere(center: Vector3, radius: Num, material: nat, flags: nat)

  /** `COLBox`: `flags` is only read by version 1. */
  datatype Box = Box(minPoint: Vector3, maxPoint: Vector3, material: nat, flags: nat)

  datatype Vertex = Vertex(position: Vector3)

  /** `COLFace`: a triangle over three vertex indices. */
  datatype Face = Face(a: nat, b: nat, c: nat, material: nat, light: nat, flags: nat) {
    /** The `vertex_indices` property. */
    function VertexIndices(): (nat, nat, nat)
    {
      (a, b, c)
    }
  }

  /** `COLFace()`: every field zero. */
  function NewFace(): Face
  {
    Face(0, 0, 0, 0, 0, 0)
  }

  /** `COLFaceGroup`: a bounding box over the inclusive face range
      `startFace..endFace`. */
  datatype FaceGroup = FaceGroup(min: Vector3, max: Vector3, startFace: nat, endFace: nat) {
    /** The face count the group reports. */
    function FaceCount(): int
    {
      endFace - startFace + 1
    }

    /** The face indices the group covers. */
    function Faces(): set<int>
    {
      Range(startFace, endFace)
    }
  }

  /** The integers `lo..hi`, both ends included. */
  function Range(lo: int, hi: int): set<int>
    decreases hi - lo
  {
    if hi < lo then {} else Range(lo, hi - 1) + {hi}
  }

  /** `Range(lo, hi)` holds exactly the `hi - lo + 1` integers from `lo` to `hi`. */
  lemma {:induction false} RangeSize(lo: int, hi: int)
    requires lo <= hi + 1
    ensures |Range(lo, hi)| == hi - lo + 1
    ensures forall x :: x in Range(lo, hi) <==> lo <= x <= hi
    decreases hi - lo
  {
    if lo <= hi {
      RangeSize(lo, hi - 1);
    }
  }

  /** A face group's count is the number of faces its inclusive range covers,
      both end faces among them. */
  lemma FaceGroupCountIsRangeSize(g: FaceGroup)
    requires g.startFace <= g.endFace + 1
    ensures g.FaceCount() == |g.Faces()|
    ensures forall i :: i in g.Faces() <==> g.startFace <= i <= g.endFace
  {
    RangeSize(g.startFace, g.endFace);
  }

  /** `COLModel`. The section offsets and counts the version 2/3 decoder keeps
      while it works are not part of the model (see `ColDecoder.Layout`). */
  datatype Model = Model(
    signature: seq<byte>,
    version: Version,
    fileSize: nat,
    name: string,
    modelId: nat,
    boundingBox: BoundingBox,
    spheres: seq<Sphere>,
    boxes: seq<Box>,
    vertices: seq<Vertex>,
    faces: seq<Face>,
    faceGroups: seq<FaceGroup>,
    shadowVertices: seq<Vertex>,
    shadowFaces: seq<Face>,
    flags: nat,
    hasFaceGroups: bool,
    hasShadowMesh: bool)

  /** The four bytes `COLL`. */
  const TagColl: seq<byte> := [0x43, 0x4F, 0x4C, 0x4C]

  /** `COLModel()`: version 1, no geometry, no flags. */
  function NewModel(): Model
  {
    Model(TagColl, Col1, 0, "", 0, DefaultBoundingBox(), [], [], [], [], [], [], [], 0, false, false)
  }

  /** The largest vertex index any face names, 0 when there are no faces:
      the loop `max_idx = max(max_idx, face.a, face.b, face.c)`. */
  function MaxIndex(faces: seq<Face>): nat
  {
    if |faces| == 0 then 0
    else
      var prev := MaxIndex(faces[..|faces| - 1]);
      var (a, b, c) := faces[|faces| - 1].VertexIndices();
      Max(Max(prev, a), Max(b, c))
  }

  function Max(x: nat, y: nat): nat
  {
    if x < y then y else x
  }

  /** Every face index is at most `MaxIndex`, and a non-empty face list names it. */
  lemma {:induction false} MaxIndexBounds(faces: seq<Face>)
    ensures forall k :: 0 <= k < |faces| ==>
              faces[k].a <= MaxIndex(faces) && faces[k].b <= MaxIndex(faces) && faces[k].c <= MaxIndex(faces)
    ensures |faces| > 0 ==> exists k :: 0 <= k < |faces| && MaxIndex(faces) in {faces[k].a, faces[k].b, faces[k].c}
  {
    if |faces| > 0 {
      var init := faces[..|faces| - 1];
      MaxIndexBounds(init);
      assert forall k :: 0 <= k < |init| ==> faces[k] == init[k];
      var last := |faces| - 1;
      if |init| > 0 && MaxIndex(faces) == MaxIndex(init) {
        var k :| 0 <= k < |init| && MaxIndex(init) in {init[k].a, init[k].b, init[k].c};
        assert faces[k] == init[k];
      } else {
        assert MaxIndex(faces) in {faces[last].a, faces[last].b, faces[last].c};
      }
    }
  }

  /** The vertex count the version 2/3 decoder derives, `1 + MaxIndex`, is the
      smallest count under which every face index is in range. */
  lemma DerivedVertexCountIsLeast(faces: seq<Face>)
    requires |faces| > 0
    ensures forall k :: 0 <= k < |faces| ==>
              faces[k].a < MaxIndex(faces) + 1 && faces[k].b < MaxIndex(faces) + 1 && faces[k].c < MaxIndex(faces) + 1
    ensures exists k :: 0 <= k < |faces| &&
              !(faces[k].a < MaxIndex(faces) && faces[k].b < MaxIndex(faces) && faces[k].c < MaxIndex(faces))
  {
    MaxIndexBounds(faces);
  }
}
