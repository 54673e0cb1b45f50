/** Properties of one decoded model: the bytes it occupies, when it decodes
    at all, the vertex counts derived from the faces, when the optional
    sections are read, where the face-group table lies, and the header slots
    that are read but never used. */
module ColModelProperties {
  import opened Bytes
  import opened RecordSections
  import opened ColDataStructures
  import opened ColRecords
  import opened ColDecoder

  // --------------------------------------------------------------- sections

  /** `_parse_spheres`: 20 bytes per sphere in every version; the section
      decodes exactly when all of it fits, and then holds `count` spheres
      and ends `20·count` bytes on. */
  lemma SpheresSection(data: seq<byte>, off: nat, count: nat, version: Version)
    ensures var r := Spheres(data, off, count, version);
            (r.Ok? <==> count == 0 || off + 20 * count <= |data|) &&
            (r.Ok? ==> |r.value.0| == count && r.value.1 == off + 20 * count)
  {
    var rec := SphereRecord(version);
    forall o: int | 0 <= o
      ensures rec(data, o).Ok? <==> o + 20 <= |data|
    {
      assert rec(data, o) == SphereAt(data, o, version) || rec(data, o) == SphereAt(data, o, Col2);
    }
    RecordsFitIff(data, off, count, 20, rec);
  }

  /** `_parse_boxes`: `count` boxes ending `32·count` bytes on in version 1
      and `28·count` otherwise. A version 2/3 box reads only the first 25
      bytes of its slot, so the section decodes exactly when the read of the
      last box fits. */
  lemma BoxesSection(data: seq<byte>, off: nat, count: nat, version: Version)
    ensures var r := Boxes(data, off, count, version);
            var width := if version == Col1 then 32 else 28;
            (r.Ok? <==> count == 0 || off + width * (count - 1) + BoxReadSize(version) <= |data|) &&
            (r.Ok? ==> |r.value.0| == count && r.value.1 == off + width * count)
  {
    var rec := BoxRecord(version);
    forall o: int | 0 <= o
      ensures rec(data, o).Ok? <==> o + BoxReadSize(version) <= |data|
    {
      assert rec(data, o) == BoxAt(data, o, version) || (version != Col1 && rec(data, o) == BoxAt(data, o, Col2));
    }
    RecordsReadFitIff(data, off, count, BoxSize(version), BoxReadSize(version), rec);
    if count > 0 {
      assert BoxSize(version) * (count - 1) == (count - 1) * BoxSize(version);
    }
  }

  /** `_parse_vertices_col1`: 12 bytes per vertex. */
  lemma VerticesCol1Section(data: seq<byte>, off: nat, count: nat)
    ensures var r := VerticesCol1(data, off, count);
            (r.Ok? <==> count == 0 || off + 12 * count <= |data|) &&
            (r.Ok? ==> |r.value.0| == count && r.value.1 == off + 12 * count)
  {
    RecordsFitIff(data, off, count, 12, VertexCol1At);
  }

  /** `_parse_vertices_col23`: 6 bytes per vertex, then two bytes of padding
      exactly when `6·count` is not a multiple of 4. */
  lemma VerticesCol23Section(data: seq<byte>, off: nat, count: nat)
    ensures var r := VerticesCol23(data, off, count);
            (r.Ok? <==> count == 0 || off + 6 * count <= |data|) &&
            (r.Ok? ==> |r.value.0| == count &&
                       r.value.1 == off + 6 * count + (if (6 * count) % 4 != 0 then 2 else 0))
  {
    RecordsFitIff(data, off, count, 6, VertexCol23At);
    assert count * 6 == 6 * count;
  }

  /** `_parse_faces_col1`: `count` faces ending `16·count` bytes on. Each
      face reads only the first 14 bytes of its slot, so the section decodes
      exactly when the read of the last face fits. */
  lemma FacesCol1Section(data: seq<byte>, off: nat, count: nat)
    ensures var r := FacesCol1(data, off, count);
            (r.Ok? <==> count == 0 || off + 16 * (count - 1) + 14 <= |data|) &&
            (r.Ok? ==> |r.value.0| == count && r.value.1 == off + 16 * count)
  {
    RecordsReadFitIff(data, off, count, 16, 14, FaceCol1At);
    if count > 0 {
      assert 16 * (count - 1) == (count - 1) * 16;
    }
  }

  /** `_parse_faces_col23`: 8 bytes per face. */
  lemma FacesCol23Section(data: seq<byte>, off: nat, count: nat)
    ensures var r := FacesCol23(data, off, count);
            (r.Ok? <==> count == 0 || off + 8 * count <= |data|) &&
            (r.Ok? ==> |r.value.0| == count && r.value.1 == off + 8 * count)
  {
    RecordsFitIff(data, off, count, 8, FaceCol23At);
  }

  /** A version 2/3 vertex is its three signed 16-bit components divided by
      128: the bytes of 128, 256 and -128 give (1, 2, -1). */
  lemma FixedPointVertex()
    ensures VertexCol23At(EncodeI16(128) + EncodeI16(256) + EncodeI16(-128), 0) == Ok(Vertex(Vec(1.0, 2.0, -1.0)))
  {
    var data := EncodeI16(128) + EncodeI16(256) + EncodeI16(-128);
    SignedEncodeI16(128);
    SignedEncodeI16(256);
    SignedEncodeI16(-128);
    LEOfSlice(data, 0, 2);
    LEOfSlice(data, 2, 2);
    LEOfSlice(data, 4, 2);
    assert data[0..2] == EncodeI16(128) && data[2..4] == EncodeI16(256) && data[4..6] == EncodeI16(-128);
  }

  // ------------------------------------------------------------- version 1

  /** A version 1 model decodes exactly when its 72-byte header fits. When
      its body decodes without error it occupies 92 bytes plus 20 per sphere,
      32 per box, 12 per vertex and 16 per face; when the body fails part way
      the model is still returned, with one error. */
  lemma Col1Consumed(data: seq<byte>, off: nat, rule: ConsumedRule)
    requires off + 4 <= |data| && SignatureVersion(data[off..off + 4]) == Some(Col1)
    ensures var d := DecodeModel(data, off, rule);
            (d.model.Some? <==> off + 72 <= |data|)
            && (d.model.Some? && d.errors == [] ==>
                  var m := d.model.value;
                  d.consumed == 92 + 20 * |m.spheres| + 32 * |m.boxes| + 12 * |m.vertices| + 16 * |m.faces|)
            && (d.model.Some? && d.errors != [] ==> |d.errors| == 1 && d.errors[0].Col1BodyError? && d.consumed >= 72)
            && (d.model.None? ==> |d.errors| == 1 && d.errors[0].Col1HeaderError?)
  {
    var d := DecodeModel(data, off, rule);
    assert d == DecodeCol1(data, off);
    var h := Col1Header(data, off);
    if h.Ok? {
      var s := Col1Body(data, h.value.1, h.value.0);
      assert d == Decoded(Some(s.model), s.offset - off, s.errors);
    }
  }

  /** A version 1 model whose name field holds an ASCII name without NUL,
      padded with zeros, decodes to that name. */
  lemma Col1NameField(data: seq<byte>, off: nat, name: string)
    requires off + 72 <= |data|
    requires |name| <= 22
    requires forall k :: 0 <= k < |name| ==> 0 as char < name[k] < 128 as char && data[off + 8 + k] == name[k] as int
    requires forall k :: off + 8 + |name| <= k < off + 30 ==> data[k] == 0
    ensures Col1Header(data, off).Ok? && Col1Header(data, off).value.0.name == name
  {
    CStringOfField(data[off + 8..off + 30], name);
  }

  // --------------------------------------------------------- versions 2/3

  /** A version 2, 3 or 4 model decodes exactly when its header fits, and
      then always yields a model. Read from the header cursor, it occupies
      108 bytes (120 in version 3) whatever its sections hold; read from the
      size field, 8 + size bytes. */
  lemma Col23Consumed(data: seq<byte>, off: nat, rule: ConsumedRule, version: Version)
    requires version != Col1
    requires off + 4 <= |data| && SignatureVersion(data[off..off + 4]) == Some(version)
    ensures var d := DecodeModel(data, off, rule);
            (d.model.Some? <==> off + HeaderSize(version) <= |data|)
            && (d.model.Some? && rule == HeaderCursor ==> d.consumed == HeaderSize(version))
            && (d.model.Some? && rule == SizeField ==> d.consumed == 8 + LE(data, off + 4, 4))
            && (d.model.None? ==> |d.errors| == 1 && d.errors[0].Col23HeaderError?)
  {
    var d := DecodeModel(data, off, rule);
    assert d == DecodeCol23(data, off, version, rule);
  }

  /** The header of a version 2/3 model as produced by `Col23Header`: no
      sections decoded yet. */
  predicate Fresh(m: Model)
  {
    m.spheres == [] && m.boxes == [] && m.vertices == [] && m.faces == [] && m.faceGroups == []
    && m.shadowVertices == [] && m.shadowFaces == []
  }

  /** Every face of `faces` names only vertices below `count`. */
  predicate IndicesBelow(faces: seq<Face>, count: nat)
  {
    forall k :: 0 <= k < |faces| ==> faces[k].a < count && faces[k].b < count && faces[k].c < count
  }

  /** A mesh read with a derived vertex count: the faces are the `count`
      records at `facesAt`, the vertices are the records at `verticesAt`,
      one more than the largest index the faces name, so every index is in
      range and no smaller count would do. */
  lemma DerivedMeshFacts(data: seq<byte>, facesAt: nat, verticesAt: nat, count: nat)
    ensures var r := DerivedMesh(data, facesAt, verticesAt, count);
            r.Ok? ==>
              var (vertices, faces) := r.value;
              FacesCol23(data, facesAt, count) == Ok((faces, facesAt + 8 * count))
              && |faces| == count
              && |vertices| == MaxIndex(faces) + 1
              && VerticesCol23(data, verticesAt, |vertices|).Ok?
              && VerticesCol23(data, verticesAt, |vertices|).value.0 == vertices
              && IndicesBelow(faces, |vertices|)
              && (count > 0 ==> !IndicesBelow(faces, MaxIndex(faces)))
  {
    var r := DerivedMesh(data, facesAt, verticesAt, count);
    if r.Ok? && count > 0 {
      var faces := FacesCol23(data, facesAt, count).value.0;
      assert r.value.1 == faces;
      DerivedVertexCountIsLeast(faces);
    }
  }

  /** The main mesh of a version 2/3 body: with no faces nothing is read;
      otherwise the vertices and faces are the derived mesh at `base +
      offFaces` and `base + offVertices`, and the groups are present only
      when flag bit 3 is set. */
  lemma Col23MeshFacts(data: seq<byte>, m: Model, l: Layout)
    ensures var r := Col23Mesh(data, m, l);
            r.Ok? ==>
              var mesh := r.value.0;
              (l.numFaces == 0 ==> mesh == m && r.value.1 == [])
              && (l.numFaces > 0 ==>
                    DerivedMesh(data, l.base + l.offFaces, l.base + l.offVertices, l.numFaces)
                      == Ok((mesh.vertices, mesh.faces))
                    && (m.hasFaceGroups ==> (mesh.faceGroups, r.value.1) == FaceGroups(data, l.base + l.offFaces))
                    && (!m.hasFaceGroups ==> mesh.faceGroups == m.faceGroups && r.value.1 == []))
  {
  }

  /** The shadow mesh: read only for a model marked as having one (which
      only version 3 can be) with a non-zero shadow face count, and then as
      the derived mesh at the shadow offsets. */
  lemma Col23ShadowFacts(data: seq<byte>, m: Model, l: Layout)
    ensures var r := Col23Shadow(data, m, l);
            r.Ok? ==>
              var s := r.value;
              (!(m.hasShadowMesh && l.numShadowFaces > 0) ==> s == m)
              && (m.hasShadowMesh && l.numShadowFaces > 0 ==>
                    DerivedMesh(data, l.base + l.offShadowFaces, l.base + l.offShadowVertices, l.numShadowFaces)
                      == Ok((s.shadowVertices, s.shadowFaces)))
  {
  }

  // ------------------------------------------------------------ face groups

  /** The face-group table holds the count read 4 bytes before the face
      array, and its records end exactly where that count begins. */
  lemma FaceGroupTableIsRecords(data: seq<byte>, faceOffset: int)
    requires FaceGroupTable(data, faceOffset).Ok?
    ensures var count := U32(data, faceOffset - 4);
            count.Ok?
            && Records(data, faceOffset - 4 - 28 * count.value, count.value, 28, FaceGroupAt)
               == Ok((FaceGroupTable(data, faceOffset).value, faceOffset - 4))
  {
  }

  /** Record `i` of the face-group table is the one at
      `faceOffset - 4 - 28 * count + 28 * i`. */
  lemma FaceGroupTableLayout(data: seq<byte>, faceOffset: int)
    requires FaceGroupTable(data, faceOffset).Ok?
    ensures var groups := FaceGroupTable(data, faceOffset).value;
            var count := U32(data, faceOffset - 4);
            count.Ok? && |groups| == count.value
            && forall i :: 0 <= i < |groups| ==>
                 Slot(data, faceOffset - 4 - 28 * count.value, 28, FaceGroupAt, i)
                 == Ok(groups[i])
  {
    FaceGroupTableIsRecords(data, faceOffset);
    var count := U32(data, faceOffset - 4).value;
    RecordsSlots(data, faceOffset - 4 - 28 * count, count, 28, FaceGroupAt);
  }

  /** A table that would start before offset 0 is never decoded: some record
      reaches across offset 0, so the groups are empty and one error is
      recorded. */
  lemma NegativeFaceGroupTable(data: seq<byte>, faceOffset: int)
    requires 4 <= faceOffset
    requires U32(data, faceOffset - 4).Ok?
    requires faceOffset - 4 - 28 * U32(data, faceOffset - 4).value < 0
    ensures FaceGroupTable(data, faceOffset).Err?
    ensures FaceGroups(data, faceOffset).0 == [] && |FaceGroups(data, faceOffset).1| == 1
  {
    var count := U32(data, faceOffset - 4).value;
    var start := faceOffset - 4 - 28 * count;
    var i := (-start - 1) / 28;
    assert start + 28 * i < 0 <= start + 28 * i + 28;
    FaceGroupAcrossZeroFails(data, start + i * 28);
    RecordsFailsAt(data, start, count, 28, FaceGroupAt, i);
  }
}
