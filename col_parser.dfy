/** `COLParser` (apps/methods/col_parser.py) as the source runs it: a parser
    object whose `errors` list grows as it goes, methods that move a cursor
    through the buffer one `struct.unpack` at a time, and the `while` loop
    over the models of a file. Each method is proved to compute the
    corresponding function of `ColDecoder` and to append exactly the errors
    that function lists. */
module ColParser {
  import opened Bytes
  import opened RecordSections
  import opened ColDataStructures
  import opened ColRecords
  import opened ColDecoder
  import opened ColProperties

  /** The 32 bytes both header layouts start with. */
  datatype Identity = Identity(signature: seq<byte>, fileSize: nat, name: string, modelId: nat)

  /** Tag, size, name and id, read at a cursor: the tag and the name are
      slices, which never raise; the size and the id are unpacked. */
  method ReadIdentity(data: seq<byte>, offset: nat) returns (r: Result<Identity>)
    ensures r.Ok? <==> offset + 32 <= |data|
    ensures r.Err? ==> r.fault == RecordAt(data, offset, 32, IdentityFields).fault
    ensures r.Ok? ==>
              r.value == Identity(data[offset..offset + 4], LE(data, offset + 4, 4),
                                  CString(data[offset + 8..offset + 30]), LE(data, offset + 30, 2))
  {
    IdentityLayout();
    var cur := offset;
    var signature := Slice(data, cur, cur + 4);
    cur := cur + 4;
    FirstShortRead(data, offset, 32, IdentityFields, 0);
    var fileSize :- U32(data, cur);
    cur := cur + 4;
    var name := CString(Slice(data, cur, cur + 22));
    cur := cur + 22;
    FirstShortRead(data, offset, 32, IdentityFields, 1);
    var modelId :- U16(data, cur);
    return Ok(Identity(signature, fileSize, name, modelId));
  }

  /** The `try` block of `_parse_col1_header`, on a fresh model. */
  method ReadCol1Header(data: seq<byte>, offset: nat) returns (r: Result<(Model, nat)>)
    ensures r == Col1Header(data, offset)
  {
    var id :- ReadIdentity(data, offset);
    var bounds :- ParseBoundingBoxCol1(data, offset + 32);
    var model := NewModel().(signature := id.signature, fileSize := id.fileSize, name := id.name,
                             modelId := id.modelId, boundingBox := bounds.0);
    return Ok((model, bounds.1));
  }

  /** The five count reads at +72 of a version 2/3 header, at a cursor:
      spheres, boxes and faces; the wheel count and the padding byte are
      read and dropped. */
  method ReadCounts(data: seq<byte>, at: nat) returns (r: Result<(nat, nat, nat)>)
    ensures r.Ok? <==> at + 8 <= |data|
    ensures r.Err? ==> r.fault == RecordAt(data, at, 8, CountFields).fault
    ensures r.Ok? ==> r.value == (LE(data, at, 2), LE(data, at + 2, 2), LE(data, at + 4, 2))
  {
    CountLayout();
    FirstShortRead(data, at, 8, CountFields, 0);
    var numSpheres :- U16(data, at);
    FirstShortRead(data, at, 8, CountFields, 1);
    var numBoxes :- U16(data, at + 2);
    FirstShortRead(data, at, 8, CountFields, 2);
    var numFaces :- U16(data, at + 4);
    FirstShortRead(data, at, 8, CountFields, 3);
    var numWheels :- U8(data, at + 6);
    FirstShortRead(data, at, 8, CountFields, 4);
    var padding :- U8(data, at + 7);
    return Ok((numSpheres, numBoxes, numFaces));
  }

  /** The section offsets that the body dereferences. */
  datatype Offsets = Offsets(spheres: nat, boxes: nat, vertices: nat, faces: nat)

  /** The six offset reads at +84, at a cursor; the suspension and planes
      offsets are read and dropped. */
  method ReadOffsets(data: seq<byte>, at: nat) returns (r: Result<Offsets>)
    ensures r.Ok? <==> at + 24 <= |data|
    ensures r.Err? ==> r.fault == RecordAt(data, at, 24, OffsetFields).fault
    ensures r.Ok? ==> r.value == Offsets(LE(data, at, 4), LE(data, at + 4, 4), LE(data, at + 12, 4), LE(data, at + 16, 4))
  {
    OffsetLayout();
    FirstShortRead(data, at, 24, OffsetFields, 0);
    var offSpheres :- U32(data, at);
    FirstShortRead(data, at, 24, OffsetFields, 1);
    var offBoxes :- U32(data, at + 4);
    FirstShortRead(data, at, 24, OffsetFields, 2);
    var offSuspension :- U32(data, at + 8);
    FirstShortRead(data, at, 24, OffsetFields, 3);
    var offVertices :- U32(data, at + 12);
    FirstShortRead(data, at, 24, OffsetFields, 4);
    var offFaces :- U32(data, at + 16);
    FirstShortRead(data, at, 24, OffsetFields, 5);
    var offPlanes :- U32(data, at + 20);
    return Ok(Offsets(offSpheres, offBoxes, offVertices, offFaces));
  }

  /** Version 3's three extra reads at +108: the shadow face count and the
      shadow vertex and face offsets. */
  method ReadShadowFields(data: seq<byte>, at: nat) returns (r: Result<(nat, nat, nat)>)
    ensures r.Ok? <==> at + 12 <= |data|
    ensures r.Err? ==> r.fault == RecordAt(data, at, 12, ShadowFields).fault
    ensures r.Ok? ==> r.value == (LE(data, at, 4), LE(data, at + 4, 4), LE(data, at + 8, 4))
  {
    ShadowLayout();
    FirstShortRead(data, at, 12, ShadowFields, 0);
    var numShadowFaces :- U32(data, at);
    FirstShortRead(data, at, 12, ShadowFields, 1);
    var offShadowVertices :- U32(data, at + 4);
    FirstShortRead(data, at, 12, ShadowFields, 2);
    var offShadowFaces :- U32(data, at + 8);
    return Ok((numShadowFaces, offShadowVertices, offShadowFaces));
  }

  /** The `try` block of `_parse_col23_header`, on a fresh model of `version`:
      the shared 32 bytes and the bounding volume, then the rest. */
  method ReadCol23Header(data: seq<byte>, offset: nat, version: Version) returns (r: Result<Col23Head>)
    ensures r == Col23Header(data, offset, version)
  {
    var id :- ReadIdentity(data, offset);
    var bounds :- ParseBoundingBoxCol23(data, offset + 32);
    r := ReadCol23HeaderTail(data, offset, id, bounds.0, version);
  }

  /** The counts, the flags, the section offsets and, in version 3 only,
      the shadow fields, read at the cursor 72 bytes into the header. The
      offsets are kept relative to the byte after the tag. */
  method ReadCol23HeaderTail(data: seq<byte>, offset: nat, id: Identity, bounds: BoundingBox, version: Version)
    returns (r: Result<Col23Head>)
    requires offset + 32 <= |data|
    requires id == Identity(data[offset..offset + 4], LE(data, offset + 4, 4),
                            CString(data[offset + 8..offset + 30]), LE(data, offset + 30, 2))
    ensures r == Col23HeaderTail(data, offset, bounds, version)
  {
    var cur := offset + 72;
    var counts :- ReadCounts(data, cur);
    cur := cur + 8;
    var flags :- U32(data, cur);
    cur := cur + 4;
    var hasFaceGroups := FlagSet(flags, 8);
    var hasShadowMesh := FlagSet(flags, 16) && version == Col3;
    var base := offset + 4;
    var offsets :- ReadOffsets(data, cur);
    cur := cur + 24;
    var shadow := (0, 0, 0);
    if version == Col3 {
      shadow :- ReadShadowFields(data, cur);
      cur := cur + 12;
    }
    var model := NewModel().(signature := id.signature, version := version, fileSize := id.fileSize,
                             name := id.name, modelId := id.modelId, boundingBox := bounds,
                             flags := flags, hasFaceGroups := hasFaceGroups, hasShadowMesh := hasShadowMesh);
    var layout := Layout(base, counts.0, counts.1, counts.2, shadow.0,
                         offsets.spheres, offsets.boxes, offsets.vertices, offsets.faces, shadow.1, shadow.2);
    return Ok(Col23Head(model, layout, cur));
  }

  /** `COLParser`: the decoding methods share one `errors` list, which only
      ever grows. */
  method ReadCol23Spheres(data: seq<byte>, m: Model, l: Layout) returns (r: Result<Model>)
    ensures r == Col23Spheres(data, m, l)
  {
    if l.numSpheres > 0 {
      var spheres := ParseSpheres(data, l.base + l.offSpheres, l.numSpheres, m.version);
      if spheres.Err? {
        return Err(spheres.fault);
      }
      return Ok(m.(spheres := spheres.value.0));
    }
    return Ok(m);
  }

  method ReadCol23Boxes(data: seq<byte>, m: Model, l: Layout) returns (r: Result<Model>)
    ensures r == Col23Boxes(data, m, l)
  {
    if l.numBoxes > 0 {
      var boxes := ParseBoxes(data, l.base + l.offBoxes, l.numBoxes, m.version);
      if boxes.Err? {
        return Err(boxes.fault);
      }
      return Ok(m.(boxes := boxes.value.0));
    }
    return Ok(m);
  }

  method ReadDerivedMesh(data: seq<byte>, facesAt: nat, verticesAt: nat, count: nat)
    returns (r: Result<(seq<Vertex>, seq<Face>)>)
    ensures r == DerivedMesh(data, facesAt, verticesAt, count)
  {
    var faces := ParseFacesCol23(data, facesAt, count);
    if faces.Err? {
      return Err(faces.fault);
    }
    var maxIdx := MaxVertexIndex(faces.value.0);
    var vertices := ParseVerticesCol23(data, verticesAt, maxIdx + 1);
    if vertices.Err? {
      return Err(vertices.fault);
    }
    return Ok((vertices.value.0, faces.value.0));
  }

  method ReadCol23Shadow(data: seq<byte>, m: Model, l: Layout) returns (r: Result<Model>)
    ensures r == Col23Shadow(data, m, l)
  {
    if m.hasShadowMesh && l.numShadowFaces > 0 {
      var mesh := ReadDerivedMesh(data, l.base + l.offShadowFaces, l.base + l.offShadowVertices, l.numShadowFaces);
      if mesh.Err? {
        return Err(mesh.fault);
      }
      return Ok(m.(shadowVertices := mesh.value.0, shadowFaces := mesh.value.1));
    }
    return Ok(m);
  }

  lemma AppendAssoc<T>(a: seq<T>, b: seq<T>, c: seq<T>)
    ensures (a + b) + c == a + (b + c)
  {
  }

  /** The reads inside the `try` of `_parse_face_groups`: the count 4 bytes
      before the faces, then that many 28-byte records before the count,
      each at its own offset. */
  method ReadFaceGroupTable(data: seq<byte>, faceOffset: int) returns (r: Result<seq<FaceGroup>>)
    ensures r == FaceGroupTable(data, faceOffset)
  {
    var countOffset := faceOffset - 4;
    var numGroups := U32(data, countOffset);
    if numGroups.Err? {
      return Err(numGroups.fault);
    }
    var count := numGroups.value;
    var groupsOffset := countOffset - count * 28;
    assert groupsOffset == countOffset - 28 * count;
    var groups := [];
    for i := 0 to count
      invariant Records(data, groupsOffset, i, 28, FaceGroupAt) == Ok((groups, groupsOffset + i * 28))
    {
      var offset := groupsOffset + i * 28;
      var group := FaceGroupAt(data, offset);
      RecordsStep(data, groupsOffset, i, 28, FaceGroupAt, groups, offset);
      if group.Err? {
        RecordsErrPersists(data, groupsOffset, i + 1, count, 28, FaceGroupAt);
        return Err(group.fault);
      }
      groups := groups + [group.value];
    }
    return Ok(groups);
  }

  /** `decode` gives what `parse_col_model` gives at every offset. The
      equation is only brought out for an offset the file loop has just
      decoded, so that the loop does not look ahead. */
  ghost predicate DecodesAs(data: seq<byte>, rule: ConsumedRule, decode: nat -> Decoded)
  {
    forall o: nat {:trigger DecodeModel(data, o, rule)} :: decode(o) == DecodeModel(data, o, rule)
  }

  /** The decoder `parse_col_file` applies, with the loop it starts. */
  lemma DecoderOf(data: seq<byte>, rule: ConsumedRule) returns (decode: nat -> Decoded)
    ensures DecodesAs(data, rule, decode)
    ensures FileLoop(data, decode, 0, 0, FileScan([], [], [])) == ParseFile(data, rule)
  {
    decode := ModelDecoder(data, rule);
  }

  class Parser {
    var errors: seq<ParseError>

    constructor()
      ensures errors == []
    {
      errors := [];
    }

    /** `_parse_col1_header`: a read that fails is caught and adds one error. */
    method ParseCol1Header(data: seq<byte>, offset: nat) returns (r: Result<(Model, nat)>)
      modifies this
      ensures r == Col1Header(data, offset)
      ensures errors == old(errors) + (if r.Ok? then [] else [Col1HeaderError(r.fault)])
    {
      r := ReadCol1Header(data, offset);
      if r.Err? {
        errors := errors + [Col1HeaderError(r.fault)];
      }
    }

    /** `_parse_col23_header`: a read that fails is caught and adds one error. */
    method ParseCol23Header(data: seq<byte>, offset: nat, version: Version) returns (r: Result<Col23Head>)
      modifies this
      ensures r == Col23Header(data, offset, version)
      ensures errors == old(errors) + (if r.Ok? then [] else [Col23HeaderError(r.fault)])
    {
      r := ReadCol23Header(data, offset, version);
      if r.Err? {
        errors := errors + [Col23HeaderError(r.fault)];
      }
    }

    /** `_parse_col1_body`: each count, then its section, at a cursor. The
        first read that fails is caught: the sections assigned so far are
        kept, the cursor stays where that read began, and one error is added. */
    method ParseCol1Body(data: seq<byte>, offset: nat, model: Model) returns (m: Model, next: int)
      modifies this
      ensures var s := Col1Body(data, offset, model);
              m == s.model && next == s.offset && errors == old(errors) + s.errors
    {
      m, next := model, offset;
      var numSpheres := U32(data, next);
      if numSpheres.Err? {
        errors := errors + [Col1BodyError(numSpheres.fault)];
        return;
      }
      next := next + 4;
      var spheres := ParseSpheres(data, next, numSpheres.value, Col1);
      if spheres.Err? {
        errors := errors + [Col1BodyError(spheres.fault)];
        return;
      }
      m, next := m.(spheres := spheres.value.0), spheres.value.1;
      var numUnknown := U32(data, next);
      if numUnknown.Err? {
        errors := errors + [Col1BodyError(numUnknown.fault)];
        return;
      }
      next := next + 4;
      var numBoxes := U32(data, next);
      if numBoxes.Err? {
        errors := errors + [Col1BodyError(numBoxes.fault)];
        return;
      }
      next := next + 4;
      var boxes := ParseBoxes(data, next, numBoxes.value, Col1);
      if boxes.Err? {
        errors := errors + [Col1BodyError(boxes.fault)];
        return;
      }
      m, next := m.(boxes := boxes.value.0), boxes.value.1;
      var numVertices := U32(data, next);
      if numVertices.Err? {
        errors := errors + [Col1BodyError(numVertices.fault)];
        return;
      }
      next := next + 4;
      var vertices := ParseVerticesCol1(data, next, numVertices.value);
      if vertices.Err? {
        errors := errors + [Col1BodyError(vertices.fault)];
        return;
      }
      m, next := m.(vertices := vertices.value.0), vertices.value.1;
      var numFaces := U32(data, next);
      if numFaces.Err? {
        errors := errors + [Col1BodyError(numFaces.fault)];
        return;
      }
      next := next + 4;
      var faces := ParseFacesCol1(data, next, numFaces.value);
      if faces.Err? {
        errors := errors + [Col1BodyError(faces.fault)];
        return;
      }
      m, next := m.(faces := faces.value.0), faces.value.1;
    }

    /** `_parse_face_groups`: the count 4 bytes before the faces, then that
        many 28-byte records before the count, each at its own offset. Any
        read that fails is caught: no groups, and one error. */
    method ParseFaceGroups(data: seq<byte>, faceOffset: int) returns (groups: seq<FaceGroup>)
      modifies this
      ensures var g := FaceGroups(data, faceOffset); groups == g.0 && errors == old(errors) + g.1
    {
      var table := ReadFaceGroupTable(data, faceOffset);
      if table.Err? {
        errors := errors + [FaceGroupError(table.fault)];
        return [];
      }
      return table.value;
    }

    /** `_parse_col23_body`: each section at `base` plus its offset, when its
        count is non-zero; the faces first, so that the vertex count can be
        derived from them; the face groups when flag bit 3 is set; the
        shadow mesh likewise. A read that fails is caught: the sections
        assigned so far are kept and one error is added. */
    method ParseCol23Body(data: seq<byte>, model: Model, l: Layout) returns (m: Model)
      modifies this
      ensures var b := Col23Body(data, model, l); m == b.0 && errors == old(errors) + b.1
    {
      m := model;
      var spheres := ReadCol23Spheres(data, m, l);
      if spheres.Err? {
        errors := errors + [Col23BodyError(spheres.fault)];
        return;
      }
      m := spheres.value;
      var boxes := ReadCol23Boxes(data, m, l);
      if boxes.Err? {
        errors := errors + [Col23BodyError(boxes.fault)];
        return;
      }
      m := boxes.value;
      var mesh := ParseCol23Mesh(data, m, l);
      if mesh.Err? {
        errors := errors + [Col23BodyError(mesh.fault)];
        return;
      }
      m := mesh.value;
      var shadow := ReadCol23Shadow(data, m, l);
      if shadow.Err? {
        errors := errors + [Col23BodyError(shadow.fault)];
        return;
      }
      m := shadow.value;
    }

    /** The main mesh of `_parse_col23_body`, with its face groups. */
    method ParseCol23Mesh(data: seq<byte>, model: Model, l: Layout) returns (r: Result<Model>)
      modifies this
      ensures var x := Col23Mesh(data, model, l);
              (r.Ok? <==> x.Ok?)
              && (r.Ok? ==> r.value == x.value.0 && errors == old(errors) + x.value.1)
              && (r.Err? ==> r.fault == x.fault && errors == old(errors))
    {
      var m := model;
      if l.numFaces > 0 {
        var vertexOffset := l.base + l.offVertices;
        var faceOffset := l.base + l.offFaces;
        var mesh := ReadDerivedMesh(data, faceOffset, vertexOffset, l.numFaces);
        if mesh.Err? {
          return Err(mesh.fault);
        }
        m := m.(vertices := mesh.value.0, faces := mesh.value.1);
        if m.hasFaceGroups {
          var groups := ParseFaceGroups(data, faceOffset);
          m := m.(faceGroups := groups);
        }
      }
      return Ok(m);
    }

    /** `_parse_col1_model`: the header, then the body; no model when the
        header fails, otherwise the model and the cursor, even when the body
        stopped early. */
    method ParseCol1Model(data: seq<byte>, offset: nat) returns (r: Option<(Model, nat)>)
      modifies this
      ensures var d := DecodeCol1(data, offset);
              (r.Some? <==> d.model.Some?)
              && (r.Some? ==> r.value == (d.model.value, offset + d.consumed))
              && errors == old(errors) + d.errors
    {
      var header := ParseCol1Header(data, offset);
      if header.Err? {
        return None;
      }
      var model, next := ParseCol1Body(data, header.value.1, header.value.0);
      return Some((model, next));
    }

    /** `_parse_col23_model`: the header, then the body at the header's
        offsets. What comes back as the cursor is the header cursor
        (`HeaderCursor`, as the source returns it) or the offset 8 + size
        bytes on (`SizeField`, as the comment above that return says). */
    method ParseCol23Model(data: seq<byte>, offset: nat, version: Version, rule: ConsumedRule)
      returns (r: Option<(Model, nat)>)
      modifies this
      ensures var d := DecodeCol23(data, offset, version, rule);
              (r.Some? <==> d.model.Some?)
              && (r.Some? ==> r.value == (d.model.value, offset + d.consumed))
              && errors == old(errors) + d.errors
    {
      var header := ParseCol23Header(data, offset, version);
      if header.Err? {
        return None;
      }
      var model := ParseCol23Body(data, header.value.model, header.value.layout);
      var next := if rule == HeaderCursor then header.value.next else offset + 8 + header.value.model.fileSize;
      return Some((model, next));
    }

    /** `parse_col_model`: the signature selects the version; fewer than 4
        bytes or an unknown signature give no model and consume nothing. */
    method ParseColModel(data: seq<byte>, offset: nat, rule: ConsumedRule) returns (model: Option<Model>, consumed: nat)
      modifies this
      ensures var d := DecodeModel(data, offset, rule);
              model == d.model && consumed == d.consumed && errors == old(errors) + d.errors
    {
      if offset + 4 > |data| {
        return None, 0;
      }
      var known := SignatureVersion(data[offset..offset + 4]);
      if known.None? {
        return None, 0;
      }
      var version := known.value;
      var r: Option<(Model, nat)>;
      if version == Col1 {
        r := ParseCol1Model(data, offset);
      } else {
        r := ParseCol23Model(data, offset, version, rule);
      }
      if r.Some? {
        return Some(r.value.0), r.value.1 - offset;
      }
      return None, 0;
    }

    /** `parse_col_model` as the file loop calls it, stated through `decode`. */
    method ParseModelAt(data: seq<byte>, offset: nat, rule: ConsumedRule, ghost decode: nat -> Decoded)
      returns (model: Option<Model>, consumed: nat)
      modifies this
      requires DecodesAs(data, rule, decode)
      ensures var d := decode(offset);
              model == d.model && consumed == d.consumed && errors == old(errors) + d.errors
    {
      model, consumed := ParseColModel(data, offset, rule);
    }

    /** `parse_col_file` on a buffer already read: models one after the
        other from offset 0 while 8 bytes remain and a known signature is
        found, stopping at the first model that fails and after the 201st. */
    method ParseColFile(data: seq<byte>, rule: ConsumedRule) returns (models: seq<Model>, errs: seq<ParseError>)
      modifies this
      ensures var r := ParseFile(data, rule);
              models == r.models && errors == old(errors) + r.errors && errs == errors
    {
      ghost var decode := DecoderOf(data, rule);
      ghost var scanned: seq<ParseError> := [];
      ghost var starts: seq<nat> := [];
      models := [];
      var offset: nat := 0;
      var index: nat := 0;
      while offset < |data|
        invariant errors == old(errors) + scanned
        invariant FileLoop(data, decode, offset, index, FileScan(models, scanned, starts)) == ParseFile(data, rule)
        decreases |data| - offset
      {
        FileLoopStep(data, decode, offset, index, FileScan(models, scanned, starts));
        if offset + 8 > |data| {
          break;
        }
        if SignatureVersion(data[offset..offset + 4]).None? {
          break;
        }
        var model, consumed := ParseModelAt(data, offset, rule, decode);
        AppendAssoc(old(errors), scanned, decode(offset).errors);
        scanned := scanned + decode(offset).errors;
        if model.None? || consumed == 0 {
          AppendAssoc(old(errors), scanned, [ModelFailedAt(offset)]);
          errors := errors + [ModelFailedAt(offset)];
          scanned := scanned + [ModelFailedAt(offset)];
          break;
        }
        models := models + [model.value];
        starts := starts + [offset];
        offset := offset + consumed;
        index := index + 1;
        if index > ModelLimit {
          AppendAssoc(old(errors), scanned, [SafetyLimitReached]);
          errors := errors + [SafetyLimitReached];
          scanned := scanned + [SafetyLimitReached];
          break;
        }
      }
      assert FileScan(models, scanned, starts) == ParseFile(data, rule);
      errs := errors;
    }
  }
}
