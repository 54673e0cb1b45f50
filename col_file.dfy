/** `COLFile` (apps/methods/col_file.py): the model container the
    workshop keeps for one file, with the result handling of
    `load_from_file` and the placeholder `save_to_file`. Opening the file is
    a parameter: its contents, or the reason it cannot be read. */
module ColFileManager {
  import opened Bytes
  import opened ColDataStructures
  import opened ColDecoder
  import opened ColParser
  import opened Text

  /** The text `str(e)` gives for each exception the decoders raise. */
  function FaultText(f: Fault): string
  {
    match f
    case StructError(width) => "unpack requires a buffer of " + Decimal(width) + " bytes"
    case ValueError(msg) => msg
    case EofError => "Unexpected EOF"
    case NameError(name) => "name '" + name + "' is not defined"
  }

  /** The entry `COLParser` appends to its `errors` list for each error. */
  function Message(e: ParseError): string
  {
    match e
    case ModelFailedAt(offset) => "Failed to parse model at offset " + Decimal(offset)
    case SafetyLimitReached => "Safety limit: 200 models parsed"
    case Col1HeaderError(f) => "COL1 header parse error: " + FaultText(f)
    case Col23HeaderError(f) => "COL2/3 header parse error: " + FaultText(f)
    case Col1BodyError(f) => "COL1 body parse error: " + FaultText(f)
    case Col23BodyError(f) => "COL2/3 body parse error: " + FaultText(f)
    case FaceGroupError(f) => "Face group parse error: " + FaultText(f)
  }

  /** The parser's `errors` list as text, one message per error. */
  function Messages(errors: seq<ParseError>): (r: seq<string>)
    ensures |r| == |errors|
  {
    if |errors| == 0 then [] else Messages(errors[..|errors| - 1]) + [Message(errors[|errors| - 1])]
  }

  lemma {:induction false} MessagesAt(errors: seq<ParseError>, k: nat)
    requires k < |errors|
    ensures Messages(errors)[k] == Message(errors[k])
  {
    if k < |errors| - 1 {
      MessagesAt(errors[..|errors| - 1], k);
    }
  }

  /** What opening and reading the file gives. */
  datatype FileRead = Contents(data: seq<byte>) | Unreadable(reason: string)

  /** What `parse_col_file` returns for the file: the models and the error
      messages; a file that cannot be read gives no models and one message. */
  function Parsed(file: FileRead, rule: ConsumedRule): (seq<Model>, seq<string>)
  {
    match file
    case Unreadable(reason) => ([], ["File read error: " + reason])
    case Contents(data) => var scan := ParseFile(data, rule); (scan.models, Messages(scan.errors))
  }

  /** Whether `load_from_file` reports failure: no models and some errors. */
  predicate LoadFails(parsed: (seq<Model>, seq<string>))
  {
    |parsed.0| == 0 && |parsed.1| > 0
  }

  const WriterMissing := "COL writer not yet implemented"

  class ColFile {
    var filePath: Option<string>
    var models: seq<Model>
    var isLoaded: bool
    var loadError: Option<string>
    var parseErrors: seq<string>

    constructor(filePath: Option<string>)
      ensures this.filePath == filePath && models == [] && !isLoaded && loadError == None && parseErrors == []
    {
      this.filePath := filePath;
      models := [];
      isLoaded := false;
      loadError := None;
      parseErrors := [];
    }

    /** `load_from_file`: the state is reset first; with no models and some
        errors the load fails, keeps the old models and records the errors
        joined by "; "; otherwise the models and errors are taken over and
        the file counts as loaded. A load that yields no models and no
        errors (an empty file) succeeds with no models. */
    method LoadFromFile(filePath: string, file: FileRead, rule: ConsumedRule) returns (ok: bool)
      modifies this
      ensures var parsed := Parsed(file, rule);
              ok == !LoadFails(parsed) && this.filePath == Some(filePath) && parseErrors == parsed.1 &&
              (ok ==> models == parsed.0 && isLoaded && loadError == None) &&
              (!ok ==> models == old(models) && !isLoaded && loadError == Some(Join(parsed.1, "; ")))
    {
      this.filePath := Some(filePath);
      isLoaded := false;
      loadError := None;
      parseErrors := [];
      var found, errors := ParseColFile(file, rule);
      if |found| == 0 && |errors| > 0 {
        loadError := Some(Join(errors, "; "));
        parseErrors := errors;
        return false;
      }
      models := found;
      parseErrors := errors;
      isLoaded := true;
      return true;
    }

    /** `save_to_file`: no writer exists, so it always fails and says so. */
    method SaveToFile(filePath: Option<string>) returns (ok: bool)
      modifies this
      ensures !ok && loadError == Some(WriterMissing)
      ensures this.filePath == old(this.filePath) && models == old(models) && isLoaded == old(isLoaded)
      ensures parseErrors == old(parseErrors)
    {
      loadError := Some(WriterMissing);
      return false;
    }

    /** `add_model`: appends at the end. */
    method AddModel(model: Model)
      modifies this
      ensures models == old(models) + [model]
      ensures filePath == old(filePath) && isLoaded == old(isLoaded) && loadError == old(loadError)
      ensures parseErrors == old(parseErrors)
    {
      models := models + [model];
    }

    /** `remove_model`: deletes exactly the model at `index` when it is in
        range, shifting the later ones down; otherwise changes nothing. */
    method RemoveModel(index: int) returns (ok: bool)
      modifies this
      ensures ok <==> 0 <= index < |old(models)|
      ensures ok ==> |models| == |old(models)| - 1 &&
                     (forall k :: 0 <= k < index ==> models[k] == old(models)[k]) &&
                     (forall k :: index <= k < |models| ==> models[k] == old(models)[k + 1])
      ensures !ok ==> models == old(models)
      ensures filePath == old(filePath) && isLoaded == old(isLoaded) && loadError == old(loadError)
      ensures parseErrors == old(parseErrors)
    {
      if 0 <= index < |models| {
        models := models[..index] + models[index + 1..];
        return true;
      }
      return false;
    }

    /** `get_model`. */
    method GetModel(index: int) returns (m: Option<Model>)
      ensures m.Some? <==> 0 <= index < |models|
      ensures m.Some? ==> m.value == models[index]
    {
      if 0 <= index < |models| {
        return Some(models[index]);
      }
      return None;
    }

    /** `get_model_count`. */
    method GetModelCount() returns (n: nat)
      ensures n == |models|
    {
      return |models|;
    }
  }

  /** `COLParser(debug).parse_col_file(path)` with a fresh parser: the
      models and the messages of its `errors` list. */
  method ParseColFile(file: FileRead, rule: ConsumedRule) returns (models: seq<Model>, errors: seq<string>)
    ensures (models, errors) == Parsed(file, rule)
  {
    match file {
      case Unreadable(reason) =>
        models, errors := [], ["File read error: " + reason];
      case Contents(data) =>
        var parser := new Parser();
        var errs;
        models, errs := parser.ParseColFile(data, rule);
        assert errs == ParseFile(data, rule).errors;
        errors := MessagesOf(errs);
    }
  }

  /** The messages of a list of errors, one by one. */
  method MessagesOf(errors: seq<ParseError>) returns (r: seq<string>)
    ensures r == Messages(errors)
  {
    r := [];
    for i := 0 to |errors|
      invariant r == Messages(errors[..i])
    {
      assert errors[..i + 1][..i] == errors[..i];
      r := r + [Message(errors[i])];
    }
    assert errors[..|errors|] == errors;
  }

  /** A file that cannot be read always fails to load, and the recorded
      error is the read error alone. */
  lemma UnreadableFails(reason: string, rule: ConsumedRule)
    ensures LoadFails(Parsed(Unreadable(reason), rule))
    ensures Join(Parsed(Unreadable(reason), rule).1, "; ") == "File read error: " + reason
  {
  }

  /** A buffer that does not start with a known signature (or is shorter
      than 8 bytes, the empty file included) loads successfully with no
      models and no errors. */
  lemma NoSignatureLoadsEmpty(data: seq<byte>, rule: ConsumedRule)
    requires !Probes(data, 0)
    ensures !LoadFails(Parsed(Contents(data), rule))
    ensures Parsed(Contents(data), rule) == ([], [])
  {
  }

  /** The joined `load_error` begins with the first message reported. */
  lemma {:induction false} LoadErrorStartsWithFirst(errors: seq<string>)
    requires |errors| > 0
    ensures |Join(errors, "; ")| >= |errors[0]| && Join(errors, "; ")[..|errors[0]|] == errors[0]
  {
    if |errors| > 1 {
      assert Join(errors, "; ") == errors[0] + "; " + Join(errors[1..], "; ");
    }
  }

  /** The message for a failed model names the offset unambiguously. */
  lemma FailedAtInjective(m: nat, n: nat)
    requires Message(ModelFailedAt(m)) == Message(ModelFailedAt(n))
    ensures m == n
  {
    var prefix := "Failed to parse model at offset ";
    assert Message(ModelFailedAt(m))[|prefix|..] == Decimal(m);
    assert Message(ModelFailedAt(n))[|prefix|..] == Decimal(n);
    DecimalInjective(m, n);
  }
}
