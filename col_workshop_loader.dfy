/** `load_col_with_progress` and `_load_archive_with_dialogs`
    (apps/methods/col_workshop_loader.py): reject tiny buffers, scan an
    archive byte by byte for model signatures, decode one model at each, and
    let the user decide what happens to an offset that does not decode. The
    progress and error dialogs are parameters: `cancelled(i)` says whether
    the progress window was closed before model `i`, and `answer(i)` is the
    button pressed in the error dialog for model `i`. */
module ColWorkshopLoader {
  import opened Bytes
  import opened ColDataStructures
  import opened ColDecoder
  import opened ColParser
  import opened ColFileManager
  import opened Text

  /** The buttons of the error dialog. */
  datatype Action = Skip | SkipAll | Ignore | IgnoreAll | Abort

  /** Whether the four bytes at `o` are one of the recognised signatures. */
  predicate IsTag(data: seq<byte>, o: nat)
    requires o + 4 <= |data|
  {
    SignatureVersion(data[o..o + 4]).Some?
  }

  /** Where the scan stops: `offset < len(data) - 4`. */
  function ScanEnd(data: seq<byte>): (n: nat)
    ensures n == 0 || n + 4 <= |data|
  {
    if |data| > 4 then |data| - 4 else 0
  }

  /** The offsets below `n` the scan records, in the order it finds them. */
  function Scan(data: seq<byte>, n: nat): (r: seq<nat>)
    requires n == 0 || n + 4 <= |data|
    ensures forall k :: 0 <= k < |r| ==> r[k] < n && IsTag(data, r[k])
    ensures forall j, k :: 0 <= j < k < |r| ==> r[j] < r[k]
  {
    if n == 0 then []
    else Scan(data, n - 1) + (if IsTag(data, n - 1) then [n - 1] else [])
  }

  function Signatures(data: seq<byte>): (r: seq<nat>)
  {
    Scan(data, ScanEnd(data))
  }

  /** The scan finds exactly the positions where a signature starts, one
      per position, overlapping ones included, except that a signature in the
      last four bytes is not looked at. */
  lemma {:induction false} ScanMembers(data: seq<byte>, n: nat, o: int)
    requires n == 0 || n + 4 <= |data|
    ensures o in Scan(data, n) <==> 0 <= o < n && exists v: Version :: data[o..o + 4] == Signature(v)
  {
    if n > 0 {
      ScanMembers(data, n - 1, o);
      if o == n - 1 && !IsTag(data, o) {
        assert forall v: Version :: data[o..o + 4] != Signature(v);
      }
      if 0 <= o < n && IsTag(data, o) {
        var v := SignatureVersion(data[o..o + 4]).value;
        assert data[o..o + 4] == Signature(v);
      }
    }
  }

  lemma SignaturesMembers(data: seq<byte>, o: int)
    ensures o in Signatures(data) <==> 0 <= o < |data| - 4 && exists v: Version :: data[o..o + 4] == Signature(v)
  {
    ScanMembers(data, ScanEnd(data), o);
  }

  /** The scanning `while` loop. */
  method ScanSignatures(data: seq<byte>) returns (signatures: seq<nat>)
    ensures signatures == Signatures(data)
  {
    signatures := [];
    var offset: nat := 0;
    while offset < |data| - 4
      invariant offset <= ScanEnd(data)
      invariant signatures == Scan(data, offset)
    {
      if SignatureVersion(data[offset..offset + 4]).Some? {
        signatures := signatures + [offset];
      }
      offset := offset + 1;
    }
  }

  /** The name the error dialog shows for the model at `sig`: the 22-byte
      name field up to its first zero byte when the header fits, `Model_i`
      when that is empty, and the offset otherwise. */
  function DisplayName(data: seq<byte>, sig: nat, i: nat): (name: string)
    ensures |name| > 0
    ensures sig + 32 <= |data| && CString(data[sig + 8..sig + 30]) != [] ==> name == CString(data[sig + 8..sig + 30])
  {
    if sig + 32 <= |data| then
      var field := CString(data[sig + 8..sig + 30]);
      if field == [] then "Model_" + Decimal(i) else field
    else "Model at offset " + Decimal(sig)
  }

  function SkipWarning(name: string): string
  {
    "Skipped: " + name + " (failed to parse)"
  }

  /** What the archive loop has gathered so far. */
  datatype Progress = Progress(models: seq<Model>, warnings: seq<string>, skipAll: bool, ignoreAll: bool)

  const Start := Progress([], [], false, false)

  /** How the archive loop ends, with what it had gathered by then. */
  datatype ArchiveEnd = Cancelled(at: nat, progress: Progress) | Aborted(at: nat, progress: Progress)
                      | Finished(progress: Progress)

  /** One model of the archive: a decoded model is kept; a failure asks the
      user unless "skip all" or "ignore all" was chosen earlier, and then
      "skip all" keeps warning while "ignore all" stays silent. `None` means
      the user aborted. */
  function ArchiveStep(name: string, model: Option<Model>, action: Action, p: Progress): Option<Progress>
  {
    if model.Some? then Some(p.(models := p.models + [model.value]))
    else if !p.skipAll && !p.ignoreAll then
      match action
      case Abort => None
      case SkipAll => Some(p.(skipAll := true, warnings := p.warnings + [SkipWarning(name)]))
      case IgnoreAll => Some(p.(ignoreAll := true))
      case Skip => Some(p.(warnings := p.warnings + [SkipWarning(name)]))
      case Ignore => Some(p)
    else if p.skipAll then Some(p.(warnings := p.warnings + [SkipWarning(name)]))
    else Some(p)
  }

  /** The display names of the models at `sigs`. */
  function Names(data: seq<byte>, sigs: seq<nat>): (names: seq<string>)
    ensures |names| == |sigs|
  {
    seq(|sigs|, k requires 0 <= k < |sigs| => DisplayName(data, sigs[k], k))
  }

  /** The `for` loop over the signatures from the `i`-th on, `names`
      holding their display names. */
  function ArchiveLoop(names: seq<string>, sigs: seq<nat>, decode: nat -> Decoded, answer: nat -> Action,
                       cancelled: nat -> bool, i: nat, p: Progress): ArchiveEnd
    requires |names| == |sigs|
    decreases |sigs| - i
  {
    if i >= |sigs| then Finished(p)
    else if cancelled(i) then Cancelled(i, p)
    else
      match ArchiveStep(names[i], decode(sigs[i]).model, answer(i), p)
      case None => Aborted(i, p)
      case Some(q) => ArchiveLoop(names, sigs, decode, answer, cancelled, i + 1, q)
  }

  /** The archive loop over every signature found, from the start. */
  function ArchiveRun(data: seq<byte>, decode: nat -> Decoded, answer: nat -> Action, cancelled: nat -> bool): ArchiveEnd
  {
    var sigs := Signatures(data);
    ArchiveLoop(Names(data, sigs), sigs, decode, answer, cancelled, 0, Start)
  }

  /** `_load_archive_with_dialogs`: the models, or `None` when no signature
      is found, the user cancels or aborts, or no model decodes. */
  function LoadArchive(data: seq<byte>, decode: nat -> Decoded, answer: nat -> Action, cancelled: nat -> bool): Option<seq<Model>>
  {
    if |Signatures(data)| == 0 then None
    else
      match ArchiveRun(data, decode, answer, cancelled)
      case Finished(p) => if |p.models| > 0 then Some(p.models) else None
      case _ => None
  }

  /** `load_col_with_progress` with `parse_col_model` as the decoder and
      `is_multi_model_archive` given: the models of the loaded file, or
      `None`. */
  function LoadWithProgress(data: seq<byte>, isArchive: bool, rule: ConsumedRule, answer: nat -> Action,
                            cancelled: nat -> bool): Option<seq<Model>>
  {
    if |data| < 8 then None
    else if isArchive then LoadArchive(data, ModelDecoder(data, rule), answer, cancelled)
    else
      var d := DecodeModel(data, 0, rule);
      if d.model.Some? then Some([d.model.value]) else None
  }

  /** The model a decode yields, as a list of zero or one. */
  function Kept(model: Option<Model>): (r: seq<Model>)
    ensures |r| <= 1
  {
    if model.Some? then [model.value] else []
  }

  /** The models decoded at `offsets`, in order, with the offsets that fail
      to decode left out. */
  function DecodedAt(decode: nat -> Decoded, offsets: seq<nat>): (r: seq<Model>)
    ensures |r| <= |offsets|
  {
    if |offsets| == 0 then []
    else Kept(decode(offsets[0]).model) + DecodedAt(decode, offsets[1..])
  }

  /** A finished loop has kept exactly the models that decode, in signature
      order, whatever the user answered. */
  lemma {:induction false} FinishedKeepsDecoded(names: seq<string>, sigs: seq<nat>, decode: nat -> Decoded,
                                                answer: nat -> Action, cancelled: nat -> bool, i: nat, p: Progress)
    requires |names| == |sigs| && i <= |sigs|
    requires ArchiveLoop(names, sigs, decode, answer, cancelled, i, p).Finished?
    ensures ArchiveLoop(names, sigs, decode, answer, cancelled, i, p).progress.models
            == p.models + DecodedAt(decode, sigs[i..])
    decreases |sigs| - i
  {
    if i == |sigs| {
      assert sigs[i..] == [];
    } else {
      var name, model := names[i], decode(sigs[i]).model;
      var s := ArchiveStep(name, model, answer(i), p);
      assert s.Some? && ArchiveLoop(names, sigs, decode, answer, cancelled, i, p)
                        == ArchiveLoop(names, sigs, decode, answer, cancelled, i + 1, s.value);
      StepKeepsDecoded(name, model, answer(i), p);
      FinishedKeepsDecoded(names, sigs, decode, answer, cancelled, i + 1, s.value);
      assert sigs[i..][0] == sigs[i] && sigs[i..][1..] == sigs[i + 1..];
      assert p.models + Kept(model) + DecodedAt(decode, sigs[i + 1..])
             == p.models + (Kept(model) + DecodedAt(decode, sigs[i + 1..]));
    }
  }

  /** A loop cut short by Cancel or Abort at model `k` has kept exactly the
      models that decode at the signatures before `k`: they stay in the
      file. */
  lemma {:induction false} StoppedKeepsDecoded(names: seq<string>, sigs: seq<nat>, decode: nat -> Decoded,
                                               answer: nat -> Action, cancelled: nat -> bool, i: nat, p: Progress)
    requires |names| == |sigs| && i <= |sigs|
    requires !ArchiveLoop(names, sigs, decode, answer, cancelled, i, p).Finished?
    ensures var e := ArchiveLoop(names, sigs, decode, answer, cancelled, i, p);
            i <= e.at < |sigs| && e.progress.models == p.models + DecodedAt(decode, sigs[i..e.at])
    decreases |sigs| - i
  {
    if !cancelled(i) {
      var name, model := names[i], decode(sigs[i]).model;
      var s := ArchiveStep(name, model, answer(i), p);
      if s.Some? {
        StepKeepsDecoded(name, model, answer(i), p);
        StoppedKeepsDecoded(names, sigs, decode, answer, cancelled, i + 1, s.value);
        var k := ArchiveLoop(names, sigs, decode, answer, cancelled, i + 1, s.value).at;
        assert sigs[i..k][0] == sigs[i] && sigs[i..k][1..] == sigs[i + 1..k];
        assert p.models + Kept(model) + DecodedAt(decode, sigs[i + 1..k])
               == p.models + (Kept(model) + DecodedAt(decode, sigs[i + 1..k]));
      } else {
        assert sigs[i..i] == [];
      }
    } else {
      assert sigs[i..i] == [];
    }
  }

  /** A step that does not abort adds the model it decoded, if any. */
  lemma StepKeepsDecoded(name: string, model: Option<Model>, action: Action, p: Progress)
    ensures var s := ArchiveStep(name, model, action, p);
            s.Some? ==> s.value.models == p.models + Kept(model)
  {
  }

  /** The loop only ends early at a model that failed to decode and for
      which the user pressed Abort, or when the progress window closes. */
  lemma {:induction false} AbortedAtFailure(names: seq<string>, sigs: seq<nat>, decode: nat -> Decoded,
                                            answer: nat -> Action, cancelled: nat -> bool, i: nat, p: Progress)
    requires |names| == |sigs|
    requires ArchiveLoop(names, sigs, decode, answer, cancelled, i, p).Aborted?
    ensures var k := ArchiveLoop(names, sigs, decode, answer, cancelled, i, p).at;
            i <= k < |sigs| && decode(sigs[k]).model.None? && answer(k) == Abort && !cancelled(k)
    decreases |sigs| - i
  {
    if i < |sigs| && !cancelled(i) {
      var s := ArchiveStep(names[i], decode(sigs[i]).model, answer(i), p);
      if s.Some? {
        AbortedAtFailure(names, sigs, decode, answer, cancelled, i + 1, s.value);
      }
    }
  }

  /** Once "ignore all" is chosen, the rest of the archive runs to the end
      (unless cancelled) without another warning. */
  lemma {:induction false} IgnoreAllIsSilent(names: seq<string>, sigs: seq<nat>, decode: nat -> Decoded,
                                             answer: nat -> Action, cancelled: nat -> bool, i: nat, p: Progress)
    requires |names| == |sigs|
    requires p.ignoreAll && !p.skipAll
    requires forall k :: i <= k < |sigs| ==> !cancelled(k)
    ensures var e := ArchiveLoop(names, sigs, decode, answer, cancelled, i, p);
            e.Finished? && e.progress.warnings == p.warnings && e.progress.ignoreAll
    decreases |sigs| - i
  {
    if i < |sigs| {
      var s := ArchiveStep(names[i], decode(sigs[i]).model, answer(i), p);
      IgnoreAllIsSilent(names, sigs, decode, answer, cancelled, i + 1, s.value);
    }
  }

  /** The number skipped, `found - loaded`, is never negative. */
  lemma LoadedAtMostFound(data: seq<byte>, decode: nat -> Decoded, answer: nat -> Action, cancelled: nat -> bool)
    requires LoadArchive(data, decode, answer, cancelled).Some?
    ensures LoadArchive(data, decode, answer, cancelled).value == DecodedAt(decode, Signatures(data))
    ensures 0 < |LoadArchive(data, decode, answer, cancelled).value| <= |Signatures(data)|
  {
    var sigs := Signatures(data);
    FinishedKeepsDecoded(Names(data, sigs), sigs, decode, answer, cancelled, 0, Start);
    assert sigs[0..] == sigs;
  }

  /** The source as written: `COLFile(debug=False)` is a call the
      constructor does not accept (it takes only `file_path`), so every
      buffer of 8 bytes or more reaches the outer `except` before anything
      is scanned or decoded. */
  datatype Call<T> = Returned(value: T) | RaisedTypeError(message: string)

  function NewColFileWithDebug(): Call<()>
  {
    RaisedTypeError("COLFile.__init__() got an unexpected keyword argument 'debug'")
  }

  function LoadWithProgressAsWritten(data: seq<byte>, isArchive: bool, rule: ConsumedRule, answer: nat -> Action,
                                     cancelled: nat -> bool): Option<seq<Model>>
  {
    if |data| < 8 then None
    else
      match NewColFileWithDebug()
      case RaisedTypeError(_) => None
      case Returned(_) => LoadWithProgress(data, isArchive, rule, answer, cancelled)
  }

  /** As written, nothing ever loads, even a buffer holding one well-formed
      model, which the intended loader returns. */
  lemma AsWrittenNeverLoads(data: seq<byte>, isArchive: bool, rule: ConsumedRule, answer: nat -> Action,
                            cancelled: nat -> bool)
    ensures LoadWithProgressAsWritten(data, isArchive, rule, answer, cancelled).None?
    ensures |data| >= 8 && !isArchive && DecodeModel(data, 0, rule).model.Some? ==>
              LoadWithProgress(data, isArchive, rule, answer, cancelled).Some?
  {
  }

  /** The decoder the archive loop applies, with what `ParseModelAt` needs. */
  lemma LoaderDecoder(data: seq<byte>, rule: ConsumedRule) returns (decode: nat -> Decoded)
    ensures DecodesAs(data, rule, decode)
    ensures decode == ModelDecoder(data, rule)
  {
    decode := ModelDecoder(data, rule);
  }

  /** `_load_archive_with_dialogs` on a fresh `COLFile`. */
  method LoadArchiveWithDialogs(colFile: ColFile, data: seq<byte>, rule: ConsumedRule, answer: nat -> Action,
                                cancelled: nat -> bool) returns (ok: bool, warnings: seq<string>)
    requires colFile.models == []
    modifies colFile
    ensures var e := ArchiveRun(data, ModelDecoder(data, rule), answer, cancelled);
            colFile.models == e.progress.models && warnings == e.progress.warnings
    ensures var r := LoadArchive(data, ModelDecoder(data, rule), answer, cancelled);
            ok == r.Some? && (ok ==> colFile.models == r.value && colFile.isLoaded)
    ensures colFile.isLoaded == if |Signatures(data)| > 0 && ArchiveRun(data, ModelDecoder(data, rule), answer, cancelled).Finished?
                                then |colFile.models| > 0 else old(colFile.isLoaded)
    ensures colFile.filePath == old(colFile.filePath)
    ensures colFile.loadError == old(colFile.loadError) && colFile.parseErrors == old(colFile.parseErrors)
  {
    ghost var decode := LoaderDecoder(data, rule);
    var signatures := ScanSignatures(data);
    if |signatures| == 0 {
      return false, [];
    }
    ghost var names := Names(data, signatures);
    var parser := new Parser();
    var skipAll, ignoreAll := false, false;
    warnings := [];
    for i := 0 to |signatures|
      invariant ArchiveLoop(names, signatures, decode, answer, cancelled, i,
                            Progress(colFile.models, warnings, skipAll, ignoreAll))
                == ArchiveLoop(names, signatures, decode, answer, cancelled, 0, Start)
      invariant colFile.filePath == old(colFile.filePath) && colFile.isLoaded == old(colFile.isLoaded)
      invariant colFile.loadError == old(colFile.loadError) && colFile.parseErrors == old(colFile.parseErrors)
    {
      if cancelled(i) {
        return false, warnings;
      }
      var name := DisplayName(data, signatures[i], i);
      var model, _ := parser.ParseModelAt(data, signatures[i], rule, decode);
      if model.Some? {
        colFile.AddModel(model.value);
      } else if !skipAll && !ignoreAll {
        match answer(i) {
          case Abort =>
            return false, warnings;
          case SkipAll =>
            skipAll := true;
            warnings := warnings + [SkipWarning(name)];
          case IgnoreAll =>
            ignoreAll := true;
          case Skip =>
            warnings := warnings + [SkipWarning(name)];
          case Ignore =>
        }
      } else if skipAll {
        warnings := warnings + [SkipWarning(name)];
      }
    }
    colFile.isLoaded := |colFile.models| > 0;
    ok := colFile.isLoaded;
  }

  /** `load_col_with_progress` on the bytes read from `filePath`. */
  method LoadColWithProgress(filePath: string, data: seq<byte>, isArchive: bool, rule: ConsumedRule,
                             answer: nat -> Action, cancelled: nat -> bool) returns (r: Option<ColFile>)
    ensures var expected := LoadWithProgress(data, isArchive, rule, answer, cancelled);
            r.Some? == expected.Some? &&
            (r.Some? ==> fresh(r.value) && r.value.models == expected.value && r.value.isLoaded
                         && r.value.filePath == Some(filePath) && r.value.loadError == None && r.value.parseErrors == [])
    ensures |data| < 8 ==> r.None?
  {
    if |data| < 8 {
      return None;
    }
    var colFile := new ColFile(None);
    colFile.filePath := Some(filePath);
    if isArchive {
      var ok, _ := LoadArchiveWithDialogs(colFile, data, rule, answer, cancelled);
      return if ok then Some(colFile) else None;
    }
    var parser := new Parser();
    var model, _ := parser.ParseColModel(data, 0, rule);
    if model.Some? {
      colFile.AddModel(model.value);
      colFile.isLoaded := true;
      return Some(colFile);
    }
    return None;
  }
}
