/** Properties of `ColDecoder` that relate several of its functions: the
    bytes a model occupies, the derived vertex counts, when the optional
    sections are read, the backward face-group table, the header slots that
    are never used, and the order and number of models the file loop finds. */
module ColProperties {
  import opened Bytes
  import opened RecordSections
  import opened ColDataStructures
  import opened ColRecords
  import opened ColDecoder

  // ---------------------------------------------------------------- file loop

  /** The offset the file loop looks at after the models in `starts`. */
  function NextOffset(decode: nat -> Decoded, starts: seq<nat>): nat
  {
    if |starts| == 0 then 0 else starts[|starts| - 1] + decode(starts[|starts| - 1]).consumed
  }

  /** The models found so far: the first at offset 0, each the model
      decoded at its offset, and each next one exactly `consumed` bytes after
      the previous. */
  predicate Chained(data: seq<byte>, decode: nat -> Decoded, scan: FileScan)
  {
    |scan.starts| == |scan.models|
    && (|scan.starts| > 0 ==> scan.starts[0] == 0)
    && (forall k :: 0 <= k < |scan.starts| ==>
          decode(scan.starts[k]).model == Some(scan.models[k]))
    && (forall k :: 0 <= k < |scan.starts| - 1 ==>
          scan.starts[k + 1] == scan.starts[k] + decode(scan.starts[k]).consumed)
  }

  /** Why the loop stopped at `next`: fewer than 8 bytes left, an unknown
      signature, or a model that failed to decode, reported as the last error. */
  predicate StoppedAt(data: seq<byte>, decode: nat -> Decoded, next: nat, errors: seq<ParseError>)
  {
    !Probes(data, next)
    || (decode(next).model.None? && |errors| > 0 && errors[|errors| - 1] == ModelFailedAt(next))
  }

  /** Appending the model decoded at the next offset keeps the chain. */
  lemma ChainedExtend(data: seq<byte>, decode: nat -> Decoded, acc: FileScan, offset: nat, m: Model)
    requires Chained(data, decode, acc)
    requires offset == NextOffset(decode, acc.starts)
    requires offset + 8 <= |data| && SignatureVersion(data[offset..offset + 4]).Some?
    requires decode(offset).model == Some(m)
    ensures Chained(data, decode, acc.(models := acc.models + [m], starts := acc.starts + [offset]))
    ensures NextOffset(decode, acc.starts + [offset]) == offset + decode(offset).consumed
  {
    var found := acc.(models := acc.models + [m], starts := acc.starts + [offset]);
    assert forall k :: 0 <= k < |acc.starts| ==> found.starts[k] == acc.starts[k] && found.models[k] == acc.models[k];
  }

  /** Errors appended by decoding are never the loop's own. */
  lemma NoLoopErrors(errors: seq<ParseError>, more: seq<ParseError>)
    requires forall k :: 0 <= k < |errors| ==> errors[k].FromModel()
    requires forall k :: 0 <= k < |more| ==> more[k].FromModel()
    ensures forall k :: 0 <= k < |errors + more| ==> (errors + more)[k].FromModel()
    ensures SafetyLimitReached !in errors
    ensures forall o :: SafetyLimitReached !in errors + more + [ModelFailedAt(o)]
  {
  }

  /** What the loop needs of a model decoder: a model exactly when some
      bytes are consumed, and only per-model errors. */
  ghost predicate SoundDecoder(decode: nat -> Decoded)
  {
    forall off :: (decode(off).model.None? <==> decode(off).consumed == 0)
                  && (forall k :: 0 <= k < |decode(off).errors| ==> decode(off).errors[k].FromModel())
  }

  /** The accumulator after a model was decoded at `offset`. */
  function Found(acc: FileScan, offset: nat, d: Decoded): FileScan
    requires d.model.Some?
  {
    FileScan(acc.models + [d.model.value], acc.errors + d.errors, acc.starts + [offset])
  }

  /** One unfolding of the loop, case by case. */
  lemma FileLoopStep(data: seq<byte>, decode: nat -> Decoded, offset: nat, index: nat, acc: FileScan)
    ensures !Probes(data, offset) ==> FileLoop(data, decode, offset, index, acc) == acc
    ensures Probes(data, offset) && (decode(offset).model.None? || decode(offset).consumed == 0) ==>
              FileLoop(data, decode, offset, index, acc)
              == acc.(errors := acc.errors + decode(offset).errors + [ModelFailedAt(offset)])
    ensures Probes(data, offset) && decode(offset).model.Some? && decode(offset).consumed != 0 ==>
              FileLoop(data, decode, offset, index, acc)
              == if index + 1 > ModelLimit
                 then Found(acc, offset, decode(offset)).(errors := acc.errors + decode(offset).errors + [SafetyLimitReached])
                 else FileLoop(data, decode, offset + decode(offset).consumed, index + 1, Found(acc, offset, decode(offset)))
  {
  }

  /** The loop keeps the chain and stops by the 201st model. */
  lemma {:induction false} FileLoopChained(data: seq<byte>, decode: nat -> Decoded, offset: nat, index: nat,
                                           acc: FileScan)
    requires SoundDecoder(decode)
    requires Chained(data, decode, acc)
    requires |acc.models| == index <= ModelLimit
    requires offset == NextOffset(decode, acc.starts)
    ensures Chained(data, decode, FileLoop(data, decode, offset, index, acc))
    ensures |FileLoop(data, decode, offset, index, acc).models| <= ModelLimit + 1
    decreases |data| - offset
  {
    FileLoopStep(data, decode, offset, index, acc);
    var d := decode(offset);
    if Probes(data, offset) && d.model.Some? && d.consumed != 0 {
      var found := Found(acc, offset, d);
      ChainedExtend(data, decode, acc.(errors := found.errors), offset, d.model.value);
      if index + 1 <= ModelLimit {
        FileLoopChained(data, decode, offset + d.consumed, index + 1, found);
      }
    }
  }

  /** The safety-limit error is appended exactly when the 201st model is. */
  lemma {:induction false} FileLoopLimit(data: seq<byte>, decode: nat -> Decoded, offset: nat, index: nat,
                                         acc: FileScan)
    requires SoundDecoder(decode)
    requires |acc.models| == index <= ModelLimit
    requires forall k :: 0 <= k < |acc.errors| ==> acc.errors[k].FromModel()
    ensures var r := FileLoop(data, decode, offset, index, acc);
            |r.models| <= ModelLimit + 1 && (SafetyLimitReached in r.errors <==> |r.models| == ModelLimit + 1)
    decreases |data| - offset
  {
    FileLoopStep(data, decode, offset, index, acc);
    var d := decode(offset);
    NoLoopErrors(acc.errors, d.errors);
    if Probes(data, offset) && d.model.Some? && d.consumed != 0 {
      if index + 1 > ModelLimit {
        var errors := acc.errors + d.errors + [SafetyLimitReached];
        assert errors[|errors| - 1] == SafetyLimitReached;
      } else {
        FileLoopLimit(data, decode, offset + d.consumed, index + 1, Found(acc, offset, d));
      }
    }
  }

  /** Short of the limit, the loop stops only at the offset after the last
      model found, and only for one of the three reasons. */
  lemma {:induction false} FileLoopStops(data: seq<byte>, decode: nat -> Decoded, offset: nat, index: nat,
                                         acc: FileScan)
    requires SoundDecoder(decode)
    requires |acc.models| == index <= ModelLimit
    requires offset == NextOffset(decode, acc.starts)
    requires |acc.starts| == |acc.models|
    ensures var r := FileLoop(data, decode, offset, index, acc);
            |r.models| <= ModelLimit ==> StoppedAt(data, decode, NextOffset(decode, r.starts), r.errors)
    decreases |data| - offset
  {
    FileLoopStep(data, decode, offset, index, acc);
    var d := decode(offset);
    if !Probes(data, offset) {
      assert StoppedAt(data, decode, offset, acc.errors);
    } else if d.model.None? || d.consumed == 0 {
      var errors := acc.errors + d.errors + [ModelFailedAt(offset)];
      assert errors[|errors| - 1] == ModelFailedAt(offset);
      assert StoppedAt(data, decode, offset, errors);
    } else if index + 1 <= ModelLimit {
      var found := Found(acc, offset, d);
      assert NextOffset(decode, found.starts) == offset + d.consumed;
      FileLoopStops(data, decode, offset + d.consumed, index + 1, found);
    }
  }

  /** Every model the loop finds starts at a recognised signature with at
      least 8 bytes left. */
  lemma {:induction false} FileLoopProbes(data: seq<byte>, decode: nat -> Decoded, offset: nat, index: nat,
                                          acc: FileScan)
    requires forall k :: 0 <= k < |acc.starts| ==> Probes(data, acc.starts[k])
    ensures var r := FileLoop(data, decode, offset, index, acc);
            forall k :: 0 <= k < |r.starts| ==> Probes(data, r.starts[k])
    decreases |data| - offset
  {
    FileLoopStep(data, decode, offset, index, acc);
    var d := decode(offset);
    if Probes(data, offset) && d.model.Some? && d.consumed != 0 && index + 1 <= ModelLimit {
      var found := Found(acc, offset, d);
      assert forall k :: 0 <= k < |found.starts| ==> Probes(data, found.starts[k]) by {
        assert forall k :: 0 <= k < |acc.starts| ==> found.starts[k] == acc.starts[k];
      }
      FileLoopProbes(data, decode, offset + d.consumed, index + 1, found);
    } else if Probes(data, offset) && d.model.Some? && d.consumed != 0 {
      var found := Found(acc, offset, d);
      assert forall k :: 0 <= k < |acc.starts| ==> found.starts[k] == acc.starts[k];
    }
  }

  /** `parse_col_file`: models in ascending offset order, the first at 0,
      each next one `consumed` bytes after the previous; at most 201 models
      (the limit is checked after the count is incremented), the safety
      error exactly when 201 were found; and otherwise the loop stopped at
      the offset after the last model for one of the three reasons. */
  lemma ParseFileOrder(data: seq<byte>, rule: ConsumedRule)
    ensures var r := ParseFile(data, rule);
            var decode := ModelDecoder(data, rule);
            Chained(data, decode, r) && |r.models| <= ModelLimit + 1
            && (forall k :: 0 <= k < |r.starts| ==> Probes(data, r.starts[k]))
            && (SafetyLimitReached in r.errors <==> |r.models| == ModelLimit + 1)
            && (|r.models| <= ModelLimit ==> StoppedAt(data, decode, NextOffset(decode, r.starts), r.errors))
  {
    var decode := ModelDecoder(data, rule);
    assert SoundDecoder(decode);
    FileLoopChained(data, decode, 0, 0, FileScan([], [], []));
    FileLoopLimit(data, decode, 0, 0, FileScan([], [], []));
    FileLoopStops(data, decode, 0, 0, FileScan([], [], []));
    FileLoopProbes(data, decode, 0, 0, FileScan([], [], []));
  }

  /** The offsets of the models found are strictly increasing. */
  lemma {:induction false} ChainedAscending(data: seq<byte>, decode: nat -> Decoded, scan: FileScan, i: nat, j: nat)
    requires SoundDecoder(decode)
    requires Chained(data, decode, scan)
    requires i < j < |scan.starts|
    ensures scan.starts[i] < scan.starts[j]
    decreases j - i
  {
    assert decode(scan.starts[j - 1]).model.Some?;
    if i < j - 1 {
      ChainedAscending(data, decode, scan, i, j - 1);
    }
  }
}
