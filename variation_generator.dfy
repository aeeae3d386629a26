/** The variation generator: a registry of named transforms and an index of
    meta-parameters, both read-only once built, and the two operations that
    use them, applyTransforms (one patch, in place) and generate (a bank).
    Each method is proved equal to the functions of module Engine. */
module Variation {
  import opened Engine
  import opened Banks
  import MetaParameters

  /** The keys of a map as a list, in no particular order (the order of a
      HashMap's key set is unspecified): each key exactly once. */
  method KeyList<V>(m: map<string, V>) returns (names: seq<string>)
    ensures forall n :: n in names <==> n in m
    ensures forall i, j :: 0 <= i < j < |names| ==> names[i] != names[j]
  {
    names := [];
    var pending := m.Keys;
    while pending != {}
      invariant pending <= m.Keys
      invariant forall k :: k in names <==> k in m && k !in pending
      invariant forall i, j :: 0 <= i < j < |names| ==> names[i] != names[j]
      decreases pending
    {
      var n :| n in pending;
      assert n !in names;
      names := names + [n];
      pending := pending - {n};
    }
  }

  class VariationGenerator {
    /** The transform registry: transform name -> plugin. */
    const transformMap: map<string, TransformFn>
    /** The meta-parameter index: meta-parameter name -> concrete names. */
    const metaParameterMap: map<string, seq<string>>
    /** The meta-parameter properties the index was built from. */
    ghost const metaProperties: map<string, string>

    /** The index holds exactly the configured meta-parameters, each with its
        configured value parsed. */
    ghost predicate Valid()
    {
      metaParameterMap.Keys == metaProperties.Keys
      && forall name :: name in metaParameterMap ==> MetaParameters.IsParseOf(metaParameterMap[name], metaProperties[name])
    }

    /** The constructor with setupTransformMap: the registry is the given map
        of instantiated transforms; the index is built from the meta-parameter
        properties. */
    constructor (transforms: map<string, TransformFn>, metaProps: map<string, string>)
      ensures Valid()
      ensures transformMap == transforms && metaProperties == metaProps
    {
      var meta := MetaParameters.BuildMetaParameterMap(metaProps);
      transformMap := transforms;
      metaParameterMap := meta;
      metaProperties := metaProps;
    }

    /** getMetaParameter: the parsed list of a configured meta-parameter,
        None (null) for any other name. */
    function GetMetaParameter(name: string): (names: Option<seq<string>>)
      requires Valid()
      ensures names.Some? <==> name in metaProperties
      ensures names.Some? ==> MetaParameters.IsParseOf(names.value, metaProperties[name])
    {
      if name in metaParameterMap then Some(metaParameterMap[name]) else None
    }

    /** getMetaParameterNames: every configured meta-parameter, once each. */
    method GetMetaParameterNames() returns (names: seq<string>)
      requires Valid()
      ensures forall n :: n in names <==> n in metaProperties
      ensures forall i, j :: 0 <= i < j < |names| ==> names[i] != names[j]
    {
      names := KeyList(metaParameterMap);
    }

    /** getTransform: the registered plugin, None (null) for an unknown name. */
    function GetTransform(name: string): (transform: Option<TransformFn>)
      ensures transform.Some? <==> name in transformMap
      ensures transform.Some? ==> transform.value == transformMap[name]
    {
      if name in transformMap then Some(transformMap[name]) else None
    }

    /** getTransformNames: every registered transform, once each. */
    method GetTransformNames() returns (names: seq<string>)
      ensures forall n :: n in names <==> n in transformMap
      ensures forall i, j :: 0 <= i < j < |names| ==> names[i] != names[j]
    {
      names := KeyList(transformMap);
    }

    /** The concrete names an operation's target stands for: a target that is
        not a meta-parameter stands for itself alone; a meta-parameter for its
        parsed list, in order, repetitions kept. */
    function ConcreteNames(target: string): (names: seq<string>)
      requires Valid()
      ensures target !in metaProperties ==> names == [target]
      ensures target in metaProperties ==> MetaParameters.IsParseOf(names, metaProperties[target])
      ensures names == Expand(metaParameterMap, target)
    {
      match GetMetaParameter(target)
      case Some(list) => list
      case None => [target]
    }

    /** The inner loop of applyTransforms: for each concrete name in order,
        the spec is looked up (ParameterNotFound if there is none), the
        transform invoked and its result written back. The patch ends as
        WriteNames describes, the writes before an error included. */
    method WriteNamesInPlace(patch: Patch, f: TransformFn, op: Op, names: seq<string>, patchNumber: int)
      returns (error: Option<Error>, ghost calls: seq<Call>)
      modifies patch
      ensures var r := WriteNames(f, op, names, patchNumber, old(patch.params));
        patch.params == r.patch && calls == r.calls && error == r.error
    {
      calls := [];
      for j := 0 to |names|
        invariant WriteNames(f, op, names, patchNumber, old(patch.params))
               == Extend(calls, WriteNames(f, op, names[j..], patchNumber, patch.params))
      {
        var name := names[j];
        assert names[j..][0] == name && names[j..][1..] == names[j + 1..];
        var size := patch.GetParameterSpec(name);
        if size.None? {
          error := Some(ParameterNotFound(name));
          return;
        }
        var value := f(name, op.params, patchNumber, size.value);
        patch.SetParameterValue(name, value);
        calls := calls + [Call(op.transform, name, op.params, patchNumber, size.value)];
      }
      error := None;
    }

    /** applyTransforms: the operations, in list order, applied to the patch in
        place with the given patch number. The patch ends as ApplyOps
        describes (including the writes made before an error), the plugins
        are invoked as it lists, and the error raised is its error. */
    method ApplyTransforms(patch: Patch, patchNumber: int, ops: seq<Op>)
      returns (error: Option<Error>, ghost calls: seq<Call>)
      requires Valid()
      modifies patch
      ensures var r := ApplyOps(transformMap, metaParameterMap, ops, patchNumber, old(patch.params));
        patch.params == r.patch && calls == r.calls && error == r.error
    {
      calls := [];
      for i := 0 to |ops|
        invariant ApplyOps(transformMap, metaParameterMap, ops, patchNumber, old(patch.params))
               == Extend(calls, ApplyOps(transformMap, metaParameterMap, ops[i..], patchNumber, patch.params))
      {
        var op := ops[i];
        assert ops[i..][0] == op && ops[i..][1..] == ops[i + 1..];
        var transform := GetTransform(op.transform);
        if transform.None? {
          error := Some(TransformNotFound(op.transform));
          return;
        }
        var names := ConcreteNames(op.target);
        var opError, opCalls := WriteNamesInPlace(patch, transform.value, op, names, patchNumber);
        calls := calls + opCalls;
        if opError.Some? {
          error := opError;
          return;
        }
      }
      error := None;
    }

    /** generate: a bank of SlotCount copies of the template, slot i then
        transformed in place with patch number i, in slot order. The result is
        the bank GenerateBank describes, or its error and no bank; the
        template itself is not changed. */
    method Generate(template: Patch, ops: seq<Op>) returns (result: Result<Bank>)
      requires Valid()
      ensures var g := GenerateBank(transformMap, metaParameterMap, ops, template.params);
        (result.Success? <==> g.Success?)
        && (result.Failure? ==> result.error == g.error)
        && (result.Success? ==>
              fresh(result.value) && result.value.Valid() && |g.value| == SlotCount
              && forall i :: 0 <= i < SlotCount ==>
                   fresh(result.value.patches[i]) && result.value.patches[i].params == g.value[i])
    {
      var bank := new Bank(template);
      ghost var runs := SlotRuns(transformMap, metaParameterMap, ops, template.params);
      ghost var done: seq<PatchMap> := [];
      ghost var g := BankFrom(runs, 0);
      PrependNoSlots(g);
      for i := 0 to SlotCount
        invariant bank.Valid() && |done| == i
        invariant forall j :: 0 <= j < SlotCount ==> fresh(bank.patches[j])
        invariant forall j :: 0 <= j < i ==> bank.patches[j].params == done[j]
        invariant forall j :: i <= j < SlotCount ==> bank.patches[j].params == template.params
        invariant g == PrependSlots(done, BankFrom(runs, i))
      {
        // a reference to the slot's patch, not a copy
        var patch := bank.patches[i];
        BankFromStep(runs, done, i);
        var error, calls := ApplyTransforms(patch, i, ops);
        if error.Some? {
          return Failure(error.value);
        }
        done := done + [patch.params];
      }
      PrependNoSlots(Success(done));
      return Success(bank);
    }
  }
}
