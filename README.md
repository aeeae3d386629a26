# Variation generator of the Prophet VS editor, in Dafny

This project models the variation engine of the Prophet VS patch editor
(`VariationGenerator`). Given a template patch and an ordered list of
transform operations, `generate` builds a bank of 100 copies of the template.
It then walks the slots in order and applies the operations to slot `i` in
place, with patch number `i`. For each operation, `applyTransforms` does
three things:

- it resolves the named transform in the transform registry;
- it expands the target through the meta-parameter index (a name that is not
  a meta-parameter stands for itself);
- for every concrete name in order, it looks up the parameter's spec, calls
  the transform with (name, transform parameters, patch number, domain size)
  and writes the result back unclamped.

An unknown transform or a parameter without a spec raises an exception and
aborts the whole `generate`. The meta-parameter index is built from
`metaparameters.properties`: each value is split with `split(",", -1)` and
each field is trimmed.

Layout:

- `engine.dfy` (module `Engine`): the engine as pure functions. `WriteNames`
  is the inner loop and `ApplyOps` the outer loop of `applyTransforms`;
  `GenerateBank` is `generate`, taking the slots' runs (`SlotRuns`) in
  increasing slot order (`BankFrom`) up to the first failure. Each returns a `Run`: the final patch
  (including writes made before an error), the transform invocations in
  order, and the error. It also has a reference definition, the left fold
  `FoldUpdates` of single-parameter updates over the flattened `Steps`, and
  the lemmas that relate them. `Expand` (lines 130-136), `WriteNames`
  (lines 138-155), `ApplyOps` (lines 115-156) and `GenerateBank` (lines
  64-81) are defined by recursion and specified by the lemmas named after
  them in the table below (`WriteNames*`, `ApplyOps*`, `BankFrom*`,
  `Generate*`). `Expand` is the value-level form of the class's
  `ConcreteNames`, whose contract says the two agree. `BankFromStep` and
  `PrependNoSlots` are helpers for the loop invariant of `Generate`: one
  unfolding of `BankFrom` with the slots done so far as an accumulator.
- `meta_parameters.dfy` (module `MetaParameters`): `String.split(",", -1)`,
  `String.trim()`, the parse loop of one value and the loop that builds the
  index.
- `banks.dfy` (module `Banks`): the `Patch` and `Bank` objects as the
  generator uses them. A patch holds its parameters and is updated in place.
  A bank holds 100 distinct patches.
- `variation_generator.dfy` (module `Variation`): class `VariationGenerator`.
  Its registry and index are read-only fields. Its methods `ApplyTransforms`
  and `Generate` mutate patches in place, and their postconditions equate the
  result with `Engine.ApplyOps` and `Engine.GenerateBank`.
- `scenarios.dfy` (module `Scenarios`): worked examples with an "increment"
  transform (patch number modulo domain size).

Transform plugins are total functions `(name, params, patch number, size) ->
int` held in the registry map. The properties files and the reflective
instantiation are external: the constructor receives the instantiated
registry and the meta-parameter properties as maps.

The engine enforces no bound on written values: a transform's result is
stored even outside `[0, size)` (`Scenarios.OutOfRangeWritten`). An error
names only the transform or the parameter, as the exception messages at
lines 124 and 147 of `VariationGenerator.java` do.

## Model

| member | source | states |
|---|---|---|
| `Engine.WriteNamesFrame` | src-mac/com/prophetvs/editor/VariationGenerator.java:138-155 | writing one operation's names never adds or removes parameters or changes a spec, and leaves every parameter outside the name list unchanged, also when it fails |
| `Engine.WriteNamesSucceeds` | src-mac/com/prophetvs/editor/VariationGenerator.java:138-148 | one operation's writes succeed iff every one of its concrete names has a spec |
| `Engine.WriteNamesAsFold` | src-mac/com/prophetvs/editor/VariationGenerator.java:138-155 | a successful operation invokes the transform exactly once per name in list order with (name, params, patch number, spec size), and leaves the patch equal to the left fold of the updates, each value exactly the transform's result (no clamping) |
| `Engine.WriteNamesStopsAtMissing` | src-mac/com/prophetvs/editor/VariationGenerator.java:142-148 | at the first name with no spec the run raises ParameterNotFound for that name; the names before it have been written, and neither that name nor any later one has |
| `Engine.ApplyOpsAppend` | src-mac/com/prophetvs/editor/VariationGenerator.java:115-156 | operations apply in list order as a left fold: running `a + b` is running `a` and then, unless it failed, `b` on the patch `a` left, so later operations see earlier writes |
| `Engine.ApplyOpsStopsAtUnknown` | src-mac/com/prophetvs/editor/VariationGenerator.java:117-125 | an operation naming an unregistered transform raises TransformNotFound, makes no write, and nothing after it is applied; the patch is exactly as the earlier operations left it |
| `Engine.ApplyOpsSucceeds` | src-mac/com/prophetvs/editor/VariationGenerator.java:115-156 | applying the operations succeeds iff every operation's transform is registered and every concrete name of every expansion has a spec |
| `Engine.ApplyOpsAsFold` | src-mac/com/prophetvs/editor/VariationGenerator.java:115-156 | a successful run leaves the patch equal to the left fold of single-parameter updates over all operations and their expansions, and invokes the transforms once per concrete name in that order |
| `Engine.ApplyOpsFrame` | src-mac/com/prophetvs/editor/VariationGenerator.java:115-156 | a run never adds or removes parameters or changes a spec; a parameter no operation names after expansion keeps its template value, whether or not the run fails |
| `Engine.ApplyOpsErrorByKeys` | src-mac/com/prophetvs/editor/VariationGenerator.java:115-156 | whether a run fails, and with which error, depends only on which parameters the patch has, not on their values or the patch number |
| `Engine.SlotOnlyThroughTransforms` | src-mac/com/prophetvs/editor/VariationGenerator.java:151-152 | the patch number reaches the result only through the transforms: if every registered transform ignores it, two slots get identical patches and errors |
| `Engine.BankFromShape` | src-mac/com/prophetvs/editor/VariationGenerator.java:72-80 | from slot i on, the bank is produced iff no slot fails, slot j's patch then standing at position j - i; otherwise the error is that of the first slot that fails |
| `Engine.GenerateFailsIffSlotZeroFails` | src-mac/com/prophetvs/editor/VariationGenerator.java:64-81 | generate fails, returning no bank, iff transforming slot 0 fails, and with that error, since whether a run fails does not depend on the patch number |
| `Engine.GenerateSlots` | src-mac/com/prophetvs/editor/VariationGenerator.java:64-81 | a bank generate yields has exactly 100 patches, slot i being the template transformed with patch number i |
| `Engine.GenerateNoOps` | src-mac/com/prophetvs/editor/VariationGenerator.java:69-78 | with no operations every one of the 100 slots equals the template |
| `MetaParameters.FirstKept` | src-mac/com/prophetvs/editor/VariationGenerator.java:244 | the leading part of `trim`: the position found is the first one not holding a char up to U+0020, and everything skipped is such a char |
| `MetaParameters.EndKept` | src-mac/com/prophetvs/editor/VariationGenerator.java:244 | the trailing part of `trim`: the end found follows the last char above U+0020, and everything dropped from the end is a char up to U+0020 |
| `MetaParameters.Trim` | src-mac/com/prophetvs/editor/VariationGenerator.java:244 | `trim()` gives the infix left once the chars up to U+0020 are gone from both ends; it neither starts nor ends with one |
| `MetaParameters.SplitFields` | src-mac/com/prophetvs/editor/VariationGenerator.java:238 | `split(",", -1)` gives one more field than there are commas (empty leading, inner and trailing fields kept), and no field contains a comma |
| `MetaParameters.JoinSplit` | src-mac/com/prophetvs/editor/VariationGenerator.java:238 | the fields joined back with commas give the original value |
| `MetaParameters.SplitJoin` | src-mac/com/prophetvs/editor/VariationGenerator.java:238 | comma-free fields joined with commas split back into exactly those fields, so the split is the only such decomposition |
| `MetaParameters.ParseNames` | src-mac/com/prophetvs/editor/VariationGenerator.java:238-245 | a value with k commas gives exactly k + 1 names, name j being the j-th comma-separated field trimmed, with empty fields and repeated names kept |
| `MetaParameters.BuildMetaParameterMap` | src-mac/com/prophetvs/editor/VariationGenerator.java:229-248 | the index has exactly the configured meta-parameters, each mapped to its parsed value, whatever the enumeration order |
| `Banks.Patch.GetParameterSpec` | src-mac/com/prophetvs/editor/VariationGenerator.java:142 | the spec (domain size) of a parameter the patch has, None (null) exactly for a name it does not have |
| `Banks.Patch.SetParameterValue` | src-mac/com/prophetvs/editor/VariationGenerator.java:154 | the named parameter takes the given value as is; its spec and every other parameter stay |
| `Banks.Bank.constructor` | src-mac/com/prophetvs/editor/VariationGenerator.java:69 | the new bank holds 100 fresh, pairwise distinct patches, each value-equal to the template |
| `Variation.KeyList` | src-mac/com/prophetvs/editor/VariationGenerator.java:92 | the key set as a list in unspecified order: every key, each exactly once, and nothing else |
| `Variation.VariationGenerator.constructor` | src-mac/com/prophetvs/editor/VariationGenerator.java:48-60 | the registry is the given instantiated transforms; the meta-parameter index holds exactly the configured meta-parameters with their parsed values |
| `Variation.VariationGenerator.GetMetaParameter` | src-mac/com/prophetvs/editor/VariationGenerator.java:83-87 | a configured meta-parameter gives its parsed list; any other name gives None (null) |
| `Variation.VariationGenerator.GetMetaParameterNames` | src-mac/com/prophetvs/editor/VariationGenerator.java:89-93 | every configured meta-parameter name, each once, in unspecified order |
| `Variation.VariationGenerator.GetTransform` | src-mac/com/prophetvs/editor/VariationGenerator.java:95-100 | the registered plugin for a registered name, None (null) for any other |
| `Variation.VariationGenerator.GetTransformNames` | src-mac/com/prophetvs/editor/VariationGenerator.java:102-106 | every registered transform name, each once, in unspecified order |
| `Variation.VariationGenerator.ConcreteNames` | src-mac/com/prophetvs/editor/VariationGenerator.java:129-136 | a target that is not a meta-parameter stands for exactly `[target]`; a meta-parameter stands for its parsed list, in stored order, duplicates kept; the result is the expansion `Engine.Expand` gives, which `ApplyOps` uses |
| `Variation.VariationGenerator.WriteNamesInPlace` | src-mac/com/prophetvs/editor/VariationGenerator.java:138-155 | the inner loop mutates the patch in place into exactly the patch `WriteNames` gives, writes made before a missing spec included, and raises its error |
| `Variation.VariationGenerator.ApplyTransforms` | src-mac/com/prophetvs/editor/VariationGenerator.java:110-157 | the patch is mutated in place into exactly the patch `ApplyOps` gives, partial writes before an error included; the invocations and the error are those of `ApplyOps` |
| `Variation.VariationGenerator.Generate` | src-mac/com/prophetvs/editor/VariationGenerator.java:64-81 | a fresh bank of 100 distinct patches, slot i equal to the template transformed with patch number i, exactly when `GenerateBank` succeeds; otherwise its error and no bank; the template is not modified |
| `Scenarios.IncrementSlot` | src-mac/com/prophetvs/editor/VariationGenerator.java:72-78 | with an increment transform on osc1.freq (size 128), slot i holds i there, the other parameter is unchanged, and there is one invocation |
| `Scenarios.IncrementMetaParameterSlot70` | src-mac/com/prophetvs/editor/VariationGenerator.java:129-155 | the meta-parameter allFreqs = [osc1.freq, osc2.freq] at slot 70 yields 70 and 6, with two invocations, osc1.freq first |
| `Scenarios.UnknownTransformNoBank` | src-mac/com/prophetvs/editor/VariationGenerator.java:120-125 | an operation with an unregistered transform makes generate fail with TransformNotFound and no bank |
| `Scenarios.OutOfRangeWritten` | src-mac/com/prophetvs/editor/VariationGenerator.java:151-154 | a transform result equal to the domain size is written unchanged: there is no clamping |

## Left out

- Loading `transforms.properties` and `metaparameters.properties` through
  `URL`, `InputStream` and `Properties` is I/O (lines 164-187 and 205-227).
  So are the swallowed `close` errors. The model takes the two property maps
  as already loaded.
- Reflective instantiation of transforms with `Class.forName(...).newInstance()`
  (lines 198-201) is a runtime facility. The registry is given as a map of
  instantiated plugins. The constructor's wrapping of configuration failures
  into `VSException` (lines 52-59) is therefore not modelled, since nothing
  can fail there.
- The double-checked-lock singleton `getInstance` (lines 27-44) is left out:
  its point is lazy initialisation under concurrency.
- Concrete `Transform` implementations are not part of this model. A
  transform is a total function, so an exception thrown inside a transform is
  not modelled.
- `Patch`, `Patch.ParameterSpec`, `Bank` and `TransformOperation` are not
  part of this model. Only what the generator uses is modelled:
  - a patch is a map from parameter name to (value, size);
  - `setParameterValue` is called only for names that have a spec, and that
    is its precondition;
  - a bank is 100 fresh, value-equal copies of the template;
  - the transform parameters are an opaque `map<string, string>`.
- Java `int` width: the engine does no arithmetic on values. Whatever the
  transform returns is stored as is, so values and sizes are unbounded `int`.
- A `null` operation list or a `null` operation (a `NullPointerException`) is
  not modelled.
- `Scenarios.IncrementSlot`: the increment transform returns 0 for a domain
  of size 0, where Java's `%` would throw. This only affects the example
  transform, not the engine.
- `Variation.VariationGenerator.GetMetaParameter`: Java returns the index's
  own mutable `List` (line 86), so a caller could change the index through
  it. The model returns an immutable sequence, so that aliasing is not
  modelled; the engine never writes to the list.
- `Engine.GenerateFailsIffSlotZeroFails`: it relies on transforms being total.
  In Java a transform that throws at some slot k > 0 (lines 151-152) makes
  `generate` fail at slot k although slot 0 succeeded; that case is not
  modelled, as transform exceptions are not.
- Java strings are sequences of UTF-16 code units; a Dafny `string` is a
  sequence of Unicode scalar values and cannot hold an unpaired surrogate.
  `trim()` only looks at chars up to U+0020 and `split(",", -1)` only at
  `,`, neither of which is part of a surrogate pair, so `Trim` and
  `SplitFields` give the same results on every well-formed string; strings
  with unpaired surrogates are not modelled.
- The Java code keeps no record of transform invocations. The model records
  them in a ghost trace, only to state the order and number of calls.
