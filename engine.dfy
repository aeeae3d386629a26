/** The transform application engine of the variation generator, as pure
    functions: what applying a list of transform operations does to one
    patch, and what generating a whole bank does. The imperative methods in
    module Variation are proved equal to these functions; the lemmas here say
    what the functions mean. */
module Engine {

  datatype Option<T> = None | Some(value: T)

  /** The two conditions applyTransforms raises (as a VSException whose
      message names the transform or the parameter). */
  datatype Error = TransformNotFound(transform: string) | ParameterNotFound(parameter: string)

  datatype Result<T> = Success(value: T) | Failure(error: Error)

  /** One parameter of a patch: its current value and the size of its domain
      (the `size` of its ParameterSpec). */
  datatype Param = Param(value: int, size: int)

  /** A patch, seen as the parameters it holds, by name. */
  type PatchMap = map<string, Param>

  /** The transform-specific bag of parameters carried by an operation. */
  type TransformParams = map<string, string>

  /** A transform operation: which transform, which (meta-)parameter, and the
      transform's own parameters. */
  datatype Op = Op(transform: string, target: string, params: TransformParams)

  /** A transform plugin: (parameter name, transform parameters, patch number,
      domain size) -> new value. Plugins are stateless, hence total functions. */
  type TransformFn = (string, TransformParams, int, int) -> int

  /** One invocation of a transform plugin, as the engine makes it. */
  datatype Call = Call(transform: string, name: string, params: TransformParams, slot: int, size: int)

  /** What running the engine leaves behind: the patch in its final state
      (including the writes made before a failure), the plugin invocations in
      the order they were made, and the error raised, if any. */
  datatype Run = Run(patch: PatchMap, calls: seq<Call>, error: Option<Error>)

  /** The number of patches in a bank. */
  const SlotCount := 100

  /** Prefixes earlier invocations to a run. */
  function Extend(calls: seq<Call>, r: Run): Run
  {
    Run(r.patch, calls + r.calls, r.error)
  }

  lemma ExtendTwice(a: seq<Call>, b: seq<Call>, r: Run)
    ensures Extend(a, Extend(b, r)) == Extend(a + b, r)
  {
    assert a + (b + r.calls) == (a + b) + r.calls;
  }

  /** Two patches with the same parameters and the same domain sizes. */
  predicate SameShape(p: PatchMap, q: PatchMap)
  {
    p.Keys == q.Keys && forall n :: n in p ==> p[n].size == q[n].size
  }

  /** setParameterValue: a new value for an existing parameter, spec kept. */
  function SetValue(p: PatchMap, name: string, v: int): PatchMap
    requires name in p
  {
    p[name := Param(v, p[name].size)]
  }

  /** The concrete parameter names an operation's target stands for: the
      meta-parameter's list, or the target itself when it is not one. */
  function Expand(meta: map<string, seq<string>>, target: string): seq<string>
  {
    if target in meta then meta[target] else [target]
  }

  /** The inner loop of applyTransforms: for each concrete name in order,
      look up its spec (failing if it has none), call the transform and write
      the result back. */
  function WriteNames(f: TransformFn, op: Op, names: seq<string>, slot: int, p: PatchMap): Run
    decreases |names|
  {
    if names == [] then Run(p, [], None)
    else if names[0] !in p then Run(p, [], Some(ParameterNotFound(names[0])))
    else
      var n := names[0];
      var size := p[n].size;
      Extend([Call(op.transform, n, op.params, slot, size)],
             WriteNames(f, op, names[1..], slot, SetValue(p, n, f(n, op.params, slot, size))))
  }

  /** The outer loop of applyTransforms: the operations in list order, each
      resolving its transform first, stopping at the first error. */
  function ApplyOps(transforms: map<string, TransformFn>, meta: map<string, seq<string>>,
                    ops: seq<Op>, slot: int, p: PatchMap): Run
    decreases |ops|
  {
    if ops == [] then Run(p, [], None)
    else if ops[0].transform !in transforms then Run(p, [], Some(TransformNotFound(ops[0].transform)))
    else
      var r := WriteNames(transforms[ops[0].transform], ops[0], Expand(meta, ops[0].target), slot, p);
      if r.error.Some? then r
      else Extend(r.calls, ApplyOps(transforms, meta, ops[1..], slot, r.patch))
  }

  /** The run of every slot of a bank: slot i is a copy of the template
      transformed with patch number i. */
  function SlotRuns(transforms: map<string, TransformFn>, meta: map<string, seq<string>>,
                    ops: seq<Op>, template: PatchMap): (runs: seq<Run>)
    ensures |runs| == SlotCount
    ensures forall i :: 0 <= i < SlotCount ==> runs[i] == ApplyOps(transforms, meta, ops, i, template)
  {
    seq(SlotCount, i => ApplyOps(transforms, meta, ops, i, template))
  }

  /** The slots from i on, in increasing order: the first failing slot's
      error, or every slot's patch. */
  function BankFrom(runs: seq<Run>, i: nat): Result<seq<PatchMap>>
    requires i <= |runs|
    decreases |runs| - i
  {
    if i == |runs| then Success([])
    else if runs[i].error.Some? then Failure(runs[i].error.value)
    else
      match BankFrom(runs, i + 1)
      case Success(rest) => Success([runs[i].patch] + rest)
      case Failure(e) => Failure(e)
  }

  /** generate: SlotCount copies of the template, slot i transformed with
      patch number i, in increasing order; the first failure is the result. */
  function GenerateBank(transforms: map<string, TransformFn>, meta: map<string, seq<string>>,
                        ops: seq<Op>, template: PatchMap): Result<seq<PatchMap>>
  {
    BankFrom(SlotRuns(transforms, meta, ops, template), 0)
  }

  /** A bank result with slots put in front, unless it is a failure. */
  function PrependSlots(done: seq<PatchMap>, r: Result<seq<PatchMap>>): Result<seq<PatchMap>>
  {
    match r
    case Success(rest) => Success(done + rest)
    case Failure(e) => Failure(e)
  }

  /** A helper for the loop invariant of Generate, not a property of the
      model: putting no slots in front changes nothing, and a finished bank is
      its slots put in front of the empty bank. */
  lemma PrependNoSlots(r: Result<seq<PatchMap>>)
    ensures PrependSlots([], r) == r
    ensures r.Success? ==> PrependSlots(r.value, Success([])) == r
  {
    if r.Success? {
      assert [] + r.value == r.value;
      assert r.value + [] == r.value;
    }
  }

  /** A helper for the loop invariant of Generate: one unfolding of BankFrom
      with the slots done so far as an accumulator. */
  lemma BankFromStep(runs: seq<Run>, done: seq<PatchMap>, i: nat)
    requires i < |runs|
    ensures PrependSlots(done, BankFrom(runs, i))
         == if runs[i].error.Some? then Failure(runs[i].error.value)
            else PrependSlots(done + [runs[i].patch], BankFrom(runs, i + 1))
  {
    var rest := BankFrom(runs, i + 1);
    if rest.Success? {
      assert done + ([runs[i].patch] + rest.value) == (done + [runs[i].patch]) + rest.value;
    }
  }

  // ---------------------------------------------------------------------
  // A reference definition: the operations flattened into single-parameter
  // steps, and their left fold.

  /** One single-parameter update: an operation applied to one concrete name. */
  datatype Step = Step(op: Op, name: string)

  function StepsOf(op: Op, names: seq<string>): (steps: seq<Step>)
    ensures |steps| == |names|
    ensures forall j :: 0 <= j < |names| ==> steps[j] == Step(op, names[j])
  {
    if names == [] then [] else [Step(op, names[0])] + StepsOf(op, names[1..])
  }

  /** Every operation expanded into its concrete names, in order. */
  function Steps(meta: map<string, seq<string>>, ops: seq<Op>): (steps: seq<Step>)
    ensures forall s :: s in steps ==> s.op in ops
  {
    if ops == [] then []
    else
      var first := StepsOf(ops[0], Expand(meta, ops[0].target));
      var rest := Steps(meta, ops[1..]);
      assert forall s :: s in rest ==> s.op in ops[1..];
      first + rest
  }

  /** The parameter names some operation writes. */
  function Touched(meta: map<string, seq<string>>, ops: seq<Op>): set<string>
  {
    set s | s in Steps(meta, ops) :: s.name
  }

  /** The left fold of single-parameter updates: each step writes the
      transform's result for its name, as the patch is at that point. */
  function FoldUpdates(transforms: map<string, TransformFn>, steps: seq<Step>, slot: int, p: PatchMap): (q: PatchMap)
    requires forall s :: s in steps ==> s.op.transform in transforms && s.name in p
    ensures SameShape(p, q)
    decreases |steps|
  {
    if steps == [] then p
    else
      var s := steps[0];
      var f := transforms[s.op.transform];
      FoldUpdates(transforms, steps[1..], slot, SetValue(p, s.name, f(s.name, s.op.params, slot, p[s.name].size)))
  }

  /** The invocations the steps make: one per step, in order. */
  function StepCalls(steps: seq<Step>, slot: int, p: PatchMap): seq<Call>
    requires forall s :: s in steps ==> s.name in p
  {
    if steps == [] then []
    else [Call(steps[0].op.transform, steps[0].name, steps[0].op.params, slot, p[steps[0].name].size)]
         + StepCalls(steps[1..], slot, p)
  }

  // ---------------------------------------------------------------------
  // Lemmas

  /** Writes never add or remove parameters or change their specs, and a
      parameter that is not in the name list keeps its value; this holds on
      the failure path too. */
  lemma {:induction false} WriteNamesFrame(f: TransformFn, op: Op, names: seq<string>, slot: int, p: PatchMap)
    ensures var r := WriteNames(f, op, names, slot, p);
      SameShape(p, r.patch) && forall n :: n in p && n !in names ==> r.patch[n] == p[n]
    decreases |names|
  {
    if names != [] && names[0] in p {
      var n := names[0];
      WriteNamesFrame(f, op, names[1..], slot, SetValue(p, n, f(n, op.params, slot, p[n].size)));
    }
  }

  /** Applying operations never adds or removes parameters or changes their
      specs, and a parameter no operation names (after expansion) keeps its
      template value, whether or not the run fails. */
  lemma {:induction false} ApplyOpsFrame(transforms: map<string, TransformFn>, meta: map<string, seq<string>>,
                                         ops: seq<Op>, slot: int, p: PatchMap)
    ensures var r := ApplyOps(transforms, meta, ops, slot, p);
      SameShape(p, r.patch) && forall n :: n in p && n !in Touched(meta, ops) ==> r.patch[n] == p[n]
    decreases |ops|
  {
    if ops != [] && ops[0].transform in transforms {
      var names := Expand(meta, ops[0].target);
      var r := WriteNames(transforms[ops[0].transform], ops[0], names, slot, p);
      WriteNamesFrame(transforms[ops[0].transform], ops[0], names, slot, p);
      TouchedCons(meta, ops);
      if r.error.None? {
        ApplyOpsFrame(transforms, meta, ops[1..], slot, r.patch);
      }
    }
  }

  /** The names the first operation writes, then those the others write. */
  lemma TouchedCons(meta: map<string, seq<string>>, ops: seq<Op>)
    requires ops != []
    ensures forall n :: n in Touched(meta, ops) <==> n in Expand(meta, ops[0].target) || n in Touched(meta, ops[1..])
  {
    var names := Expand(meta, ops[0].target);
    var first := StepsOf(ops[0], names);
    var rest := Steps(meta, ops[1..]);
    assert Steps(meta, ops) == first + rest;
    forall n | n in names
      ensures n in Touched(meta, ops)
    {
      var j :| 0 <= j < |names| && names[j] == n;
      assert first[j] in Steps(meta, ops);
    }
    forall n | n in Touched(meta, ops[1..])
      ensures n in Touched(meta, ops)
    {
      var s :| s in rest && s.name == n;
      assert s in Steps(meta, ops);
    }
    forall n | n in Touched(meta, ops)
      ensures n in names || n in Touched(meta, ops[1..])
    {
      var s :| s in first + rest && s.name == n;
      if s in first {
        var j :| 0 <= j < |first| && first[j] == s;
        assert names[j] == n;
      } else {
        assert s in rest;
      }
    }
  }

  /** Folding a concatenation of steps is folding one after the other. */
  lemma {:induction false} FoldUpdatesAppend(transforms: map<string, TransformFn>, a: seq<Step>, b: seq<Step>,
                                             slot: int, p: PatchMap)
    requires forall s :: s in a + b ==> s.op.transform in transforms && s.name in p
    ensures FoldUpdates(transforms, a + b, slot, p)
         == FoldUpdates(transforms, b, slot, FoldUpdates(transforms, a, slot, p))
    decreases |a|
  {
    if a != [] {
      var s := a[0];
      var f := transforms[s.op.transform];
      assert (a + b)[1..] == a[1..] + b;
      FoldUpdatesAppend(transforms, a[1..], b, slot, SetValue(p, s.name, f(s.name, s.op.params, slot, p[s.name].size)));
    } else {
      assert a + b == b;
    }
  }

  /** The invocations depend on a patch only through its shape. */
  lemma {:induction false} StepCallsShape(steps: seq<Step>, slot: int, p: PatchMap, q: PatchMap)
    requires SameShape(p, q)
    requires forall s :: s in steps ==> s.name in p
    ensures StepCalls(steps, slot, p) == StepCalls(steps, slot, q)
    decreases |steps|
  {
    if steps != [] {
      StepCallsShape(steps[1..], slot, p, q);
    }
  }

  lemma {:induction false} StepCallsAppend(a: seq<Step>, b: seq<Step>, slot: int, p: PatchMap)
    requires forall s :: s in a + b ==> s.name in p
    ensures StepCalls(a + b, slot, p) == StepCalls(a, slot, p) + StepCalls(b, slot, p)
    decreases |a|
  {
    if a != [] {
      assert (a + b)[1..] == a[1..] + b;
      StepCallsAppend(a[1..], b, slot, p);
    } else {
      assert a + b == b;
    }
  }

  /** One operation's expansion succeeds exactly when every concrete name has
      a spec. */
  lemma {:induction false} WriteNamesSucceeds(f: TransformFn, op: Op, names: seq<string>, slot: int, p: PatchMap)
    ensures WriteNames(f, op, names, slot, p).error.None? <==> forall j :: 0 <= j < |names| ==> names[j] in p
    decreases |names|
  {
    if names != [] && names[0] in p {
      var n := names[0];
      var p' := SetValue(p, n, f(n, op.params, slot, p[n].size));
      WriteNamesSucceeds(f, op, names[1..], slot, p');
      assert forall j :: 1 <= j < |names| ==> names[j] == names[1..][j - 1];
    }
  }

  /** A successful expansion invokes the transform once per name, in list
      order, and leaves the patch equal to the fold of the corresponding
      updates, each value being exactly the transform's result (no
      clamping). */
  lemma {:induction false} WriteNamesAsFold(transforms: map<string, TransformFn>, op: Op, names: seq<string>,
                                            slot: int, p: PatchMap)
    requires op.transform in transforms
    requires WriteNames(transforms[op.transform], op, names, slot, p).error.None?
    ensures forall s :: s in StepsOf(op, names) ==> s.op.transform in transforms && s.name in p
    ensures var r := WriteNames(transforms[op.transform], op, names, slot, p);
      r.patch == FoldUpdates(transforms, StepsOf(op, names), slot, p)
      && r.calls == StepCalls(StepsOf(op, names), slot, p)
    decreases |names|
  {
    var f := transforms[op.transform];
    WriteNamesSucceeds(f, op, names, slot, p);
    if names != [] {
      var n := names[0];
      var p' := SetValue(p, n, f(n, op.params, slot, p[n].size));
      WriteNamesAsFold(transforms, op, names[1..], slot, p');
      assert StepsOf(op, names)[1..] == StepsOf(op, names[1..]);
      StepCallsShape(StepsOf(op, names[1..]), slot, p', p);
    }
  }

  /** A concrete name without a spec raises ParameterNotFound for that name:
      the names before it have been written (as the fold of their updates
      describes), that name and every name after it have not. */
  lemma {:induction false} WriteNamesStopsAtMissing(f: TransformFn, op: Op, names: seq<string>, slot: int,
                                                    p: PatchMap, k: nat)
    requires k < |names| && names[k] !in p
    requires forall j :: 0 <= j < k ==> names[j] in p
    ensures var done := WriteNames(f, op, names[..k], slot, p);
      done.error.None?
      && WriteNames(f, op, names, slot, p) == Run(done.patch, done.calls, Some(ParameterNotFound(names[k])))
    decreases k
  {
    if k > 0 {
      var n := names[0];
      var p' := SetValue(p, n, f(n, op.params, slot, p[n].size));
      assert names[1..][..k - 1] == names[..k][1..];
      WriteNamesStopsAtMissing(f, op, names[1..], slot, p', k - 1);
    }
  }

  /** Operations apply in list order as a left fold: running a concatenation
      is running the first part and then, unless it failed, the second part on
      the patch the first part left, so later operations see earlier writes. */
  lemma {:induction false} ApplyOpsAppend(transforms: map<string, TransformFn>, meta: map<string, seq<string>>,
                                          a: seq<Op>, b: seq<Op>, slot: int, p: PatchMap)
    ensures var ra := ApplyOps(transforms, meta, a, slot, p);
      ApplyOps(transforms, meta, a + b, slot, p)
        == if ra.error.Some? then ra else Extend(ra.calls, ApplyOps(transforms, meta, b, slot, ra.patch))
    decreases |a|
  {
    if a == [] {
      assert a + b == b;
    } else {
      var op := a[0];
      assert (a + b)[0] == op && (a + b)[1..] == a[1..] + b;
      if op.transform in transforms {
        var r := WriteNames(transforms[op.transform], op, Expand(meta, op.target), slot, p);
        if r.error.None? {
          ApplyOpsAppend(transforms, meta, a[1..], b, slot, r.patch);
          var ra := ApplyOps(transforms, meta, a[1..], slot, r.patch);
          if ra.error.None? {
            ExtendTwice(r.calls, ra.calls, ApplyOps(transforms, meta, b, slot, ra.patch));
          }
        }
      }
    }
  }

  /** An operation naming an unregistered transform raises TransformNotFound
      and makes no write: the run ends with exactly the state the operations
      before it left, and nothing after it is applied. */
  lemma ApplyOpsStopsAtUnknown(transforms: map<string, TransformFn>, meta: map<string, seq<string>>,
                               ops: seq<Op>, slot: int, p: PatchMap, k: nat)
    requires k < |ops| && ops[k].transform !in transforms
    requires ApplyOps(transforms, meta, ops[..k], slot, p).error.None?
    ensures var before := ApplyOps(transforms, meta, ops[..k], slot, p);
      ApplyOps(transforms, meta, ops, slot, p)
        == Run(before.patch, before.calls, Some(TransformNotFound(ops[k].transform)))
  {
    assert ops == ops[..k] + ops[k..];
    ApplyOpsAppend(transforms, meta, ops[..k], ops[k..], slot, p);
  }

  /** A run succeeds exactly when every operation's transform is registered
      and every concrete name of every operation has a spec. */
  lemma {:induction false} ApplyOpsSucceeds(transforms: map<string, TransformFn>, meta: map<string, seq<string>>,
                                            ops: seq<Op>, slot: int, p: PatchMap)
    ensures ApplyOps(transforms, meta, ops, slot, p).error.None? <==>
      (forall o :: o in ops ==> o.transform in transforms) && Touched(meta, ops) <= p.Keys
    decreases |ops|
  {
    if ops != [] {
      var op := ops[0];
      var names := Expand(meta, op.target);
      TouchedCons(meta, ops);
      assert forall o :: o in ops <==> o == op || o in ops[1..];
      if op.transform in transforms {
        var f := transforms[op.transform];
        var r := WriteNames(f, op, names, slot, p);
        WriteNamesSucceeds(f, op, names, slot, p);
        if r.error.None? {
          WriteNamesFrame(f, op, names, slot, p);
          ApplyOpsSucceeds(transforms, meta, ops[1..], slot, r.patch);
          assert Touched(meta, ops) <= p.Keys <==> Touched(meta, ops[1..]) <= r.patch.Keys;
        } else {
          var j :| 0 <= j < |names| && names[j] !in p;
          assert names[j] in Touched(meta, ops);
        }
      }
    } else {
      assert Steps(meta, ops) == [];
    }
  }

  /** A successful run, against the reference fold: it invokes each transform
      once per concrete name, in order, and leaves the patch equal to the
      left fold of the single-parameter updates. */
  lemma {:induction false} ApplyOpsAsFold(transforms: map<string, TransformFn>, meta: map<string, seq<string>>,
                                          ops: seq<Op>, slot: int, p: PatchMap)
    requires ApplyOps(transforms, meta, ops, slot, p).error.None?
    ensures forall s :: s in Steps(meta, ops) ==> s.op.transform in transforms && s.name in p
    ensures var r := ApplyOps(transforms, meta, ops, slot, p);
      r.patch == FoldUpdates(transforms, Steps(meta, ops), slot, p)
      && r.calls == StepCalls(Steps(meta, ops), slot, p)
    decreases |ops|
  {
    if ops != [] {
      var op := ops[0];
      var names := Expand(meta, op.target);
      var first := StepsOf(op, names);
      var rest := Steps(meta, ops[1..]);
      assert Steps(meta, ops) == first + rest;
      var r := WriteNames(transforms[op.transform], op, names, slot, p);
      WriteNamesAsFold(transforms, op, names, slot, p);
      WriteNamesFrame(transforms[op.transform], op, names, slot, p);
      ApplyOpsAsFold(transforms, meta, ops[1..], slot, r.patch);
      FoldUpdatesAppend(transforms, first, rest, slot, p);
      StepCallsAppend(first, rest, slot, p);
      StepCallsShape(rest, slot, r.patch, p);
    }
  }

  /** Whether (and how) a run fails depends only on which parameters the
      patch has: not on their values and not on the patch number. */
  lemma {:induction false} WriteNamesErrorByKeys(f: TransformFn, g: TransformFn, op: Op, names: seq<string>,
                                                 i: int, j: int, p: PatchMap, q: PatchMap)
    requires p.Keys == q.Keys
    ensures WriteNames(f, op, names, i, p).error == WriteNames(g, op, names, j, q).error
    decreases |names|
  {
    if names != [] && names[0] in p {
      var n := names[0];
      WriteNamesErrorByKeys(f, g, op, names[1..], i, j,
                            SetValue(p, n, f(n, op.params, i, p[n].size)),
                            SetValue(q, n, g(n, op.params, j, q[n].size)));
    }
  }

  lemma {:induction false} ApplyOpsErrorByKeys(transforms: map<string, TransformFn>, meta: map<string, seq<string>>,
                                               ops: seq<Op>, i: int, j: int, p: PatchMap, q: PatchMap)
    requires p.Keys == q.Keys
    ensures ApplyOps(transforms, meta, ops, i, p).error == ApplyOps(transforms, meta, ops, j, q).error
    decreases |ops|
  {
    if ops != [] && ops[0].transform in transforms {
      var f := transforms[ops[0].transform];
      var names := Expand(meta, ops[0].target);
      WriteNamesErrorByKeys(f, f, ops[0], names, i, j, p, q);
      WriteNamesFrame(f, ops[0], names, i, p);
      WriteNamesFrame(f, ops[0], names, j, q);
      var rp := WriteNames(f, ops[0], names, i, p);
      var rq := WriteNames(f, ops[0], names, j, q);
      if rp.error.None? {
        ApplyOpsErrorByKeys(transforms, meta, ops[1..], i, j, rp.patch, rq.patch);
      }
    }
  }

  /** When every registered transform ignores the patch number, the patch
      number makes no difference to the run. */
  lemma {:induction false} SlotOnlyThroughTransforms(transforms: map<string, TransformFn>, meta: map<string, seq<string>>,
                                                     ops: seq<Op>, i: int, j: int, p: PatchMap)
    requires forall t, n, ps, size :: t in transforms ==> transforms[t](n, ps, i, size) == transforms[t](n, ps, j, size)
    ensures ApplyOps(transforms, meta, ops, i, p).patch == ApplyOps(transforms, meta, ops, j, p).patch
    ensures ApplyOps(transforms, meta, ops, i, p).error == ApplyOps(transforms, meta, ops, j, p).error
  {
    ApplyOpsErrorByKeys(transforms, meta, ops, i, j, p, p);
    ApplyOpsIgnoresSlot(transforms, meta, ops, i, j, p);
  }

  lemma {:induction false} WriteNamesIgnoresSlot(transforms: map<string, TransformFn>, op: Op, names: seq<string>,
                                                 i: int, j: int, p: PatchMap)
    requires op.transform in transforms
    requires forall t, n, ps, size :: t in transforms ==> transforms[t](n, ps, i, size) == transforms[t](n, ps, j, size)
    ensures WriteNames(transforms[op.transform], op, names, i, p).patch
         == WriteNames(transforms[op.transform], op, names, j, p).patch
    decreases |names|
  {
    var f := transforms[op.transform];
    if names != [] && names[0] in p {
      var n := names[0];
      assert f(n, op.params, i, p[n].size) == f(n, op.params, j, p[n].size);
      WriteNamesIgnoresSlot(transforms, op, names[1..], i, j, SetValue(p, n, f(n, op.params, i, p[n].size)));
    }
  }

  lemma {:induction false} ApplyOpsIgnoresSlot(transforms: map<string, TransformFn>, meta: map<string, seq<string>>,
                                                ops: seq<Op>, i: int, j: int, p: PatchMap)
    requires forall t, n, ps, size :: t in transforms ==> transforms[t](n, ps, i, size) == transforms[t](n, ps, j, size)
    ensures ApplyOps(transforms, meta, ops, i, p).patch == ApplyOps(transforms, meta, ops, j, p).patch
    decreases |ops|
  {
    if ops != [] && ops[0].transform in transforms {
      var f := transforms[ops[0].transform];
      var names := Expand(meta, ops[0].target);
      WriteNamesIgnoresSlot(transforms, ops[0], names, i, j, p);
      WriteNamesErrorByKeys(f, f, ops[0], names, i, j, p, p);
      var r := WriteNames(f, ops[0], names, i, p);
      if r.error.None? {
        ApplyOpsIgnoresSlot(transforms, meta, ops[1..], i, j, r.patch);
      }
    }
  }

  /** The slots from i on give a bank exactly when none of them fails, the
      patch of slot j then standing at position j - i; otherwise the error is
      that of the first slot that fails. */
  lemma {:induction false} BankFromShape(runs: seq<Run>, i: nat)
    requires i <= |runs|
    ensures var g := BankFrom(runs, i);
      (g.Success? <==> forall j :: i <= j < |runs| ==> runs[j].error.None?)
      && (g.Failure? ==> exists j :: i <= j < |runs| && runs[j].error == Some(g.error)
                                     && forall k :: i <= k < j ==> runs[k].error.None?)
      && (g.Success? ==> |g.value| == |runs| - i
                         && forall j :: i <= j < |runs| ==> g.value[j - i] == runs[j].patch)
    decreases |runs| - i
  {
    if i < |runs| {
      BankFromShape(runs, i + 1);
      var g := BankFrom(runs, i);
      var rest := BankFrom(runs, i + 1);
      if g.Success? {
        forall j | i < j < |runs|
          ensures g.value[j - i] == runs[j].patch
        {
          assert g.value[j - i] == rest.value[j - (i + 1)];
        }
      } else if runs[i].error.None? {
        var j :| i + 1 <= j < |runs| && runs[j].error == Some(g.error)
                 && forall k :: i + 1 <= k < j ==> runs[k].error.None?;
        assert forall k :: i <= k < j ==> runs[k].error.None?;
      }
    }
  }

  /** generate fails, returning no bank, exactly when transforming slot 0
      fails, and with that error: whether a run fails does not depend on the
      patch number. */
  lemma GenerateFailsIffSlotZeroFails(transforms: map<string, TransformFn>, meta: map<string, seq<string>>,
                                      ops: seq<Op>, template: PatchMap)
    ensures var g := GenerateBank(transforms, meta, ops, template);
      var r := ApplyOps(transforms, meta, ops, 0, template);
      (g.Success? <==> r.error.None?) && (g.Failure? ==> g.error == r.error.value)
  {
    var runs := SlotRuns(transforms, meta, ops, template);
    BankFromShape(runs, 0);
    forall j | 0 <= j < SlotCount
      ensures runs[j].error == runs[0].error
    {
      ApplyOpsErrorByKeys(transforms, meta, ops, j, 0, template, template);
    }
  }

  /** A bank generate yields has exactly SlotCount patches, slot i being the
      template transformed with patch number i. */
  lemma GenerateSlots(transforms: map<string, TransformFn>, meta: map<string, seq<string>>,
                      ops: seq<Op>, template: PatchMap)
    ensures var g := GenerateBank(transforms, meta, ops, template);
      g.Success? ==> |g.value| == SlotCount
                     && forall i :: 0 <= i < SlotCount ==> g.value[i] == ApplyOps(transforms, meta, ops, i, template).patch
  {
    var runs := SlotRuns(transforms, meta, ops, template);
    BankFromShape(runs, 0);
    var g := BankFrom(runs, 0);
    if g.Success? {
      forall i | 0 <= i < SlotCount
        ensures g.value[i] == ApplyOps(transforms, meta, ops, i, template).patch
      {
        assert g.value[i - 0] == runs[i].patch;
      }
    }
  }

  /** With no operations, every slot of the bank equals the template. */
  lemma GenerateNoOps(transforms: map<string, TransformFn>, meta: map<string, seq<string>>, template: PatchMap)
    ensures GenerateBank(transforms, meta, [], template) == Success(seq(SlotCount, _ => template))
  {
    GenerateFailsIffSlotZeroFails(transforms, meta, [], template);
    GenerateSlots(transforms, meta, [], template);
    var g := GenerateBank(transforms, meta, [], template);
    assert g.Success?;
    assert g.value == seq(SlotCount, _ => template);
  }
}
