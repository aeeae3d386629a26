/** Worked scenarios for the engine: an "increment" transform that returns the
    patch number modulo the domain size, applied to a plain parameter, to a
    meta-parameter, and under an unregistered name. */
module Scenarios {
  import opened Engine

  /** slot mod size (0 for an empty domain, where Java would throw). */
  function Increment(name: string, params: TransformParams, slot: int, size: int): int
  {
    if size == 0 then 0 else slot % size
  }

  function Registry(): map<string, TransformFn>
  {
    map["increment" := Increment]
  }

  function MetaIndex(): map<string, seq<string>>
  {
    map["allFreqs" := ["osc1.freq", "osc2.freq"]]
  }

  function Template(): PatchMap
  {
    map["osc1.freq" := Param(10, 128), "osc2.freq" := Param(3, 64)]
  }

  /** Slot i of a bank that increments osc1.freq holds i there (slot 0
      holds 0, slot 5 holds 5, slot 99 holds 99), osc2.freq keeps its
      template value, and the transform is invoked once. */
  lemma IncrementSlot(i: int)
    requires 0 <= i < SlotCount
    ensures ApplyOps(Registry(), MetaIndex(), [Op("increment", "osc1.freq", map[])], i, Template())
         == Run(Template()["osc1.freq" := Param(i, 128)], [Call("increment", "osc1.freq", map[], i, 128)], None)
  {
    assert Increment("osc1.freq", map[], i, 128) == i;
    assert [Op("increment", "osc1.freq", map[])][1..] == [];
    assert ["osc1.freq"][1..] == [];
  }

  /** Slot 70 of a bank that increments the meta-parameter allFreqs:
      osc1.freq = 70 mod 128 and osc2.freq = 70 mod 64, with the transform
      invoked twice, osc1.freq first. */
  lemma IncrementMetaParameterSlot70()
    ensures var r := ApplyOps(Registry(), MetaIndex(), [Op("increment", "allFreqs", map[])], 70, Template());
      r.error.None?
      && r.patch == map["osc1.freq" := Param(70, 128), "osc2.freq" := Param(6, 64)]
      && r.calls == [Call("increment", "osc1.freq", map[], 70, 128), Call("increment", "osc2.freq", map[], 70, 64)]
  {
    var names := ["osc1.freq", "osc2.freq"];
    assert names[1..] == ["osc2.freq"] && names[1..][1..] == [];
    assert "osc1.freq" != "osc2.freq" by { assert "osc1.freq"[3] != "osc2.freq"[3]; }
    assert [Op("increment", "allFreqs", map[])][1..] == [];
  }

  /** An unregistered transform name makes the whole bank fail. */
  lemma UnknownTransformNoBank()
    ensures GenerateBank(Registry(), MetaIndex(), [Op("decrement", "osc1.freq", map[])], Template())
         == Failure(TransformNotFound("decrement"))
  {
    GenerateFailsIffSlotZeroFails(Registry(), MetaIndex(), [Op("decrement", "osc1.freq", map[])], Template());
    assert "decrement" != "increment" by { assert "decrement"[0] != "increment"[0]; }
  }

  /** The engine does not clamp: a transform answering the domain size itself
      (one past the legal range) gets that value written. */
  lemma OutOfRangeWritten(i: int)
    ensures var past: TransformFn := (name, params, slot, size) => size;
      ApplyOps(map["past" := past], map[], [Op("past", "osc2.freq", map[])], i, Template())
        == Run(Template()["osc2.freq" := Param(64, 64)], [Call("past", "osc2.freq", map[], i, 64)], None)
  {
    assert [Op("past", "osc2.freq", map[])][1..] == [];
    assert ["osc2.freq"][1..] == [];
  }
}
