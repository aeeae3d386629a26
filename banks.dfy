/** The patch and bank objects the generator works on. Only the part of
    their interface the generator uses is modelled: a patch answers
    getParameterSpec and setParameterValue; a bank is made from a template
    patch and hands out its patches by reference. */
module Banks {
  import opened Engine

  /** A patch: its parameters, each with a value and a spec, updated in place. */
  class Patch {
    var params: PatchMap

    constructor (params: PatchMap)
      ensures this.params == params
    {
      this.params := params;
    }

    /** getParameterSpec: the domain size of a parameter, None (null) when the
        patch has no such parameter. */
    function GetParameterSpec(name: string): (size: Option<int>)
      reads this
      ensures size.Some? <==> name in params
      ensures size.Some? ==> size.value == params[name].size
    {
      if name in params then Some(params[name].size) else None
    }

    /** setParameterValue: the parameter gets the value as given, its spec and
        every other parameter stay. */
    method SetParameterValue(name: string, value: int)
      requires name in params
      modifies this
      ensures params == SetValue(old(params), name, value)
    {
      params := SetValue(params, name, value);
    }
  }

  /** A bank: SlotCount distinct patches. */
  class Bank {
    const patches: seq<Patch>

    ghost predicate Valid()
    {
      |patches| == SlotCount
      && forall i, j :: 0 <= i < j < |patches| ==> patches[i] != patches[j]
    }

    /** new Bank(template): SlotCount fresh patches, each value-equal to the
        template; no two share state, and the template is not one of them. */
    constructor (template: Patch)
      ensures Valid()
      ensures forall i :: 0 <= i < |patches| ==> fresh(patches[i]) && patches[i].params == template.params
    {
      var ps: seq<Patch> := [];
      while |ps| < SlotCount
        invariant |ps| <= SlotCount
        invariant forall i :: 0 <= i < |ps| ==> fresh(ps[i]) && ps[i].params == template.params
        invariant forall i, j :: 0 <= i < j < |ps| ==> ps[i] != ps[j]
      {
        var p := new Patch(template.params);
        ps := ps + [p];
      }
      patches := ps;
    }
  }
}
