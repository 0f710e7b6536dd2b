/**
 The rewrite that turns every bad-state property of an AIGER model into a
 plain output. Each bad state, in order, becomes a new output with the same
 literal, named after the bad state or "bad_state" when it has no name; then
 the bad-state count is taken down to zero. A model without bad states is
 reported and left as it is.
 */
module BadToOutput {
  import opened Aig

  /** The name given to an output made from an unnamed bad state. */
  const FallbackName: string := "bad_state"

  datatype Status = Converted | NoBadStates

  /** The text of `name`, or `fallback` when it is NULL (`name ? name : fallback`). */
  function NameOr(name: Name, fallback: string): string
  {
    match name
    case Str(text) => text
    case Null => fallback
  }

  /** The output made from one bad state: same literal, the bad state's name
      or the fallback name. */
  function AsOutput(bad: Symbol): (out: Symbol)
    ensures out.lit == bad.lit
    ensures bad.name.Str? ==> out.name == bad.name
    ensures bad.name.Null? ==> out.name == Str(FallbackName)
  {
    Symbol(bad.lit, Str(NameOr(bad.name, FallbackName)))
  }

  /** The outputs made from a sequence of bad states, one each, in order. */
  function AsOutputs(bad: seq<Symbol>): (outs: seq<Symbol>)
    ensures |outs| == |bad|
    ensures forall k :: 0 <= k < |bad| ==> outs[k] == AsOutput(bad[k])
  {
    if bad == [] then [] else AsOutputs(bad[..|bad| - 1]) + [AsOutput(bad[|bad| - 1])]
  }

  /** The first loop: one `aiger_add_output` per bad state. The loop re-reads
      the bad-state count as its bound; adding outputs never changes the bad
      states, so it runs exactly once per original bad state. */
  method AppendBadAsOutputs(model: Model) returns (r: Model)
    ensures |r.outputs| == |model.outputs| + |model.bad|
    ensures r.outputs[..|model.outputs|] == model.outputs
    ensures forall k :: 0 <= k < |model.bad| ==> r.outputs[|model.outputs| + k] == AsOutput(model.bad[k])
    ensures r.(outputs := model.outputs) == model
  {
    r := model;
    var i := 0;
    while i < |r.bad|
      invariant i <= |r.bad|
      invariant r.bad == model.bad
      invariant r == model.(outputs := model.outputs + AsOutputs(model.bad[..i]))
    {
      var badLit := r.bad[i].lit;
      var badName := r.bad[i].name;
      r := AddOutput(r, badLit, Str(if badName.Str? then badName.text else FallbackName));
      assert model.bad[..i + 1][..i] == model.bad[..i];
      i := i + 1;
    }
    assert model.bad[..i] == model.bad;
  }

  /** The second loop: the bad-state count is cached first and then decremented
      that many times, each step dropping the last bad state. The cached bound
      keeps the decrement from running past zero. */
  method ClearBadStates(model: Model) returns (r: Model)
    ensures r.bad == []
    ensures r.(bad := model.bad) == model
  {
    r := model;
    var numBad := |r.bad|;
    var i := 0;
    while i < numBad
      invariant i <= numBad
      invariant |r.bad| + i == numBad
      invariant r == model.(bad := model.bad[..|r.bad|])
    {
      r := r.(bad := r.bad[..|r.bad| - 1]);
      i := i + 1;
    }
  }

  /** The rewrite as one step, with no loops: the reference the two loops are
      checked against. */
  function Convert(model: Model): (res: (Model, Status))
    ensures res.1 == NoBadStates <==> |model.bad| == 0
    ensures res.1 == NoBadStates ==> res.0 == model
  {
    if |model.bad| == 0 then (model, NoBadStates)
    else (model.(outputs := model.outputs + AsOutputs(model.bad), bad := []), Converted)
  }

  /** The bad-state check followed by the two loops. */
  method ConvertBadToOutputs(model: Model) returns (r: Model, status: Status)
    ensures status == NoBadStates <==> |model.bad| == 0
    ensures status == NoBadStates ==> r == model
    ensures status == Converted ==> |r.outputs| == |model.outputs| + |model.bad|
    ensures status == Converted ==> r.outputs[..|model.outputs|] == model.outputs
    ensures status == Converted ==>
      forall k :: 0 <= k < |model.bad| ==> r.outputs[|model.outputs| + k] == AsOutput(model.bad[k])
    ensures r.bad == []
    ensures r.(outputs := model.outputs, bad := model.bad) == model
    ensures (r, status) == Convert(model)
  {
    if |model.bad| == 0 {
      return model, NoBadStates;
    }
    r := AppendBadAsOutputs(model);
    r := ClearBadStates(r);
    status := Converted;
    assert r.outputs == model.outputs + AsOutputs(model.bad);
  }

  /** Running the rewrite a second time finds no bad states, reports it, and
      adds no outputs. */
  lemma SecondRunIsNoOp(model: Model)
    ensures Convert(Convert(model).0).1 == NoBadStates
    ensures Convert(Convert(model).0).0 == Convert(model).0
  {
  }

  /** The counts reported after the rewrite: O grows by the former B, B becomes
      0, and M, I, L, A and C are those reported before. */
  lemma StatsAfterConvert(model: Model)
    requires |model.bad| > 0
    ensures StatsOf(Convert(model).0) ==
      StatsOf(model).(o := |model.outputs| + |model.bad|, b := 0)
  {
  }

  /** No literal is invented: the outputs' literals after the rewrite are the
      former outputs' literals followed by the bad states' literals. */
  lemma OutputLitsAfterConvert(model: Model)
    ensures Lits(Convert(model).0.outputs) == Lits(model.outputs) + Lits(model.bad)
  {
  }

  /** The rewrite keeps every literal within `maxvar`. */
  lemma PreservesLiteralsInRange(model: Model)
    requires LiteralsInRange(model)
    ensures LiteralsInRange(Convert(model).0)
  {
  }

  /** Two bad states, one named and one not, after one existing output: the new
      outputs follow it in bad-state order, the unnamed one called "bad_state". */
  lemma OrderExample(l1: Literal, l2: Literal, o1: Literal)
    ensures var model := Model(2, [], [], [], [Symbol(o1, Str("out"))],
                               [Symbol(l1, Str("p1")), Symbol(l2, Null)], []);
      && Convert(model).1 == Converted
      && Convert(model).0.outputs ==
           [Symbol(o1, Str("out")), Symbol(l1, Str("p1")), Symbol(l2, Str("bad_state"))]
      && Convert(model).0.bad == []
  {
  }
}
