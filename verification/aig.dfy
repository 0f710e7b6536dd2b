/**
 This module models the part of the in-memory AIGER model (`aiger` in aiger.h)
 that the bad-state rewrite reads and writes: the maximal variable index and
 the ordered arrays of inputs, latches, AND gates, outputs, bad-state
 properties and invariant constraints. Each array's C count field
 (`num_inputs`, `num_bad`, ...) is the length of the corresponding sequence.
 */
module Aig {

  /** A C `const char *` name: NULL or a string. */
  datatype Name = Null | Str(text: string)

  /** An AIGER literal: variable index times two, plus one when negated. */
  type Literal = nat

  /** The variable index a literal refers to (`lit >> 1`). */
  function Var(l: Literal): (v: nat)
  {
    l / 2
  }

  /** An `aiger_symbol` as used by inputs, outputs, bad states and constraints:
      a literal and a name. */
  datatype Symbol = Symbol(lit: Literal, name: Name)

  /** A latch: its current-state literal, next-state literal and reset literal. */
  datatype Latch = Latch(lit: Literal, next: Literal, reset: Literal, name: Name)

  /** An AND gate `lhs = rhs0 & rhs1`. */
  datatype And = And(lhs: Literal, rhs0: Literal, rhs1: Literal)

  datatype Model = Model(
    maxvar: nat,
    inputs: seq<Symbol>,
    latches: seq<Latch>,
    ands: seq<And>,
    outputs: seq<Symbol>,
    bad: seq<Symbol>,
    constraints: seq<Symbol>
  )

  /** The seven counts the program reports before and after the rewrite
      (M, I, L, O, A, B, C). */
  datatype Stats = Stats(m: nat, i: nat, l: nat, o: nat, a: nat, b: nat, c: nat)

  function StatsOf(model: Model): Stats
  {
    Stats(model.maxvar, |model.inputs|, |model.latches|, |model.outputs|,
          |model.ands|, |model.bad|, |model.constraints|)
  }

  /** Every literal in `syms` refers to a variable no larger than `maxvar`. */
  predicate SymbolsInRange(syms: seq<Symbol>, maxvar: nat)
  {
    forall k :: 0 <= k < |syms| ==> Var(syms[k].lit) <= maxvar
  }

  /** The model-wide invariant that no literal refers past `maxvar`. */
  predicate LiteralsInRange(model: Model)
  {
    && SymbolsInRange(model.inputs, model.maxvar)
    && (forall k :: 0 <= k < |model.latches| ==>
          && Var(model.latches[k].lit) <= model.maxvar
          && Var(model.latches[k].next) <= model.maxvar
          && Var(model.latches[k].reset) <= model.maxvar)
    && (forall k :: 0 <= k < |model.ands| ==>
          && Var(model.ands[k].lhs) <= model.maxvar
          && Var(model.ands[k].rhs0) <= model.maxvar
          && Var(model.ands[k].rhs1) <= model.maxvar)
    && SymbolsInRange(model.outputs, model.maxvar)
    && SymbolsInRange(model.bad, model.maxvar)
    && SymbolsInRange(model.constraints, model.maxvar)
  }

  /** The literals of a symbol array, in order. */
  function Lits(syms: seq<Symbol>): (ls: seq<Literal>)
    ensures |ls| == |syms|
    ensures forall k :: 0 <= k < |syms| ==> ls[k] == syms[k].lit
  {
    if syms == [] then [] else Lits(syms[..|syms| - 1]) + [syms[|syms| - 1].lit]
  }

  /** `aiger_add_output`: the new output goes after all existing ones and
      nothing else in the model changes. Any check on the literal that the
      library may perform is not part of this model. */
  function AddOutput(model: Model, lit: Literal, name: Name): (r: Model)
    ensures |r.outputs| == |model.outputs| + 1
    ensures r.outputs[..|model.outputs|] == model.outputs
    ensures r.outputs[|model.outputs|] == Symbol(lit, name)
    ensures r.(outputs := model.outputs) == model
  {
    model.(outputs := model.outputs + [Symbol(lit, name)])
  }
}
