# aigbadtoout — bad states to outputs

`aigbadtoout` reads an AIGER model (an And-Inverter Graph used by hardware
model checkers), turns every bad-state property into an ordinary output, and
writes the model back. This project models and proves the two pieces of
behaviour the program itself implements:

- **Encoding selection** (`FileFormat`): a file name selects the ASCII encoding
  exactly when it is strictly longer than four characters and ends in `.aag`;
  anything else, `.aag` alone included, selects the binary encoding. The test is
  modelled in the shape of the C code, a length check and a C `strcmp` on
  NUL-free strings, over characters rather than bytes, and proved equal to the
  suffix condition.
- **The rewrite** (`BadToOutput`): if the model has no bad states the program
  reports it and stops with the model unchanged. Otherwise one loop appends,
  for each bad state in order, an output with the same literal and the bad
  state's name (or `"bad_state"` when it has none); a second loop caches the
  bad-state count and decrements it that many times, down to zero.

`Aig` holds the part of the in-memory model the rewrite touches: `maxvar` and
the ordered arrays of inputs, latches, AND gates, outputs, bad states and
constraints. Each C count field (`num_outputs`, `num_bad`, ...) is the length
of its sequence, so a decrement of `num_bad` drops the last bad state.
`aiger_add_output`, declared in `aiger.h` (not part of this model), is modelled
as appending `(literal, name)` to the outputs, which is all the call site
relies on. `BadToOutput.Convert` is a loop-free reference definition of the
rewrite; the method with the two loops is proved to compute it.

## Model

| member | source | states |
|---|---|---|
| FileFormat.IsAsciiName | aigbadtoout.c:22-26 | the `strlen`/`strcmp` test holds iff the name has more than 4 characters and its last four are `.aag` |
| FileFormat.Strcmp | aigbadtoout.c:24 | C `strcmp`, stopping at the first difference or the terminator, returns 0 exactly when two NUL-free strings are equal |
| FileFormat.SuffixBoundaries | aigbadtoout.c:23-26 | `.aag` alone is binary, `x.aag` is ASCII, `x.AAG` and `model.aig` are binary |
| Aig.AddOutput | aigbadtoout.c:83 | adding an output appends one `(lit, name)` entry after all existing outputs and changes nothing else |
| BadToOutput.AsOutput | aigbadtoout.c:79-83 | an output made from a bad state has its literal, and its name when non-null, otherwise `"bad_state"` |
| BadToOutput.AsOutputs | aigbadtoout.c:78-85 | one output per bad state, the k-th made from the k-th bad state |
| BadToOutput.AppendBadAsOutputs | aigbadtoout.c:77-85 | the loop runs once per original bad state: outputs grow by exactly the bad count, old outputs stay a prefix, the k-th new output comes from bad state k, nothing else changes |
| BadToOutput.ClearBadStates | aigbadtoout.c:87-94 | with the count cached first, the decrement loop keeps `num_bad + i == cached` and ends with no bad states, everything else unchanged |
| BadToOutput.Convert | aigbadtoout.c:67-94 | the reference rewrite reports no bad states exactly when there are none, and then leaves the model unchanged |
| BadToOutput.ConvertBadToOutputs | aigbadtoout.c:67-94 | the check plus both loops: no bad states is reported iff the count is 0 (model unchanged); otherwise outputs are old outputs followed by the converted bad states in order, bad states are gone, maxvar/inputs/latches/ands/constraints are unchanged, and the result equals the reference rewrite |
| BadToOutput.SecondRunIsNoOp | aigbadtoout.c:68-72 | a second rewrite finds no bad states and adds no outputs |
| BadToOutput.StatsAfterConvert | aigbadtoout.c:96-98 | the counts reported after the rewrite relate to those reported before it (lines 63-65): O is the old O plus the old B, B is 0, M, I, L, A, C are unchanged |
| BadToOutput.OutputLitsAfterConvert | aigbadtoout.c:78-85 | the output literals afterwards are the old output literals followed by the bad-state literals: no literal is invented |
| BadToOutput.PreservesLiteralsInRange | aigbadtoout.c:78-94 | if every literal refers to a variable at most `maxvar` before, that still holds after |
| BadToOutput.OrderExample | aigbadtoout.c:78-94 | bad states `(l1,"p1")`, `(l2,NULL)` after output `(o1,"out")` give outputs `(o1,"out")`, `(l1,"p1")`, `(l2,"bad_state")` and no bad states |

## Left out

- Argument count check, `access`, `fopen`/`fclose`, all console and error messages and the exit codes (lines 8-20, 28-29, 42-47, 56-60, 104-129): operating-system and I/O plumbing. The "no bad states" exit is modelled as the `NoBadStates` status.
- `aiger_read_from_file`, `aiger_open_and_read_from_file`, `aiger_write_to_file`, `aiger_open_and_write_to_file`: the ASCII and binary AIGER codecs live in library sources that are not part of this model, so their formats are not modelled.
- `aiger_init`, `aiger_reset` and ownership of name strings: the clearing loop only decrements the count and releases nothing, so name memory is not modelled; entries beyond `num_bad` are not visible and are dropped from the sequence.
- FileFormat.IsAsciiName: names are sequences of characters, while `strlen` and `strcmp` count bytes. The answer is the same for every UTF-8 name: `.aag` is four ASCII bytes, and an ASCII byte never occurs inside a multibyte sequence. So a name ends in the bytes of `.aag` exactly when it ends in those four characters. In that case it has more than four bytes exactly when it has more than four characters.
- Aig.AddOutput: any literal check the library performs inside `aiger_add_output` is not visible and is neither assumed nor required; whether it copies the name string is not modelled (names are values).
- Justice, fairness and comment sections of the `aiger` structure: the program never reads or changes them.
- Counts and literals are unbounded naturals: the 32-bit `unsigned` fields could only wrap with 2^32 entries, which no model in memory reaches; the decrement of `num_bad` is proved never to go below zero.
