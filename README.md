# RISC-V teaching simulator, modelled in Dafny

This project models the `RISC_V_Simulator` class of `RISC-V/riscv_int.py`, a small
interpreter for a subset of RISC-V assembly text. A program is a list of source lines.
`process_labels` records the index of every line that holds a colon. `execute` then
fetches the line at `pc`, advances `pc` and interprets the line. The line is split into
tokens with its commas removed, and its first token is lower-cased. A first token that
holds a colon marks a label line, which does nothing. Any other line costs a cycle and is
dispatched on one of seven mnemonics: `add`, `addi`, `sub`, `li`, `beq`, `jal` and `j`.
Registers live in a dictionary indexed by integers; the constructor fills indices 0 to 31
with zero.

The project has six modules:

- `Wrappers` holds `Option` and `Result`.
- `Text` models the Python string operations the interpreter relies on: `split()`,
  `strip()`, `replace(c, "")`, `lower()` and `int()`.
- `Labels` models the label table.
- `Engine` models the simulator state as a value, with one instruction (`Exec`), one turn
  of the loop (`Step`) and the loop itself under a step budget (`Run`).
- `Interpreter` holds the class `RiscVSimulator`. Its fields are updated in place, and its
  methods are proved to follow `Engine`.
- `Properties` holds what the simulator guarantees: the effect of each instruction, what
  no instruction touches, how the counters move, what whole runs keep, and two complete
  programs.

Python exceptions become values of `Fault`:

- `IndexError` on a line with no tokens is `NoTokens`.
- A missing operand, or too few values to unpack, is `MissingOperand`.
- A `ValueError` from `int()` is `NotAnInteger`.
- A `KeyError` on a register that was never written is `UnknownRegister`.

As in Python, the counters and registers changed before the exception are kept, and the
exception ends `execute`. The two messages the simulator prints before carrying on, the
unknown instruction and the label not found, are returned as `Diagnostic` values and
collected in order.

Behaviours of the code that a reader of RISC-V assembly might not expect, all kept as written:

- A label is any line with a colon anywhere in it, not only a trailing one.
- Arithmetic is on unbounded Python integers, with no 32-bit wrap-around.
- There is no `lw` or `sw`, and memory and its access counter are never touched.
- A numeric branch target is looked up as a label name like any other.
- A jump to an unknown label does not stay on the jumping line. It falls through to the
  next line, because `pc` was already advanced before `resolve_label` returns it.

## Model

| member | source | states |
|---|---|---|
| Interpreter.RiscVSimulator.constructor | RISC-V/riscv_int.py:7-18 | registers are exactly indices 0..31, all zero; memory, program and labels are empty; pc and the three counters are zero |
| Engine.ZeroRegisters | RISC-V/riscv_int.py:9 | the dictionary has exactly the keys 0..n-1, each mapped to 0 |
| Interpreter.RiscVSimulator.LoadProgram | RISC-V/riscv_int.py:20-33 | the lines become the program and the label table is extended as `process_labels` does; nothing else changes |
| Interpreter.RiscVSimulator.ProcessLabels | RISC-V/riscv_int.py:35-40 | the table after the loop is the old table extended with every line holding a colon, under its stripped colon-free text (the loop invariant is the table after the first i lines) |
| Labels.LabelsKeys | RISC-V/riscv_int.py:35-40 | a name is in the table iff it was there before or some line of the program defines it |
| Labels.LabelsSound | RISC-V/riscv_int.py:37-40 | each entry is either the old entry, when no line defines the name, or the index of a line that defines it with no later line defining it again |
| Labels.LabelsLastWins | RISC-V/riscv_int.py:37-40 | a name defined on several lines maps to the last of them |
| Labels.LabelsKeepOthers | RISC-V/riscv_int.py:35-40 | the table is not cleared: an old entry whose name no line defines survives unchanged |
| Labels.LabelsInBounds | RISC-V/riscv_int.py:37-40 | built from an empty table, every recorded index is the index of a line |
| Labels.LabelNameOfColonLine | RISC-V/riscv_int.py:38-39 | the line `name:` defines a label and is recorded under `name` |
| Interpreter.RiscVSimulator.Execute | RISC-V/riscv_int.py:42-52 | the loop leaves the object in the final state of `Engine.Run` from its starting state, with the same stop reason and messages (invariant: the run so far followed by the run from here is the whole run) |
| Interpreter.RiscVSimulator.Advance | RISC-V/riscv_int.py:44-52 | one turn: the fetched line is interpreted with pc already advanced, giving exactly `Engine.Step` |
| Interpreter.RiscVSimulator.ExecuteInstruction | RISC-V/riscv_int.py:54-64 | the object ends in the state `Engine.Exec` gives; no tokens raises before anything changes, a label line changes nothing, any other line costs one cycle before dispatch |
| Interpreter.RiscVSimulator.Dispatch | RISC-V/riscv_int.py:66-108 | the branch taken for each mnemonic leaves the state `Engine.ExecOpcode` gives, `beq` counting itself and an unknown opcode reporting the line |
| Interpreter.RiscVSimulator.ExecuteArith | RISC-V/riscv_int.py:66-69 | `add`/`sub` converts three operands, reads both source registers (raising on a missing one) and writes the sum or difference, as `Engine.ExecArith` |
| Interpreter.RiscVSimulator.ExecuteAddi | RISC-V/riscv_int.py:71-74 | `addi` writes the source register plus the immediate, as `Engine.ExecAddi` |
| Interpreter.RiscVSimulator.ExecuteLi | RISC-V/riscv_int.py:81-84 | `li` writes the immediate into any register index, as `Engine.ExecLi` |
| Interpreter.RiscVSimulator.ExecuteBeq | RISC-V/riscv_int.py:86-90 | `beq` raises uncounted on a bad register operand or a missing label token, then counts itself and jumps only when both registers exist and are equal, as `Engine.ExecBeq` |
| Interpreter.RiscVSimulator.ExecuteJal | RISC-V/riscv_int.py:92-100 | `jal` with exactly three tokens links through the given register, otherwise through register 1, then jumps, as `Engine.ExecJal` |
| Interpreter.RiscVSimulator.ExecuteJ | RISC-V/riscv_int.py:102-105 | `j` jumps to its label or raises on a missing operand, as `Engine.ExecJ` |
| Interpreter.RiscVSimulator.ResolveLabel | RISC-V/riscv_int.py:110-116 | a known label gives its recorded index and no message; an unknown one gives the current pc and the "not found" message |
| Text.Tokens | RISC-V/riscv_int.py:56 | every token is non-empty and holds neither whitespace nor a comma |
| Text.TokensOfFormatLine | RISC-V/riscv_int.py:56 | a line written `op a, b, c` tokenises to exactly `[op, a, b, c]`, for any whitespace-free, comma-free words |
| Text.LowerColon | RISC-V/riscv_int.py:57-60 | lower-casing the first token neither adds nor removes a colon, so the label test on the opcode is the test on the raw token |
| Text.ParseShowInt | RISC-V/riscv_int.py:68 | the model of `int()` reads back every integer as `str()` writes it (the interpreter's limit on digit count is left out) |
| Engine.IntOperandsMeaning | RISC-V/riscv_int.py:68 | converting operands 1..n succeeds iff all of them are present and are integers, and then yields their values in order |
| Properties.OperandsOf | RISC-V/riscv_int.py:73 | operands that read as given integers convert to exactly those integers |
| Properties.ExecOpcodeFacts | RISC-V/riscv_int.py:66-108 | no branch touches memory, the program, labels or the cycle count, or removes a register; each counts at most one instruction, always for a mnemonic that raises nothing; pc stays or moves to a recorded label, and stays on an exception |
| Properties.ExecFacts | RISC-V/riscv_int.py:54-108 | one instruction costs a cycle iff its line has tokens and is not a label line; an instruction is counted only for a recognised mnemonic, and always when nothing is raised |
| Properties.StepFacts | RISC-V/riscv_int.py:44-52 | every turn of the loop satisfies those facts, seen from before pc is advanced |
| Properties.StepLabelLine | RISC-V/riscv_int.py:56-61 | a label line only moves pc to the next line |
| Properties.StepNoTokens | RISC-V/riscv_int.py:56-57 | a line of only whitespace and commas raises with only pc advanced |
| Properties.StepUnknown | RISC-V/riscv_int.py:107-108 | an unknown opcode costs a cycle, counts no instruction, reports the line and carries on |
| Properties.StepArith | RISC-V/riscv_int.py:66-79 | `add`/`sub` writes `rs1 + rs2` or `rs1 - rs2` to `rd` and keeps every other register; a missing source register raises after the instruction is counted |
| Properties.StepAddi | RISC-V/riscv_int.py:71-74 | `addi` writes `rs1 + imm` to `rd` and keeps every other register; a missing `rs1` raises |
| Properties.StepLi | RISC-V/riscv_int.py:81-84 | `li` writes `imm` to `rd`, for any register index, and keeps every other register |
| Properties.StepBadOperands | RISC-V/riscv_int.py:66-84 | an `add`, `sub`, `addi` or `li` whose operands do not convert raises that conversion's error once counted |
| Properties.StepBeq | RISC-V/riscv_int.py:86-90 | `beq` on equal registers jumps to the label, or reports and falls through on an unknown one; on unequal registers it falls through; no register changes |
| Properties.StepBeqUncounted | RISC-V/riscv_int.py:86-88 | a `beq` whose registers do not convert or which has no label token raises with only pc and the cycle count changed |
| Properties.StepJalLink | RISC-V/riscv_int.py:92-100 | `jal rd, name` saves the index of the next line in `rd` and jumps, or reports and stays on the next line |
| Properties.StepJalDefault | RISC-V/riscv_int.py:92-100 | any other `jal` saves the next index in register 1 and jumps to its second token; a bare `jal` raises |
| Properties.StepJalBadRegister | RISC-V/riscv_int.py:92-95 | a three-token `jal` whose register token is not an integer (`jal x1, name`) raises once counted, with no register written |
| Properties.StepJ | RISC-V/riscv_int.py:102-105 | `j name` changes only pc and the counters; an unknown label falls through to the next line |
| Properties.RunFacts | RISC-V/riscv_int.py:42-52 | a run never changes memory, program or labels or drops a register; cycles grow by at most one per turn and instructions by no more than cycles; it halts iff pc leaves the program without an exception |
| Properties.InstructionsWithinCycles | RISC-V/riscv_int.py:15-18 | from a fresh simulator, the instruction count never exceeds the cycle count |
| Properties.LoadedInBounds | RISC-V/riscv_int.py:35-40 | after loading into a fresh simulator, pc and every label index lie within the program |
| Properties.RunInBounds | RISC-V/riscv_int.py:42-52 | every run keeps pc at most one past the last line and all label indices inside the program |
| Properties.JumpLandsOnDefinition | RISC-V/riscv_int.py:110-113 | a jump to a recorded label lands on the last line of the program that defines it |
| Properties.SpinLines | RISC-V/riscv_int.py:35-40 | in the program `name:` / `j name`, the first line is a label line recorded at index 0 and the second is a jump to it |
| Properties.SpinNeverHalts | RISC-V/riscv_int.py:42-52 | `execute` need not end: a jump back to its own label runs out of any step budget |
| Properties.SumRun | RISC-V/riscv_int.py:66-84 | `li a, x`, `li b, y`, `add d, a, b` halts after three instructions and three cycles with `x + y` in `d`, every other register kept and nothing reported |

## Left out

- File reading in `load_program` (lines 20-30) is left out. This covers opening the file, the
  `read().strip()` and the two file formats. `LoadProgram` takes the lines the file
  yields. As written, the plain format calls `readlines()` after `read()` has consumed
  the file, so it loads no lines. The model does not depend on where the lines come from.
- `print_performance_metrics`, `print_state` and the command-line block are left out.
  They are output only and change no state.
- Interpreter.RiscVSimulator.Execute: runs at most `fuel` turns of the loop. A program
  that never leaves the loop is modelled as running out of fuel, not as running forever.
- Text.ParseInt: models `int()` on ASCII digits with an optional sign and single
  underscores between digits. Other Unicode decimal digits are not modelled. Numerals of
  any length are accepted. CPython 3.11 and later raise `ValueError` on a decimal string
  of more than 4300 digits, and so end the run; the model instead writes the value.
- Text.Lower: lower-cases ASCII letters only, one character for one. No non-ASCII
  character lowers to a colon, or into a token equal to one of the seven mnemonics, so
  dispatch and the label test are unaffected.
- Python's distinct exception classes are collapsed into the four `Fault` cases. Their
  messages and tracebacks are not modelled.
- `lw`/`sw` and the memory dictionary are not part of this code. `memory` and
  `memoryAccesses` are modelled as fields that nothing changes.
