/**
 * The simulator object. Its fields are updated in place exactly as the
 * methods of the Python class update them; each method is proved to leave
 * the object in the state the corresponding function of module Engine
 * describes.
 */
module Interpreter {
  import opened Wrappers
  import opened Text
  import opened Labels
  import opened Engine

  class RiscVSimulator {
    var registers: map<int, int>
    var memory: map<int, int>
    var pc: nat
    var instructions: seq<string>
    var labels: map<string, nat>
    var instructionCount: nat
    var memoryAccesses: nat
    var cycleCount: nat

    /** All fields, as a value. */
    function Snapshot(): State
      reads this
    {
      State(registers, memory, pc, instructions, labels, instructionCount, memoryAccesses, cycleCount)
    }

    /** Registers 0 to 31 hold zero; memory, program, labels and counters are empty or zero. */
    constructor ()
      ensures Snapshot() == Initial()
      ensures forall r :: r in registers <==> 0 <= r < 32
      ensures forall r :: r in registers ==> registers[r] == 0
      ensures memory == map[] && pc == 0 && instructions == [] && labels == map[]
      ensures instructionCount == 0 && memoryAccesses == 0 && cycleCount == 0
    {
      registers := ZeroRegisters(32);
      memory := map[];
      pc := 0;
      instructions := [];
      labels := map[];
      instructionCount := 0;
      memoryAccesses := 0;
      cycleCount := 0;
    }

    /**
     * The part of `load_program` after the file has been read: install the
     * lines as the program and record their labels.
     */
    method LoadProgram(lines: seq<string>)
      modifies this
      ensures Snapshot() == Loaded(old(Snapshot()), lines)
    {
      instructions := lines;
      ProcessLabels();
    }

    /** `process_labels`: records every line holding a colon; the program itself is untouched. */
    method ProcessLabels()
      modifies this`labels
      ensures labels == LabelsUpTo(old(labels), instructions, |instructions|)
    {
      for i := 0 to |instructions|
        invariant labels == LabelsUpTo(old(labels), instructions, i)
      {
        var line := instructions[i];
        if ':' in line {
          labels := labels[LabelName(line) := i];
        }
      }
    }

    /**
     * `execute`, limited to `fuel` turns of its loop: stop once pc is past the
     * last line or an instruction raises.
     */
    method Execute(fuel: nat) returns (stop: Stop, notes: seq<Diagnostic>)
      modifies this
      ensures Run(old(Snapshot()), fuel) == RunResult(Snapshot(), stop, notes)
    {
      ghost var start := Snapshot();
      var left := fuel;
      notes := [];
      while pc < |instructions|
        invariant Run(start, fuel) == Prefixed(notes, Run(Snapshot(), left))
        decreases left
      {
        if left == 0 {
          return OutOfFuel, notes;
        }
        ghost var before := Snapshot();
        var fault, note := Advance();
        RunUnfolds(before, left, Outcome(Snapshot(), fault, note));
        ghost var previous := notes;
        notes := notes + NoteSeq(note);
        if fault.Some? {
          return Faulted(fault.value), notes;
        }
        left := left - 1;
        ghost var rest := Run(Snapshot(), left);
        assert Run(start, fuel) == Prefixed(previous, Prefixed(NoteSeq(note), rest));
        assert previous + (NoteSeq(note) + rest.notes) == notes + rest.notes;
      }
      stop := Halted;
    }

    /** One turn of the loop of `execute`: fetch the line at pc, advance pc, execute the line. */
    method Advance() returns (fault: Option<Fault>, note: Option<Diagnostic>)
      requires pc < |instructions|
      modifies this
      ensures Step(old(Snapshot())) == Outcome(Snapshot(), fault, note)
    {
      var line := instructions[pc];
      pc := pc + 1;
      assert Snapshot() == old(Snapshot()).(pc := old(pc) + 1);
      fault, note := ExecuteInstruction(line);
    }

    /** `execute_instruction(line)`; pc already points past the line. */
    method ExecuteInstruction(line: string) returns (fault: Option<Fault>, note: Option<Diagnostic>)
      modifies this
      ensures Exec(old(Snapshot()), line) == Outcome(Snapshot(), fault, note)
    {
      ghost var start := Snapshot();
      fault, note := None, None;
      var parts := Tokens(line);
      if |parts| == 0 {
        return Some(NoTokens), None;
      }
      var opcode := Lower(parts[0]);
      if ':' in opcode {
        return;
      }
      cycleCount := cycleCount + 1;
      assert Snapshot() == start.(cycleCount := start.cycleCount + 1);
      ExecDispatches(start, line);
      fault, note := Dispatch(Decode(opcode), parts, line);
    }

    /** The `if`/`elif` chain on the opcode, after the cycle was counted. */
    method Dispatch(op: Opcode, parts: seq<string>, line: string) returns (fault: Option<Fault>, note: Option<Diagnostic>)
      requires |parts| > 0
      modifies this
      ensures ExecOpcode(old(Snapshot()), op, parts, line) == Outcome(Snapshot(), fault, note)
    {
      match op {
        case Add =>
          instructionCount := instructionCount + 1;
          fault, note := ExecuteArith(parts, false);
        case Sub =>
          instructionCount := instructionCount + 1;
          fault, note := ExecuteArith(parts, true);
        case Addi =>
          instructionCount := instructionCount + 1;
          fault, note := ExecuteAddi(parts);
        case Li =>
          instructionCount := instructionCount + 1;
          fault, note := ExecuteLi(parts);
        case Beq =>
          fault, note := ExecuteBeq(parts);
        case Jal =>
          instructionCount := instructionCount + 1;
          fault, note := ExecuteJal(parts);
        case J =>
          instructionCount := instructionCount + 1;
          fault, note := ExecuteJ(parts);
        case Unrecognised =>
          fault, note := None, Some(UnknownInstruction(line));
      }
    }

    /** The `add` and `sub` branch, after the instruction was counted. */
    method ExecuteArith(parts: seq<string>, subtract: bool) returns (fault: Option<Fault>, note: Option<Diagnostic>)
      requires |parts| > 0
      modifies this
      ensures ExecArith(old(Snapshot()), parts, subtract) == Outcome(Snapshot(), fault, note)
    {
      fault, note := None, None;
      var operands := IntOperands(parts, 3);
      if operands.Failure? {
        return Some(operands.error), None;
      }
      var rd, rs1, rs2 := operands.value[0], operands.value[1], operands.value[2];
      if rs1 !in registers {
        return Some(UnknownRegister(rs1)), None;
      }
      if rs2 !in registers {
        return Some(UnknownRegister(rs2)), None;
      }
      if subtract {
        registers := registers[rd := registers[rs1] - registers[rs2]];
      } else {
        registers := registers[rd := registers[rs1] + registers[rs2]];
      }
    }

    /** The `addi` branch, after the instruction was counted. */
    method ExecuteAddi(parts: seq<string>) returns (fault: Option<Fault>, note: Option<Diagnostic>)
      requires |parts| > 0
      modifies this
      ensures ExecAddi(old(Snapshot()), parts) == Outcome(Snapshot(), fault, note)
    {
      fault, note := None, None;
      var operands := IntOperands(parts, 3);
      if operands.Failure? {
        return Some(operands.error), None;
      }
      var rd, rs1, imm := operands.value[0], operands.value[1], operands.value[2];
      if rs1 !in registers {
        return Some(UnknownRegister(rs1)), None;
      }
      registers := registers[rd := registers[rs1] + imm];
    }

    /** The `li` branch, after the instruction was counted. */
    method ExecuteLi(parts: seq<string>) returns (fault: Option<Fault>, note: Option<Diagnostic>)
      requires |parts| > 0
      modifies this
      ensures ExecLi(old(Snapshot()), parts) == Outcome(Snapshot(), fault, note)
    {
      fault, note := None, None;
      var operands := IntOperands(parts, 2);
      if operands.Failure? {
        return Some(operands.error), None;
      }
      registers := registers[operands.value[0] := operands.value[1]];
    }

    /** The `beq` branch, which counts the instruction itself once its registers are converted. */
    method ExecuteBeq(parts: seq<string>) returns (fault: Option<Fault>, note: Option<Diagnostic>)
      requires |parts| > 0
      modifies this
      ensures ExecBeq(old(Snapshot()), parts) == Outcome(Snapshot(), fault, note)
    {
      fault, note := None, None;
      var operands := IntOperands(parts, 2);
      if operands.Failure? {
        return Some(operands.error), None;
      }
      if |parts| < 4 {
        return Some(MissingOperand), None;
      }
      var rs1, rs2, name := operands.value[0], operands.value[1], parts[3];
      instructionCount := instructionCount + 1;
      if rs1 !in registers {
        return Some(UnknownRegister(rs1)), None;
      }
      if rs2 !in registers {
        return Some(UnknownRegister(rs2)), None;
      }
      if registers[rs1] == registers[rs2] {
        pc, note := ResolveLabel(name);
      }
    }

    /** The `jal` branch, after the instruction was counted. */
    method ExecuteJal(parts: seq<string>) returns (fault: Option<Fault>, note: Option<Diagnostic>)
      requires |parts| > 0
      modifies this
      ensures ExecJal(old(Snapshot()), parts) == Outcome(Snapshot(), fault, note)
    {
      fault, note := None, None;
      var name;
      if |parts| == 3 {
        var rd := ParseInt(parts[1]);
        if rd.None? {
          return Some(NotAnInteger(parts[1])), None;
        }
        name := parts[2];
        registers := registers[rd.value := pc];
      } else {
        if |parts| < 2 {
          return Some(MissingOperand), None;
        }
        name := parts[1];
        registers := registers[1 := pc];
      }
      pc, note := ResolveLabel(name);
    }

    /** The `j` branch, after the instruction was counted. */
    method ExecuteJ(parts: seq<string>) returns (fault: Option<Fault>, note: Option<Diagnostic>)
      requires |parts| > 0
      modifies this
      ensures ExecJ(old(Snapshot()), parts) == Outcome(Snapshot(), fault, note)
    {
      fault, note := None, None;
      if |parts| < 2 {
        return Some(MissingOperand), None;
      }
      pc, note := ResolveLabel(parts[1]);
    }

    /**
     * `resolve_label(name)`: the index recorded for the label, or, when there
     * is none, the current pc together with the "label not found" message.
     */
    method ResolveLabel(name: string) returns (target: nat, note: Option<Diagnostic>)
      ensures name in labels ==> target == labels[name] && note == None
      ensures name !in labels ==> target == pc && note == Some(LabelNotFound(name))
    {
      if name in labels {
        return labels[name], None;
      }
      return pc, Some(LabelNotFound(name));
    }
  }
}
