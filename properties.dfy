/**
 * What the simulator guarantees, stated over the functions of module Engine
 * (and so, through the proved contracts of module Interpreter, over the
 * simulator object itself): the effect of each instruction, what no
 * instruction touches, how the counters move, and what whole runs keep.
 */
module Properties {
  import opened Wrappers
  import opened Text
  import opened Labels
  import opened Engine

  /** Operands `1 .. |values|` of `parts` are present and read as the integers `values`. */
  predicate HasOperands(parts: seq<string>, values: seq<int>) {
    |parts| > |values| && forall k :: 0 <= k < |values| ==> ParseInt(parts[k + 1]) == Some(values[k])
  }

  /** Well-formed operands are converted to exactly their values. */
  lemma OperandsOf(parts: seq<string>, values: seq<int>)
    requires |parts| > 0 && HasOperands(parts, values)
    ensures IntOperands(parts, |values|) == Success(values)
  {
    OperandsPrefix(parts, values, |values|);
    assert values[..|values|] == values;
  }

  lemma {:induction false} OperandsPrefix(parts: seq<string>, values: seq<int>, n: nat)
    requires |parts| > 0 && HasOperands(parts, values) && n <= |values|
    ensures IntOperands(parts, n) == Success(values[..n])
  {
    if n > 0 {
      OperandsPrefix(parts, values, n - 1);
      assert ParseInt(parts[n]) == Some(values[n - 1]);
      assert values[..n] == values[..n - 1] + [values[n - 1]];
    }
  }

  /**
   * What no instruction changes: data memory, its access counter, the
   * program and the label table. Registers may be added, never removed.
   */
  predicate Untouched(s: State, t: State) {
    && t.memory == s.memory && t.memoryAccesses == s.memoryAccesses
    && t.instructions == s.instructions && t.labels == s.labels
    && s.registers.Keys <= t.registers.Keys
  }

  /** The line costs a cycle: it has tokens and its first token holds no colon. */
  predicate CostsCycle(line: string) {
    |Tokens(line)| > 0 && !IsLabelLine(line)
  }

  /** The line costs a cycle and its opcode is one of the seven mnemonics. */
  predicate Recognised(line: string) {
    CostsCycle(line) && Decode(OpcodeOf(line)) != Unrecognised
  }

  /** A program position the pc may take after an instruction at `s`: the next line, or a recorded label. */
  predicate NextOrLabel(s: State, pc: nat) {
    pc == s.pc || pc in s.labels.Values
  }

  /**
   * Each branch of the dispatch: no cycle is added here, at most one
   * instruction is counted and only for a mnemonic (always, when nothing is
   * raised), nothing outside registers and pc changes, and the pc either
   * stays or moves to a recorded label; an exception leaves the pc alone.
   */
  lemma ExecOpcodeFacts(s: State, op: Opcode, parts: seq<string>, line: string)
    requires |parts| > 0
    ensures var o := ExecOpcode(s, op, parts, line);
      && Untouched(s, o.after)
      && o.after.cycleCount == s.cycleCount
      && (o.after.instructionCount == s.instructionCount || o.after.instructionCount == s.instructionCount + 1)
      && (op == Unrecognised ==> o == Outcome(s, None, Some(UnknownInstruction(line))))
      && (op != Unrecognised && o.fault.None? ==> o.after.instructionCount == s.instructionCount + 1)
      && NextOrLabel(s, o.after.pc)
      && (o.fault.Some? ==> o.after.pc == s.pc)
  {
    var counted := s.(instructionCount := s.instructionCount + 1);
    match op
    case Add =>
    case Sub =>
    case Addi =>
    case Li =>
    case Beq =>
    case Jal =>
    case J =>
    case Unrecognised =>
  }

  /**
   * What one instruction on `s` (pc already advanced) can do, `o` being its
   * outcome: a cycle is counted exactly for a line with tokens that is not a
   * label line; an instruction is counted at most once, only for a
   * recognised mnemonic, and always for one that raises nothing; nothing
   * but registers, pc and the counters changes; pc stays or moves to a
   * recorded label, and stays when an exception is raised.
   */
  predicate ExecFactsOf(s: State, line: string, o: Outcome) {
    && Untouched(s, o.after)
    && o.after.cycleCount == s.cycleCount + (if CostsCycle(line) then 1 else 0)
    && (o.after.instructionCount == s.instructionCount || o.after.instructionCount == s.instructionCount + 1)
    && (o.after.instructionCount == s.instructionCount + 1 ==> Recognised(line))
    && (Recognised(line) && o.fault.None? ==> o.after.instructionCount == s.instructionCount + 1)
    && NextOrLabel(s, o.after.pc)
    && (o.fault.Some? ==> o.after.pc == s.pc)
  }

  /** Every instruction satisfies `ExecFactsOf`. */
  lemma ExecFacts(s: State, line: string)
    ensures ExecFactsOf(s, line, Exec(s, line))
  {
    var o := Exec(s, line);
    if CostsCycle(line) {
      var ticked := s.(cycleCount := s.cycleCount + 1);
      var op := Decode(OpcodeOf(line));
      ExecDispatches(s, line);
      ExecOpcodeFacts(ticked, op, Tokens(line), line);
    } else if |Tokens(line)| == 0 {
      assert o == Fail(s, NoTokens);
    } else {
      assert ':' in OpcodeOf(line);
      assert o == Done(s);
    }
  }

  /**
   * What one turn of the loop from `s` can do, `o` being its outcome: the
   * facts of `ExecFactsOf` for the line at pc, with pc advanced past it.
   */
  predicate TurnFacts(s: State, o: Outcome)
    requires s.pc < |s.instructions|
  {
    ExecFactsOf(s.(pc := s.pc + 1), s.instructions[s.pc], o)
  }

  /** Every turn of the loop satisfies `TurnFacts`. */
  lemma StepFacts(s: State)
    requires s.pc < |s.instructions|
    ensures TurnFacts(s, Step(s))
  {
    var advanced, line := s.(pc := s.pc + 1), s.instructions[s.pc];
    ExecFacts(advanced, line);
    assert Step(s) == Exec(advanced, line);
  }

  // ---------------------------------------------------------------------
  // The effect of each kind of line, one turn of the loop at a time.
  // ---------------------------------------------------------------------

  /** The tokens of the line at pc. */
  function CurrentTokens(s: State): seq<string>
    requires s.pc < |s.instructions|
  {
    Tokens(s.instructions[s.pc])
  }

  /** The line at pc has tokens and its lower-cased opcode is `mnemonic`. */
  predicate Fetches(s: State, mnemonic: string) {
    s.pc < |s.instructions| && |CurrentTokens(s)| > 0 && OpcodeOf(s.instructions[s.pc]) == mnemonic
  }

  /** The state once a recognised instruction is fetched: pc advanced, one instruction and one cycle counted. */
  function Counted(s: State): State {
    s.(pc := s.pc + 1, instructionCount := s.instructionCount + 1, cycleCount := s.cycleCount + 1)
  }

  /** `after` is `before` with register `rd` set to `value` and every other register as it was. */
  predicate Writes(before: map<int, int>, after: map<int, int>, rd: int, value: int) {
    && after.Keys == before.Keys + {rd} && after[rd] == value
    && forall r :: r in before && r != rd ==> after[r] == before[r]
  }

  lemma WritesUpdate(registers: map<int, int>, rd: int, value: int)
    ensures Writes(registers, registers[rd := value], rd, value)
  {
  }

  /** A line whose opcode has no colon is dispatched with one cycle charged. */
  lemma StepDispatches(s: State, mnemonic: string)
    requires Fetches(s, mnemonic) && ':' !in mnemonic
    ensures Step(s) == ExecOpcode(s.(pc := s.pc + 1, cycleCount := s.cycleCount + 1), Decode(mnemonic), CurrentTokens(s), s.instructions[s.pc])
  {
    ExecDispatches(s.(pc := s.pc + 1), s.instructions[s.pc]);
  }

  /**
   * A label line (a colon in its first token) only moves pc to the next
   * line: no register, counter or anything else changes.
   */
  lemma StepLabelLine(s: State)
    requires s.pc < |s.instructions| && IsLabelLine(s.instructions[s.pc])
    ensures Step(s) == Outcome(s.(pc := s.pc + 1), None, None)
  {
  }

  /** A line with no tokens at all (nothing but whitespace and commas) raises with only pc advanced. */
  lemma StepNoTokens(s: State)
    requires s.pc < |s.instructions| && |CurrentTokens(s)| == 0
    ensures Step(s) == Outcome(s.(pc := s.pc + 1), Some(NoTokens), None)
  {
  }

  /** An unknown opcode costs a cycle, counts no instruction, reports the line and carries on. */
  lemma StepUnknown(s: State)
    requires s.pc < |s.instructions| && CostsCycle(s.instructions[s.pc])
    requires Decode(OpcodeOf(s.instructions[s.pc])) == Unrecognised
    ensures Step(s) == Outcome(s.(pc := s.pc + 1, cycleCount := s.cycleCount + 1), None,
                               Some(UnknownInstruction(s.instructions[s.pc])))
  {
    ExecDispatches(s.(pc := s.pc + 1), s.instructions[s.pc]);
  }

  /**
   * `add rd, rs1, rs2` and `sub rd, rs1, rs2`: register `rd` receives the sum
   * or difference and nothing else but pc and the counters changes; reading
   * a register that does not exist raises after the instruction is counted.
   */
  lemma StepArith(s: State, subtract: bool, rd: int, rs1: int, rs2: int)
    requires Fetches(s, if subtract then "sub" else "add") && HasOperands(CurrentTokens(s), [rd, rs1, rs2])
    ensures var o := Step(s);
      && (rs1 in s.registers && rs2 in s.registers ==>
            var value := if subtract then s.registers[rs1] - s.registers[rs2] else s.registers[rs1] + s.registers[rs2];
            && o.fault == None && o.note == None
            && o.after == Counted(s).(registers := o.after.registers)
            && Writes(s.registers, o.after.registers, rd, value))
      && (rs1 !in s.registers ==> o == Outcome(Counted(s), Some(UnknownRegister(rs1)), None))
      && (rs1 in s.registers && rs2 !in s.registers ==> o == Outcome(Counted(s), Some(UnknownRegister(rs2)), None))
  {
    StepDispatches(s, if subtract then "sub" else "add");
    OperandsOf(CurrentTokens(s), [rd, rs1, rs2]);
    if rs1 in s.registers && rs2 in s.registers {
      WritesUpdate(s.registers, rd, if subtract then s.registers[rs1] - s.registers[rs2] else s.registers[rs1] + s.registers[rs2]);
    }
  }

  /** `addi rd, rs1, imm`: register `rd` receives `rs1` plus the immediate. */
  lemma StepAddi(s: State, rd: int, rs1: int, imm: int)
    requires Fetches(s, "addi") && HasOperands(CurrentTokens(s), [rd, rs1, imm])
    ensures var o := Step(s);
      && (rs1 in s.registers ==>
            && o.fault == None && o.note == None
            && o.after == Counted(s).(registers := o.after.registers)
            && Writes(s.registers, o.after.registers, rd, s.registers[rs1] + imm))
      && (rs1 !in s.registers ==> o == Outcome(Counted(s), Some(UnknownRegister(rs1)), None))
  {
    StepDispatches(s, "addi");
    OperandsOf(CurrentTokens(s), [rd, rs1, imm]);
    if rs1 in s.registers {
      WritesUpdate(s.registers, rd, s.registers[rs1] + imm);
    }
  }

  /** `li rd, imm`: register `rd` receives the immediate; any register index is accepted. */
  lemma StepLi(s: State, rd: int, imm: int)
    requires Fetches(s, "li") && HasOperands(CurrentTokens(s), [rd, imm])
    ensures var o := Step(s);
      && o.fault == None && o.note == None
      && o.after == Counted(s).(registers := o.after.registers)
      && Writes(s.registers, o.after.registers, rd, imm)
  {
    StepDispatches(s, "li");
    OperandsOf(CurrentTokens(s), [rd, imm]);
    WritesUpdate(s.registers, rd, imm);
  }

  /**
   * An `add`, `sub`, `addi` or `li` whose operands are missing or not
   * integers raises once the instruction has been counted.
   */
  lemma StepBadOperands(s: State, mnemonic: string)
    requires mnemonic == "add" || mnemonic == "sub" || mnemonic == "addi" || mnemonic == "li"
    requires Fetches(s, mnemonic)
    requires IntOperands(CurrentTokens(s), if mnemonic == "li" then 2 else 3).Failure?
    ensures Step(s) == Outcome(Counted(s), Some(IntOperands(CurrentTokens(s), if mnemonic == "li" then 2 else 3).error), None)
  {
    StepDispatches(s, mnemonic);
  }

  /**
   * `beq rs1, rs2, name`: when both registers exist and are equal, pc moves
   * to the label, or to the next line (with a report) when the label is
   * unknown; otherwise pc moves to the next line. No register changes.
   */
  lemma StepBeq(s: State, rs1: int, rs2: int)
    requires Fetches(s, "beq") && HasOperands(CurrentTokens(s), [rs1, rs2]) && |CurrentTokens(s)| > 3
    ensures var o := Step(s); var name := CurrentTokens(s)[3];
      && (rs1 in s.registers && rs2 in s.registers && s.registers[rs1] == s.registers[rs2] ==>
            if name in s.labels then o == Outcome(Counted(s).(pc := s.labels[name]), None, None)
            else o == Outcome(Counted(s), None, Some(LabelNotFound(name))))
      && (rs1 in s.registers && rs2 in s.registers && s.registers[rs1] != s.registers[rs2] ==>
            o == Outcome(Counted(s), None, None))
      && (rs1 !in s.registers ==> o == Outcome(Counted(s), Some(UnknownRegister(rs1)), None))
      && (rs1 in s.registers && rs2 !in s.registers ==> o == Outcome(Counted(s), Some(UnknownRegister(rs2)), None))
  {
    StepDispatches(s, "beq");
    OperandsOf(CurrentTokens(s), [rs1, rs2]);
  }

  /**
   * A `beq` that is not counted: its register operands do not convert, or
   * the line has no label token. Only pc and the cycle count change before
   * it raises.
   */
  lemma StepBeqUncounted(s: State)
    requires Fetches(s, "beq")
    requires IntOperands(CurrentTokens(s), 2).Failure? || |CurrentTokens(s)| == 3
    ensures Step(s).after == s.(pc := s.pc + 1, cycleCount := s.cycleCount + 1)
    ensures Step(s).fault.Some?
  {
    StepDispatches(s, "beq");
  }

  /**
   * `jal rd, name` (exactly three tokens): register `rd` receives the index
   * of the line after the `jal`, then pc moves to the label, or stays on that
   * next line with a report when the label is unknown.
   */
  lemma StepJalLink(s: State, rd: int)
    requires Fetches(s, "jal") && |CurrentTokens(s)| == 3 && ParseInt(CurrentTokens(s)[1]) == Some(rd)
    ensures var o := Step(s); var name := CurrentTokens(s)[2];
      && o.fault == None
      && o.after == Counted(s).(registers := o.after.registers, pc := o.after.pc)
      && Writes(s.registers, o.after.registers, rd, s.pc + 1)
      && (name in s.labels ==> o.after.pc == s.labels[name] && o.note == None)
      && (name !in s.labels ==> o.after.pc == s.pc + 1 && o.note == Some(LabelNotFound(name)))
  {
    StepDispatches(s, "jal");
    WritesUpdate(s.registers, rd, s.pc + 1);
  }

  /**
   * `jal name` (two tokens, or more than three): the return index goes to
   * register 1 and the second token is the label; one token raises.
   */
  lemma StepJalDefault(s: State)
    requires Fetches(s, "jal") && |CurrentTokens(s)| != 3
    ensures var o := Step(s); var parts := CurrentTokens(s);
      && (|parts| == 1 ==> o == Outcome(Counted(s), Some(MissingOperand), None))
      && (|parts| >= 2 ==>
            && o.fault == None
            && o.after == Counted(s).(registers := o.after.registers, pc := o.after.pc)
            && Writes(s.registers, o.after.registers, 1, s.pc + 1)
            && (parts[1] in s.labels ==> o.after.pc == s.labels[parts[1]] && o.note == None)
            && (parts[1] !in s.labels ==> o.after.pc == s.pc + 1 && o.note == Some(LabelNotFound(parts[1]))))
  {
    StepDispatches(s, "jal");
    WritesUpdate(s.registers, 1, s.pc + 1);
  }

  /**
   * `jal rd, name` (exactly three tokens) whose register token is not an
   * integer, such as `jal x1, name`: it raises once counted, with no
   * register written and pc on the next line.
   */
  lemma StepJalBadRegister(s: State)
    requires Fetches(s, "jal") && |CurrentTokens(s)| == 3 && ParseInt(CurrentTokens(s)[1]).None?
    ensures Step(s) == Outcome(Counted(s), Some(NotAnInteger(CurrentTokens(s)[1])), None)
  {
    StepDispatches(s, "jal");
  }

  /** `j name`: only pc and the counters change; an unknown label falls through to the next line. */
  lemma StepJ(s: State)
    requires Fetches(s, "j")
    ensures var o := Step(s); var parts := CurrentTokens(s);
      && (|parts| == 1 ==> o == Outcome(Counted(s), Some(MissingOperand), None))
      && (|parts| >= 2 && parts[1] in s.labels ==> o == Outcome(Counted(s).(pc := s.labels[parts[1]]), None, None))
      && (|parts| >= 2 && parts[1] !in s.labels ==> o == Outcome(Counted(s), None, Some(LabelNotFound(parts[1]))))
  {
    StepDispatches(s, "j");
  }

  // ---------------------------------------------------------------------
  // Whole runs of the fetch-execute loop.
  // ---------------------------------------------------------------------

  /**
   * A run that can take a turn, described through that turn's outcome `o`
   * and the rest of the run `rest` after it.
   */
  lemma TakeTurn(s: State, fuel: nat) returns (o: Outcome, rest: RunResult)
    requires s.pc < |s.instructions| && fuel > 0
    ensures TurnFacts(s, o)
    ensures rest == Run(o.after, fuel - 1)
    ensures o.fault.Some? ==> Run(s, fuel) == RunResult(o.after, Faulted(o.fault.value), NoteSeq(o.note))
    ensures o.fault.None? ==> Run(s, fuel) == Prefixed(NoteSeq(o.note), rest)
  {
    o := Step(s);
    StepFacts(s);
    RunUnfolds(s, fuel, o);
    rest := Run(o.after, fuel - 1);
  }

  /**
   * A run never changes memory, the program or the label table and never
   * drops a register; each turn adds one cycle at most and never more
   * instructions than cycles, so `instructionCount <= cycleCount` is kept.
   * A run halts exactly when pc leaves the program without an exception,
   * and runs out of fuel only with pc still inside it.
   */
  lemma {:induction false} RunFacts(s: State, fuel: nat)
    ensures var r := Run(s, fuel);
      && Untouched(s, r.final)
      && s.cycleCount <= r.final.cycleCount <= s.cycleCount + fuel
      && s.instructionCount <= r.final.instructionCount
      && r.final.instructionCount - s.instructionCount <= r.final.cycleCount - s.cycleCount
      && (r.stop == Halted <==> r.final.pc >= |s.instructions| && !r.stop.Faulted?)
      && (r.stop == OutOfFuel ==> r.final.pc < |s.instructions|)
    decreases fuel
  {
    if s.pc < |s.instructions| && fuel > 0 {
      var o, rest := TakeTurn(s, fuel);
      if o.fault.None? {
        RunFacts(o.after, fuel - 1);
      }
    }
  }

  /** From a fresh simulator on, no more instructions than cycles are ever counted. */
  lemma InstructionsWithinCycles(lines: seq<string>, fuel: nat)
    ensures var r := Run(Loaded(Initial(), lines), fuel);
      r.final.instructionCount <= r.final.cycleCount
  {
    RunFacts(Loaded(Initial(), lines), fuel);
  }

  /** pc is at most one past the last line, and every recorded label is the index of a line. */
  predicate InBounds(s: State) {
    s.pc <= |s.instructions| && forall name :: name in s.labels ==> s.labels[name] < |s.instructions|
  }

  /** Loading a program into a fresh simulator gives a state in bounds. */
  lemma LoadedInBounds(lines: seq<string>)
    ensures InBounds(Loaded(Initial(), lines))
  {
    LabelsInBounds(lines);
  }

  /** Every turn of the loop keeps the state in bounds. */
  lemma TurnInBounds(s: State, o: Outcome)
    requires s.pc < |s.instructions| && InBounds(s) && TurnFacts(s, o)
    ensures InBounds(o.after)
  {
    if o.after.pc in s.labels.Values {
      var name :| name in s.labels && s.labels[name] == o.after.pc;
    }
  }

  /** A whole run keeps the state in bounds. */
  lemma {:induction false} RunInBounds(s: State, fuel: nat)
    requires InBounds(s)
    ensures InBounds(Run(s, fuel).final)
    decreases fuel
  {
    if s.pc < |s.instructions| && fuel > 0 {
      var o, rest := TakeTurn(s, fuel);
      TurnInBounds(s, o);
      if o.fault.None? {
        RunInBounds(o.after, fuel - 1);
      }
    }
  }

  /**
   * A jump to a label of the loaded program lands on the last line that
   * defines that label (which the next turn skips when it is a label line).
   */
  lemma JumpLandsOnDefinition(s: State, name: string)
    requires s.labels == LabelsUpTo(map[], s.instructions, |s.instructions|) && name in s.labels
    ensures var pc := Jump(s, name).after.pc;
      && Defines(s.instructions, pc, name)
      && forall j :: pc < j < |s.instructions| ==> !Defines(s.instructions, j, name)
  {
    LabelsSound(map[], s.instructions, |s.instructions|, name);
  }

  // ---------------------------------------------------------------------
  // Two small programs.
  // ---------------------------------------------------------------------

  /** A label line `name:` and a jump `j name` back to it. */
  function SpinProgram(name: string): seq<string> {
    [name + ":", FormatLine("j", [name])]
  }

  lemma SpinLines(name: string)
    requires IsWord(name) && ':' !in name && ',' !in name
    ensures var p := SpinProgram(name);
      && IsLabelLine(p[0])
      && Tokens(p[1]) == ["j", name] && OpcodeOf(p[1]) == "j"
      && LabelsUpTo(map[], p, 2) == map[name := 0]
  {
    var p := SpinProgram(name);
    ColonLine(name);
    JumpLine(name);
    LabelNameOfColonLine(name);
    assert LabelsUpTo(map[], p, 1) == map[name := 0];
  }

  /** `name:` alone on a line is a label line. */
  lemma ColonLine(name: string)
    requires IsWord(name) && ':' !in name && ',' !in name
    ensures IsLabelLine(name + ":")
  {
    var line := name + ":";
    assert IsWord(line) && ',' !in line by {
      assert forall i :: 0 <= i < |line| ==> line[i] == if i < |name| then name[i] else ':';
    }
    TokensOfFormatLine(line, []);
    assert FormatLine(line, []) == line;
    LowerColon(line);
  }

  /** `j name` is a jump to `name` and holds no colon. */
  lemma JumpLine(name: string)
    requires IsWord(name) && ':' !in name && ',' !in name
    ensures var line := FormatLine("j", [name]);
      Tokens(line) == ["j", name] && OpcodeOf(line) == "j" && ':' !in line
  {
    TokensOfFormatLine("j", [name]);
    assert Lower("j") == "j";
    assert FormatLine("j", [name]) == "j " + name;
  }

  lemma {:induction false} SpinFrom(name: string, s: State, fuel: nat)
    requires IsWord(name) && ':' !in name && ',' !in name
    requires s.instructions == SpinProgram(name) && s.labels == map[name := 0] && s.pc < 2
    ensures Run(s, fuel).stop == OutOfFuel
    decreases fuel
  {
    if fuel > 0 {
      var t := SpinTurn(name, s, fuel);
      SpinFrom(name, t, fuel - 1);
    }
  }

  /** One turn of the spinning program: the run goes on from a state that is again inside it. */
  lemma SpinTurn(name: string, s: State, fuel: nat) returns (t: State)
    requires IsWord(name) && ':' !in name && ',' !in name
    requires s.instructions == SpinProgram(name) && s.labels == map[name := 0] && s.pc < 2 && fuel > 0
    ensures Run(s, fuel) == Run(t, fuel - 1)
    ensures t.instructions == s.instructions && t.labels == s.labels && t.pc < 2
  {
    SpinLines(name);
    if s.pc == 0 {
      StepLabelLine(s);
    } else {
      StepJ(s);
    }
    t := Step(s).after;
    RunUnfolds(s, fuel, Step(s));
  }

  /**
   * The loop need not end: a jump to its own label runs out of any step
   * budget, the label line and the jump taking turns forever.
   */
  lemma SpinNeverHalts(name: string, fuel: nat)
    requires IsWord(name) && ':' !in name && ',' !in name
    ensures Run(Loaded(Initial(), SpinProgram(name)), fuel).stop == OutOfFuel
  {
    SpinLines(name);
    SpinFrom(name, Loaded(Initial(), SpinProgram(name)), fuel);
  }

  /** `li a, x`, `li b, y`, `add d, a, b`, with the numbers written as `str()` writes them. */
  function SumProgram(a: int, x: int, b: int, y: int, d: int): seq<string> {
    [FormatLine("li", [ShowInt(a), ShowInt(x)]),
     FormatLine("li", [ShowInt(b), ShowInt(y)]),
     FormatLine("add", [ShowInt(d), ShowInt(a), ShowInt(b)])]
  }

  /** The line has tokens, its lower-cased opcode is `mnemonic` and its operands read as `values`. */
  predicate Reads(line: string, mnemonic: string, values: seq<int>) {
    |Tokens(line)| > 0 && OpcodeOf(line) == mnemonic && HasOperands(Tokens(line), values)
  }

  /** `li rd, imm` as written by `FormatLine` reads back as a load of `imm` into `rd`. */
  lemma LiLine(rd: int, imm: int)
    ensures Reads(FormatLine("li", [ShowInt(rd), ShowInt(imm)]), "li", [rd, imm])
  {
    ShowIntWord(rd);
    ShowIntWord(imm);
    TokensOfFormatLine("li", [ShowInt(rd), ShowInt(imm)]);
    assert Lower("li") == "li";
    ParseShowInt(rd);
    ParseShowInt(imm);
  }

  /** `add rd, rs1, rs2` as written by `FormatLine` reads back as that sum. */
  lemma AddLine(rd: int, rs1: int, rs2: int)
    ensures Reads(FormatLine("add", [ShowInt(rd), ShowInt(rs1), ShowInt(rs2)]), "add", [rd, rs1, rs2])
  {
    ShowIntWord(rd);
    ShowIntWord(rs1);
    ShowIntWord(rs2);
    TokensOfFormatLine("add", [ShowInt(rd), ShowInt(rs1), ShowInt(rs2)]);
    assert Lower("add") == "add";
    ParseShowInt(rd);
    ParseShowInt(rs1);
    ParseShowInt(rs2);
  }

  /** A turn on `li rd, imm` that the run continues from. */
  lemma LiTurn(s: State, fuel: nat, rd: int, imm: int) returns (t: State)
    requires s.pc < |s.instructions| && Reads(s.instructions[s.pc], "li", [rd, imm]) && fuel > 0
    ensures Run(s, fuel) == Run(t, fuel - 1)
    ensures t.pc == s.pc + 1 && t.instructions == s.instructions
    ensures t.instructionCount == s.instructionCount + 1 && t.cycleCount == s.cycleCount + 1
    ensures Writes(s.registers, t.registers, rd, imm)
  {
    StepLi(s, rd, imm);
    t := Step(s).after;
    RunUnfolds(s, fuel, Step(s));
  }

  /** A turn on `add rd, rs1, rs2` over existing registers that the run continues from. */
  lemma AddTurn(s: State, fuel: nat, rd: int, rs1: int, rs2: int) returns (t: State)
    requires s.pc < |s.instructions| && Reads(s.instructions[s.pc], "add", [rd, rs1, rs2]) && fuel > 0
    requires rs1 in s.registers && rs2 in s.registers
    ensures Run(s, fuel) == Run(t, fuel - 1)
    ensures t.pc == s.pc + 1 && t.instructions == s.instructions
    ensures t.instructionCount == s.instructionCount + 1 && t.cycleCount == s.cycleCount + 1
    ensures Writes(s.registers, t.registers, rd, s.registers[rs1] + s.registers[rs2])
  {
    StepArith(s, false, rd, rs1, rs2);
    t := Step(s).after;
    RunUnfolds(s, fuel, Step(s));
  }

  /**
   * Two loads into distinct registers and their sum: three turns, three
   * instructions and three cycles; register `d` holds `x + y`, registers
   * other than `a`, `b` and `d` are as they were, and the run halts with
   * nothing reported.
   */
  lemma SumRun(s: State, a: int, x: int, b: int, y: int, d: int, fuel: nat)
    requires a != b && s.instructions == SumProgram(a, x, b, y, d) && s.pc == 0 && fuel >= 3
    ensures var r := Run(s, fuel);
      && r.stop == Halted && r.notes == [] && r.final.pc == 3
      && d in r.final.registers && r.final.registers[d] == x + y
      && (forall q :: q in s.registers && q != a && q != b && q != d ==>
            q in r.final.registers && r.final.registers[q] == s.registers[q])
      && r.final.instructionCount == s.instructionCount + 3 && r.final.cycleCount == s.cycleCount + 3
  {
    LiLine(a, x);
    LiLine(b, y);
    AddLine(d, a, b);
    SumTurns(s, a, x, b, y, d, fuel);
  }

  /** `SumRun` for any three lines that read as the two loads and the sum. */
  lemma SumTurns(s: State, a: int, x: int, b: int, y: int, d: int, fuel: nat)
    requires a != b && |s.instructions| == 3 && s.pc == 0 && fuel >= 3
    requires Reads(s.instructions[0], "li", [a, x]) && Reads(s.instructions[1], "li", [b, y])
    requires Reads(s.instructions[2], "add", [d, a, b])
    ensures var r := Run(s, fuel);
      && r.stop == Halted && r.notes == [] && r.final.pc == 3
      && d in r.final.registers && r.final.registers[d] == x + y
      && (forall q :: q in s.registers && q != a && q != b && q != d ==>
            q in r.final.registers && r.final.registers[q] == s.registers[q])
      && r.final.instructionCount == s.instructionCount + 3 && r.final.cycleCount == s.cycleCount + 3
  {
    var s2 := LoadTwo(s, a, x, b, y, fuel);
    var s3 := AddTurn(s2, fuel - 2, d, a, b);
    assert Run(s3, fuel - 3) == RunResult(s3, Halted, []);
  }

  /** The two loads of `SumTurns`: registers `a` and `b` hold `x` and `y`, the others are kept. */
  lemma LoadTwo(s: State, a: int, x: int, b: int, y: int, fuel: nat) returns (t: State)
    requires a != b && |s.instructions| == 3 && s.pc == 0 && fuel >= 3
    requires Reads(s.instructions[0], "li", [a, x]) && Reads(s.instructions[1], "li", [b, y])
    ensures Run(s, fuel) == Run(t, fuel - 2)
    ensures t.pc == 2 && t.instructions == s.instructions
    ensures t.instructionCount == s.instructionCount + 2 && t.cycleCount == s.cycleCount + 2
    ensures t.registers.Keys == s.registers.Keys + {a, b} && t.registers[a] == x && t.registers[b] == y
    ensures forall q :: q in s.registers && q != a && q != b ==> t.registers[q] == s.registers[q]
  {
    var s1 := LiTurn(s, fuel, a, x);
    t := LiTurn(s1, fuel - 1, b, y);
  }
}
