/**
 * The simulator's state as a value, and its behaviour as functions of that
 * value: one instruction (`Exec`), one turn of the fetch-execute loop
 * (`Step`) and the loop itself under a step budget (`Run`). The class in
 * module Interpreter updates its fields in place and is proved to follow
 * these functions.
 */
module Engine {
  import opened Wrappers
  import opened Text
  import opened Labels

  /**
   * The Python exceptions an instruction can raise: `IndexError` on a line
   * with no tokens (`NoTokens`) or a missing operand (`MissingOperand`, which
   * also covers too few values to unpack), `ValueError` from `int()`
   * (`NotAnInteger`) and `KeyError` when a register that was never written is
   * read (`UnknownRegister`).
   */
  datatype Fault = NoTokens | MissingOperand | NotAnInteger(token: string) | UnknownRegister(index: int)

  /** The two messages the simulator prints and then carries on. */
  datatype Diagnostic = UnknownInstruction(line: string) | LabelNotFound(name: string)

  /** Every field of the simulator object. */
  datatype State = State(
    registers: map<int, int>,
    memory: map<int, int>,
    pc: nat,
    instructions: seq<string>,
    labels: map<string, nat>,
    instructionCount: nat,
    memoryAccesses: nat,
    cycleCount: nat)

  /** What one instruction leaves behind: the new state, the exception if one was raised, and the message if one was printed. */
  datatype Outcome = Outcome(after: State, fault: Option<Fault>, note: Option<Diagnostic>)

  /** Why a run stopped: the pc left the program, an instruction raised, or the step budget ran out. */
  datatype Stop = Halted | Faulted(fault: Fault) | OutOfFuel

  datatype RunResult = RunResult(final: State, stop: Stop, notes: seq<Diagnostic>)

  /** The mnemonics the simulator recognises, and everything else. */
  datatype Opcode = Add | Addi | Sub | Li | Beq | Jal | J | Unrecognised

  /** Dispatch on an opcode that has already been lower-cased. */
  function Decode(opcode: string): Opcode {
    if opcode == "add" then Add
    else if opcode == "addi" then Addi
    else if opcode == "sub" then Sub
    else if opcode == "li" then Li
    else if opcode == "beq" then Beq
    else if opcode == "jal" then Jal
    else if opcode == "j" then J
    else Unrecognised
  }

  /** `{i: 0 for i in range(n)}`: registers `0 .. n-1`, all zero, and no others. */
  function ZeroRegisters(n: nat): (registers: map<int, int>)
    ensures forall r :: r in registers <==> 0 <= r < n
    ensures forall r :: r in registers ==> registers[r] == 0
  {
    if n == 0 then map[] else ZeroRegisters(n - 1)[n - 1 := 0]
  }

  /** The state of a freshly constructed simulator. */
  function Initial(): State {
    State(ZeroRegisters(32), map[], 0, [], map[], 0, 0, 0)
  }

  /** The state once `lines` are loaded and their labels recorded. */
  function Loaded(s: State, lines: seq<string>): State {
    s.(instructions := lines, labels := LabelsUpTo(s.labels, lines, |lines|))
  }

  /**
   * Where `resolve_label` sends control: the recorded index of the label `name`, or else `pc`, which at
   * every call site already points past the jumping instruction.
   */
  function LabelTarget(labels: map<string, nat>, pc: nat, name: string): nat {
    if name in labels then labels[name] else pc
  }

  /**
   * The integers named by operands `1 .. n` of `parts`, converted left to
   * right; the first operand that is missing or not an integer raises.
   */
  function IntOperands(parts: seq<string>, n: nat): (r: Result<seq<int>, Fault>)
    requires |parts| > 0
    ensures r.Success? ==> |r.value| == n
  {
    if n == 0 then Success([])
    else
      match IntOperands(parts, n - 1)
      case Failure(f) => Failure(f)
      case Success(values) =>
        if |parts| <= n then Failure(MissingOperand)
        else
          match ParseInt(parts[n])
          case None => Failure(NotAnInteger(parts[n]))
          case Some(v) => Success(values + [v])
  }

  /**
   * The conversion succeeds exactly when operands `1 .. n` are all present
   * and all integers, and then yields their values in order.
   */
  lemma {:induction false} IntOperandsMeaning(parts: seq<string>, n: nat)
    requires |parts| > 0
    ensures IntOperands(parts, n).Success? <==> |parts| > n && forall k :: 1 <= k <= n ==> ParseInt(parts[k]).Some?
    ensures IntOperands(parts, n).Success? ==> forall k :: 1 <= k <= n ==> ParseInt(parts[k]) == Some(IntOperands(parts, n).value[k - 1])
  {
    if n > 0 {
      IntOperandsMeaning(parts, n - 1);
      if IntOperands(parts, n).Success? {
        var values := IntOperands(parts, n).value;
        assert values == IntOperands(parts, n - 1).value + [values[n - 1]];
      }
    }
  }

  /** `registers[r]`, which raises `KeyError` for an index that is not in the dictionary. */
  function ReadRegister(registers: map<int, int>, r: int): Result<int, Fault> {
    if r in registers then Success(registers[r]) else Failure(UnknownRegister(r))
  }

  /** The first token, lower-cased, of a line that has tokens. */
  function OpcodeOf(line: string): string
    requires |Tokens(line)| > 0
  {
    Lower(Tokens(line)[0])
  }

  /** The label test of the execution loop: a colon in the first token. */
  predicate IsLabelLine(line: string) {
    |Tokens(line)| > 0 && ':' in OpcodeOf(line)
  }

  function Fail(s: State, f: Fault): Outcome {
    Outcome(s, Some(f), None)
  }

  function Done(s: State): Outcome {
    Outcome(s, None, None)
  }

  /** A jump to the label `name`, reporting the name when it is not in the table. */
  function Jump(s: State, name: string): Outcome {
    Outcome(s.(pc := LabelTarget(s.labels, s.pc, name)), None,
            if name in s.labels then None else Some(LabelNotFound(name)))
  }

  /**
   * `execute_instruction(line)` on state `s`, whose pc already points past
   * the line. A line without tokens raises; a label line (colon in the first
   * token) does nothing; any other line costs a cycle and is dispatched on
   * its lower-cased opcode.
   */
  function Exec(s: State, line: string): Outcome {
    var parts := Tokens(line);
    if |parts| == 0 then Fail(s, NoTokens)
    else if ':' in OpcodeOf(line) then Done(s)
    else ExecOpcode(s.(cycleCount := s.cycleCount + 1), Decode(OpcodeOf(line)), parts, line)
  }

  /** A line with tokens whose first token has no colon is dispatched on its opcode. */
  lemma ExecDispatches(s: State, line: string)
    requires |Tokens(line)| > 0 && ':' !in OpcodeOf(line)
    ensures Exec(s, line) == ExecOpcode(s.(cycleCount := s.cycleCount + 1), Decode(OpcodeOf(line)), Tokens(line), line)
  {
  }

  /**
   * The branches of the dispatch. Each recognised mnemonic counts as an
   * instruction, `beq` only once its two register operands are converted.
   */
  function ExecOpcode(s: State, op: Opcode, parts: seq<string>, line: string): Outcome
    requires |parts| > 0
  {
    var counted := s.(instructionCount := s.instructionCount + 1);
    match op
    case Add => ExecArith(counted, parts, false)
    case Sub => ExecArith(counted, parts, true)
    case Addi => ExecAddi(counted, parts)
    case Li => ExecLi(counted, parts)
    case Beq => ExecBeq(s, parts)
    case Jal => ExecJal(counted, parts)
    case J => ExecJ(counted, parts)
    case Unrecognised => Outcome(s, None, Some(UnknownInstruction(line)))
  }

  /** `add rd rs1 rs2` or `sub rd rs1 rs2`, once counted. */
  function ExecArith(s: State, parts: seq<string>, subtract: bool): Outcome
    requires |parts| > 0
  {
    match IntOperands(parts, 3)
    case Failure(f) => Fail(s, f)
    case Success(v) =>
      match ReadRegister(s.registers, v[1])
      case Failure(f) => Fail(s, f)
      case Success(a) =>
        match ReadRegister(s.registers, v[2])
        case Failure(f) => Fail(s, f)
        case Success(b) => Done(s.(registers := s.registers[v[0] := if subtract then a - b else a + b]))
  }

  /** `addi rd rs1 imm`, once counted. */
  function ExecAddi(s: State, parts: seq<string>): Outcome
    requires |parts| > 0
  {
    match IntOperands(parts, 3)
    case Failure(f) => Fail(s, f)
    case Success(v) =>
      match ReadRegister(s.registers, v[1])
      case Failure(f) => Fail(s, f)
      case Success(a) => Done(s.(registers := s.registers[v[0] := a + v[2]]))
  }

  /** `li rd imm`, once counted. */
  function ExecLi(s: State, parts: seq<string>): Outcome
    requires |parts| > 0
  {
    match IntOperands(parts, 2)
    case Failure(f) => Fail(s, f)
    case Success(v) => Done(s.(registers := s.registers[v[0] := v[1]]))
  }

  /** `beq rs1 rs2 label`: it is counted only after its register operands are converted. */
  function ExecBeq(s: State, parts: seq<string>): Outcome
    requires |parts| > 0
  {
    match IntOperands(parts, 2)
    case Failure(f) => Fail(s, f)
    case Success(v) =>
      if |parts| < 4 then Fail(s, MissingOperand)
      else
        var counted := s.(instructionCount := s.instructionCount + 1);
        match ReadRegister(counted.registers, v[0])
        case Failure(f) => Fail(counted, f)
        case Success(a) =>
          match ReadRegister(counted.registers, v[1])
          case Failure(f) => Fail(counted, f)
          case Success(b) => if a == b then Jump(counted, parts[3]) else Done(counted)
  }

  /** `j label`, once counted. */
  function ExecJ(s: State, parts: seq<string>): Outcome
    requires |parts| > 0
  {
    if |parts| < 2 then Fail(s, MissingOperand) else Jump(s, parts[1])
  }

  /**
   * `jal rd label` when the line has exactly three tokens, otherwise
   * `jal label` linking through register 1; once counted. The saved value is
   * the pc, which already points past the `jal`.
   */
  function ExecJal(s: State, parts: seq<string>): Outcome
    requires |parts| > 0
  {
    if |parts| == 3 then
      match ParseInt(parts[1])
      case None => Fail(s, NotAnInteger(parts[1]))
      case Some(rd) => Jump(s.(registers := s.registers[rd := s.pc]), parts[2])
    else if |parts| < 2 then Fail(s, MissingOperand)
    else Jump(s.(registers := s.registers[1 := s.pc]), parts[1])
  }

  /** One turn of the loop of `execute`: fetch the line at pc, advance pc, execute the line. */
  function Step(s: State): Outcome
    requires s.pc < |s.instructions|
  {
    Exec(s.(pc := s.pc + 1), s.instructions[s.pc])
  }

  function NoteSeq(note: Option<Diagnostic>): seq<Diagnostic> {
    if note.Some? then [note.value] else []
  }

  /**
   * `execute` with at most `fuel` turns of its loop: it halts once pc is not
   * below the number of lines, stops at the first exception, and otherwise
   * runs out of fuel. The messages printed on the way are collected. The
   * loop test, the budget test and the loop body are three functions.
   */
  function Run(s: State, fuel: nat): RunResult
    decreases fuel, 2
  {
    if s.pc >= |s.instructions| then RunResult(s, Halted, []) else Budget(s, fuel)
  }

  /** The step budget: a run with no fuel left stops, otherwise it takes a turn. */
  function Budget(s: State, fuel: nat): RunResult
    requires s.pc < |s.instructions|
    decreases fuel, 1
  {
    if fuel == 0 then RunResult(s, OutOfFuel, []) else Turn(s, fuel)
  }

  /** One turn of the loop body, then the rest of the run, unless the turn raised. */
  function Turn(s: State, fuel: nat): RunResult
    requires s.pc < |s.instructions| && fuel > 0
    decreases fuel, 0
  {
    var o := Step(s);
    if o.fault.Some? then RunResult(o.after, Faulted(o.fault.value), NoteSeq(o.note))
    else Prefixed(NoteSeq(o.note), Run(o.after, fuel - 1))
  }

  /** A run that can take a turn is that turn's outcome followed by the rest of the run. */
  lemma RunUnfolds(s: State, fuel: nat, o: Outcome)
    requires s.pc < |s.instructions| && fuel > 0 && Step(s) == o
    ensures o.fault.Some? ==> Run(s, fuel) == RunResult(o.after, Faulted(o.fault.value), NoteSeq(o.note))
    ensures o.fault.None? ==> Run(s, fuel) == Prefixed(NoteSeq(o.note), Run(o.after, fuel - 1))
  {
    assert Run(s, fuel) == Budget(s, fuel) == Turn(s, fuel);
  }

  /** A run whose collected messages are preceded by `notes`. */
  function Prefixed(notes: seq<Diagnostic>, r: RunResult): RunResult {
    r.(notes := notes + r.notes)
  }
}
