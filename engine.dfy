/**
 * The CHIP-8 execution engine of `run_instructions` (src/main.rs): the machine
 * state, the fetch and decode of one big-endian opcode, the dispatch on its
 * families, and the loop that repeats it until `pc` leaves the program.
 *
 * The instruction set is the one of Cowgod's Chip-8 Technical Reference v1.0,
 * section 3.1, with the deviations of the Rust code kept as written: opcodes
 * are fetched from the program bytes from `pc = 0`, `SHL` divides by 2,
 * `SUB`/`SUBN` subtract without wrapping, and `LD [I], Vx` / `LD Vx, [I]`
 * copy all sixteen registers.
 *
 * A Rust debug build panics on `u8`/`u16` overflow and on an index out of
 * range; each panic is a `Fault` here, and a fault ends the run.
 *
 * The specification is functional (`Decode`, `Execute`, `Step`, `Run` over a
 * `State` value); the class `Machine` holds the same state in arrays and
 * mutable fields, as the Rust function does, and its methods are proved to
 * compute what the functions say.
 */
module Chip8 {
  import opened Wrappers
  import opened Words

  const MemorySize: int := 4096
  const RegisterCount: int := 16
  const StackSize: int := 16

  /** Register VF, which several instructions overwrite with a flag. */
  const VF: int := 0xF

  /** A 4-bit field of an opcode: a register index or the `n` of `Dxyn`. */
  type Nibble = x: int | 0 <= x < 0x10

  /** The 12-bit address field `nnn`. */
  type Address = x: int | 0 <= x < 0x1000

  /** Why a run stops with a panic. */
  datatype Fault =
    | ArithmeticOverflow   // a `u8` or `u16` addition or subtraction that overflows
    | ProgramIndex         // `instructions[pc]` or `instructions[pc + 1]` past the end
    | StackIndex           // `stack[sp]` with `sp >= 16`
    | MemoryIndex          // `memory[I + k]` with `I + k >= 4096`

  /** The locals of `run_instructions` (src/main.rs:13-34). */
  datatype State = State(memory: seq<u8>, registers: seq<u8>, i: u16, soundTimer: u8, delayTimer: u8,
                         pc: u16, sp: u16, stack: seq<u16>)

  /** The array lengths the Rust types fix. */
  predicate ValidState(s: State)
  {
    |s.memory| == MemorySize && |s.registers| == RegisterCount && |s.stack| == StackSize
  }

  /** Everything zero, as `run_instructions` starts. */
  function Initial(): (s: State)
    ensures ValidState(s) && s.pc == 0 && s.sp == 0 && s.i == 0
    ensures forall r :: 0 <= r < RegisterCount ==> s.registers[r] == 0
  {
    State(seq(MemorySize, _ => 0), seq(RegisterCount, _ => 0), 0, 0, 0, 0, 0, seq(StackSize, _ => 0))
  }

  // ---------------------------------------------------------------------------
  // Decode
  // ---------------------------------------------------------------------------

  /** One dispatch arm of `run_instructions`, with its operand fields. */
  datatype Instruction =
    | Clear                                  // 00E0, display not implemented
    | Return                                 // 00EE
    | System(nnn: Address)                   // 0nnn, ignored
    | Jump(nnn: Address)                     // 1nnn
    | Call(nnn: Address)                     // 2nnn
    | SkipEqualByte(x: Nibble, kk: u8)       // 3xkk
    | SkipNotEqualByte(x: Nibble, kk: u8)    // 4xkk
    | SkipEqual(x: Nibble, y: Nibble)        // 5xy_
    | LoadByte(x: Nibble, kk: u8)            // 6xkk
    | AddByte(x: Nibble, kk: u8)             // 7xkk
    | Load(x: Nibble, y: Nibble)             // 8xy0
    | BitOr(x: Nibble, y: Nibble)            // 8xy1
    | BitAnd(x: Nibble, y: Nibble)           // 8xy2
    | BitXor(x: Nibble, y: Nibble)           // 8xy3
    | Add(x: Nibble, y: Nibble)              // 8xy4
    | Sub(x: Nibble, y: Nibble)              // 8xy5
    | ShiftRight(x: Nibble, y: Nibble)       // 8xy6
    | SubN(x: Nibble, y: Nibble)             // 8xy7
    | ShiftLeft(x: Nibble, y: Nibble)        // 8xyE
    | SkipNotEqual(x: Nibble, y: Nibble)     // 9xy_
    | LoadIndex(nnn: Address)                // Annn
    | JumpOffset(nnn: Address)               // Bnnn
    | Random(x: Nibble, kk: u8)              // Cxkk
    | Draw(x: Nibble, y: Nibble, n: Nibble)  // Dxyn, display not implemented
    | SkipPressed(x: Nibble)                 // Ex9E, keyboard not implemented
    | SkipNotPressed(x: Nibble)              // ExA1, keyboard not implemented
    | LoadFromDelay(x: Nibble)               // Fx07
    | WaitKey(x: Nibble)                     // Fx0A, keyboard not implemented
    | LoadDelay(x: Nibble)                   // Fx15
    | LoadSound(x: Nibble)                   // Fx18
    | AddIndex(x: Nibble)                    // Fx1E
    | LoadFont(x: Nibble)                    // Fx29, font not implemented
    | StoreDecimal(x: Nibble)                // Fx33
    | StoreRegisters(x: Nibble)              // Fx55
    | LoadRegisters(x: Nibble)               // Fx65
    | Unknown                                // an unmatched sub-opcode of 8, E or F

  /** The fields of an opcode: its family (top digit), `x`, `y`, `n`, `kk` and `nnn`. */
  datatype Fields = Fields(family: Nibble, x: Nibble, y: Nibble, n: Nibble, kk: u8, nnn: Address)

  /**
   * The fields as `run_instructions` extracts them from the two fetched
   * bytes (src/main.rs:40-50): `x` from the first byte, `y` from the second,
   * the rest from the whole opcode. They are the four hexadecimal digits of
   * the opcode, and `kk` and `nnn` are made of its low two and three digits.
   */
  function Extract(byte1: u8, byte2: u8): (f: Fields)
    ensures byte1 == f.family * 0x10 + f.x && byte2 == f.y * 0x10 + f.n
    ensures f.kk == byte2 && f.nnn == f.x * 0x100 + f.kk
  {
    var opcode := byte1 as int * 0x100 + byte2;
    Fields(opcode / 0x1000, byte1 % 0x10, byte2 / 0x10, opcode % 0x10, opcode % 0x100, opcode % 0x1000)
  }

  /**
   * The `match` on the family and, within families 0, 8, E and F, on the rest
   * (src/main.rs:54-315). In family 0 the opcode is its `nnn`.
   */
  function Select(f: Fields): Instruction
  {
    match f.family
    case 0x0 => if f.nnn == 0x0E0 then Clear else if f.nnn == 0x0EE then Return else System(f.nnn)
    case 0x1 => Jump(f.nnn)
    case 0x2 => Call(f.nnn)
    case 0x3 => SkipEqualByte(f.x, f.kk)
    case 0x4 => SkipNotEqualByte(f.x, f.kk)
    case 0x5 => SkipEqual(f.x, f.y)
    case 0x6 => LoadByte(f.x, f.kk)
    case 0x7 => AddByte(f.x, f.kk)
    case 0x8 =>
      if f.n == 0x0 then Load(f.x, f.y)
      else if f.n == 0x1 then BitOr(f.x, f.y)
      else if f.n == 0x2 then BitAnd(f.x, f.y)
      else if f.n == 0x3 then BitXor(f.x, f.y)
      else if f.n == 0x4 then Add(f.x, f.y)
      else if f.n == 0x5 then Sub(f.x, f.y)
      else if f.n == 0x6 then ShiftRight(f.x, f.y)
      else if f.n == 0x7 then SubN(f.x, f.y)
      else if f.n == 0xE then ShiftLeft(f.x, f.y)
      else Unknown
    case 0x9 => SkipNotEqual(f.x, f.y)
    case 0xA => LoadIndex(f.nnn)
    case 0xB => JumpOffset(f.nnn)
    case 0xC => Random(f.x, f.kk)
    case 0xD => Draw(f.x, f.y, f.n)
    case 0xE =>
      if f.kk == 0x9E then SkipPressed(f.x)
      else if f.kk == 0xA1 then SkipNotPressed(f.x)
      else Unknown
    case _ =>
      if f.kk == 0x07 then LoadFromDelay(f.x)
      else if f.kk == 0x0A then WaitKey(f.x)
      else if f.kk == 0x15 then LoadDelay(f.x)
      else if f.kk == 0x18 then LoadSound(f.x)
      else if f.kk == 0x1E then AddIndex(f.x)
      else if f.kk == 0x29 then LoadFont(f.x)
      else if f.kk == 0x33 then StoreDecimal(f.x)
      else if f.kk == 0x55 then StoreRegisters(f.x)
      else if f.kk == 0x65 then LoadRegisters(f.x)
      else Unknown
  }

  function Decode(byte1: u8, byte2: u8): Instruction
  {
    Select(Extract(byte1, byte2))
  }

  // ---------------------------------------------------------------------------
  // Execute
  // ---------------------------------------------------------------------------

  /** `pc += 2` of a taken skip, which overflows a `u16` at the top of the address space. */
  function Skip(s: State, taken: bool): Result<State, Fault>
  {
    if !taken then Ok(s)
    else if s.pc + 2 > 0xFFFF then Err(ArithmeticOverflow)
    else Ok(s.(pc := s.pc + 2))
  }

  /** `registers[x] = v` */
  function SetRegister(s: State, x: Nibble, v: u8): State
    requires ValidState(s)
  {
    s.(registers := s.registers[x := v])
  }

  /**
   * One arm of the dispatch, on a state whose `pc` already points past the
   * instruction; `random` is the byte `rand::random` would draw for `Cxkk`.
   * Control flow and register arithmetic are in `ExecuteFlow` and
   * `ExecuteArithmetic`; the timer, index and memory transfers here.
   */
  function Execute(instr: Instruction, s: State, random: u8): (r: Result<State, Fault>)
    requires ValidState(s)
    ensures r.Ok? ==> ValidState(r.value)
    ensures r.Ok? && !ControlFlow(instr) ==> r.value.pc == s.pc && r.value.sp == s.sp && r.value.stack == s.stack
  {
    match instr
    case Return => ExecuteFlow(instr, s)
    case Jump(_) => ExecuteFlow(instr, s)
    case Call(_) => ExecuteFlow(instr, s)
    case SkipEqualByte(_, _) => ExecuteFlow(instr, s)
    case SkipNotEqualByte(_, _) => ExecuteFlow(instr, s)
    case SkipEqual(_, _) => ExecuteFlow(instr, s)
    case SkipNotEqual(_, _) => ExecuteFlow(instr, s)
    case JumpOffset(_) => ExecuteFlow(instr, s)
    case LoadByte(x, kk) => Ok(SetRegister(s, x, kk))
    case AddByte(_, _) => ExecuteArithmetic(instr, s)
    case Load(_, _) => ExecuteArithmetic(instr, s)
    case BitOr(_, _) => ExecuteArithmetic(instr, s)
    case BitAnd(_, _) => ExecuteArithmetic(instr, s)
    case BitXor(_, _) => ExecuteArithmetic(instr, s)
    case Add(_, _) => ExecuteArithmetic(instr, s)
    case Sub(_, _) => ExecuteArithmetic(instr, s)
    case ShiftRight(_, _) => ExecuteArithmetic(instr, s)
    case SubN(_, _) => ExecuteArithmetic(instr, s)
    case ShiftLeft(_, _) => ExecuteArithmetic(instr, s)
    case LoadIndex(nnn) => Ok(s.(i := nnn))
    case Random(x, kk) => Ok(SetRegister(s, x, And(random, kk)))
    case LoadFromDelay(x) => Ok(SetRegister(s, x, s.delayTimer))
    case LoadDelay(x) => Ok(s.(delayTimer := s.registers[x]))
    case LoadSound(x) => Ok(s.(soundTimer := s.registers[x]))
    case AddIndex(x) =>
      if s.i as int + s.registers[x] > 0xFFFF then Err(ArithmeticOverflow)
      else Ok(s.(i := s.i + s.registers[x]))
    case StoreDecimal(_) => ExecuteMemory(instr, s)
    case StoreRegisters(_) => ExecuteMemory(instr, s)
    case LoadRegisters(_) => ExecuteMemory(instr, s)
    // CLS, SYS, DRW, SKP, SKNP, LD Vx K, LD F Vx and unmatched sub-opcodes
    case _ => Ok(s)
  }

  /** The arms that index `memory` at `I`. */
  predicate MemoryAccess(instr: Instruction)
  {
    instr.StoreDecimal? || instr.StoreRegisters? || instr.LoadRegisters?
  }

  /**
   * `Fx33` writes the three decimal digits of `Vx`; `Fx55` and `Fx65` copy
   * all sixteen registers, whatever `x` is. Each panics once an index
   * reaches 4096.
   */
  function ExecuteMemory(instr: Instruction, s: State): (r: Result<State, Fault>)
    requires ValidState(s) && MemoryAccess(instr)
    ensures r.Ok? ==> ValidState(r.value) && r.value.(memory := s.memory, registers := s.registers) == s
  {
    match instr
    case StoreDecimal(x) =>
      var v := s.registers[x];
      if s.i + 2 >= MemorySize then Err(MemoryIndex)
      else Ok(s.(memory := s.memory[s.i := v / 100][s.i + 1 := (v % 100) / 10][s.i + 2 := v % 10]))
    case StoreRegisters(_) =>
      if s.i + RegisterCount > MemorySize then Err(MemoryIndex)
      else Ok(s.(memory := s.memory[..s.i] + s.registers + s.memory[s.i + RegisterCount..]))
    case LoadRegisters(_) =>
      if s.i + RegisterCount > MemorySize then Err(MemoryIndex)
      else Ok(s.(registers := s.memory[s.i..s.i + RegisterCount]))
  }

  /** Jumps, calls, returns and skips: the arms that write `pc`, `sp` or the stack. */
  predicate ControlFlow(instr: Instruction)
  {
    instr.Return? || instr.Jump? || instr.Call? || instr.SkipEqualByte? || instr.SkipNotEqualByte? ||
    instr.SkipEqual? || instr.SkipNotEqual? || instr.JumpOffset?
  }

  function ExecuteFlow(instr: Instruction, s: State): (r: Result<State, Fault>)
    requires ValidState(s) && ControlFlow(instr)
    ensures r.Ok? ==> ValidState(r.value) && r.value.(pc := s.pc, sp := s.sp, stack := s.stack) == s
  {
    match instr
    case Return =>
      if s.sp >= StackSize then Err(StackIndex)
      else if s.sp == 0 then Err(ArithmeticOverflow)
      else Ok(s.(pc := s.stack[s.sp], sp := s.sp - 1))
    case Jump(nnn) => Ok(s.(pc := nnn))
    case Call(nnn) =>
      if s.sp + 1 > 0xFFFF then Err(ArithmeticOverflow)
      else if s.sp + 1 >= StackSize then Err(StackIndex)
      else Ok(s.(sp := s.sp + 1, stack := s.stack[s.sp + 1 := s.pc], pc := nnn))
    case SkipEqualByte(x, kk) => Skip(s, s.registers[x] == kk)
    case SkipNotEqualByte(x, kk) => Skip(s, s.registers[x] != kk)
    case SkipEqual(x, y) => Skip(s, s.registers[x] == s.registers[y])
    case SkipNotEqual(x, y) => Skip(s, s.registers[x] != s.registers[y])
    case JumpOffset(nnn) => Ok(s.(pc := nnn + s.registers[0]))
  }

  /**
   * `7xkk` and the `8xy_` family. The flag of `SUB`, `SHR`, `SUBN` and `SHL`
   * is written to VF before `Vx` is computed from the registers, so with
   * `x` or `y` equal to F the flag takes part; `ADD` writes VF last.
   */
  predicate Arithmetic(instr: Instruction)
  {
    instr.AddByte? || instr.Load? || instr.BitOr? || instr.BitAnd? || instr.BitXor? || instr.Add? ||
    instr.Sub? || instr.ShiftRight? || instr.SubN? || instr.ShiftLeft?
  }

  function ExecuteArithmetic(instr: Instruction, s: State): (r: Result<State, Fault>)
    requires ValidState(s) && Arithmetic(instr)
    ensures r.Ok? ==> ValidState(r.value) && r.value.(registers := s.registers) == s
  {
    match instr
    case AddByte(x, kk) =>
      if s.registers[x] as int + kk > 0xFF then Err(ArithmeticOverflow)
      else Ok(SetRegister(s, x, s.registers[x] + kk))
    case Load(x, y) => Ok(SetRegister(s, x, s.registers[y]))
    case BitOr(x, y) => Ok(SetRegister(s, x, Or(s.registers[x], s.registers[y])))
    case BitAnd(x, y) => Ok(SetRegister(s, x, And(s.registers[x], s.registers[y])))
    case BitXor(x, y) => Ok(SetRegister(s, x, Xor(s.registers[x], s.registers[y])))
    case Add(x, y) =>
      var sum := s.registers[x] as int + s.registers[y] as int;
      Ok(SetRegister(SetRegister(s, x, sum % 0x100), VF, if sum > 0xFF then 1 else 0))
    case Sub(x, y) =>
      var t := SetRegister(s, VF, if s.registers[x] > s.registers[y] then 1 else 0);
      if t.registers[x] < t.registers[y] then Err(ArithmeticOverflow)
      else Ok(SetRegister(t, x, t.registers[x] - t.registers[y]))
    case ShiftRight(x, _) =>
      var t := SetRegister(s, VF, s.registers[x] % 2);
      Ok(SetRegister(t, x, t.registers[x] / 2))
    case SubN(x, y) =>
      var t := SetRegister(s, VF, if s.registers[y] > s.registers[x] then 1 else 0);
      if t.registers[y] < t.registers[x] then Err(ArithmeticOverflow)
      else Ok(SetRegister(t, x, t.registers[y] - t.registers[x]))
    case ShiftLeft(x, _) =>
      var t := SetRegister(s, VF, if s.registers[x] >= 0x80 then 1 else 0);
      Ok(SetRegister(t, x, t.registers[x] / 2))
  }

  // ---------------------------------------------------------------------------
  // Step and run
  // ---------------------------------------------------------------------------

  /**
   * One iteration of the execution loop: fetch the two bytes at `pc` from the
   * program (not from `memory`), advance `pc` by 2, and execute.
   */
  function Step(program: seq<u8>, s: State, random: u8): (r: Result<State, Fault>)
    requires ValidState(s)
    ensures r.Ok? ==> ValidState(r.value)
  {
    if s.pc >= |program| then Err(ProgramIndex)
    else if s.pc + 1 > 0xFFFF then Err(ArithmeticOverflow)
    else if s.pc + 1 >= |program| then Err(ProgramIndex)
    else if s.pc + 2 > 0xFFFF then Err(ArithmeticOverflow)
    else Execute(Decode(program[s.pc], program[s.pc + 1]), s.(pc := s.pc + 2), random)
  }

  /** How a bounded run ends: the loop's `break`, a panic, or the bound reached; with the final state. */
  datatype Outcome = Halted(state: State) | Faulted(fault: Fault) | OutOfFuel(state: State)

  /**
   * A step function that is defined on every valid state and keeps it valid:
   * what the execution loop needs of its body.
   */
  ghost predicate Closed(step: (State, nat) --> Result<State, Fault>)
  {
    forall t: State, k: nat :: ValidState(t) ==> step.requires(t, k) && (step(t, k).Ok? ==> ValidState(step(t, k).value))
  }

  /**
   * The execution loop for at most `fuel` iterations, from iteration number
   * `cycle`: a step, then the loop ends once `pc` is at or past `length`.
   */
  function Iterate(step: (State, nat) --> Result<State, Fault>, length: nat, s: State, cycle: nat, fuel: nat): (r: Outcome)
    requires Closed(step) && ValidState(s)
    ensures !r.Faulted? ==> ValidState(r.state)
    ensures r.Halted? ==> r.state.pc >= length
    ensures r.OutOfFuel? ==> r.state.pc < length || (fuel == 0 && r.state == s)
    decreases fuel
  {
    if fuel == 0 then OutOfFuel(s)
    else match step(s, cycle)
      case Err(f) => Faulted(f)
      case Ok(t) => if t.pc >= length then Halted(t) else Iterate(step, length, t, cycle + 1, fuel - 1)
  }

  /** The loop body of `run_instructions`: `Step`, with the random byte of iteration `k`. */
  function Advance(program: seq<u8>, random: nat -> u8): (step: (State, nat) --> Result<State, Fault>)
    ensures Closed(step)
  {
    var step := (t: State, k: nat) requires ValidState(t) => Step(program, t, random(k));
    assert Closed(step) by {
      forall t: State, k: nat | ValidState(t)
        ensures step.requires(t, k) && (step(t, k).Ok? ==> ValidState(step(t, k).value))
      {
        assert step(t, k) == Step(program, t, random(k));
      }
    }
    step
  }

  /**
   * The execution loop of `run_instructions` for at most `fuel` iterations,
   * from iteration number `cycle`. `random(k)` is the byte drawn by a `Cxkk`
   * of iteration `k`.
   */
  function Run(program: seq<u8>, s: State, random: nat -> u8, cycle: nat, fuel: nat): Outcome
    requires ValidState(s)
  {
    Iterate(Advance(program, random), |program|, s, cycle, fuel)
  }

  /** `run_instructions(program)` bounded by `fuel` iterations. */
  function RunInstructions(program: seq<u8>, random: nat -> u8, fuel: nat): Outcome
  {
    Run(program, Initial(), random, 0, fuel)
  }

  /** The outcome of a run that stopped with `stop` on the machine holding `s`. */
  datatype Stop = Halt | Panic(fault: Fault) | Exhausted

  function Ended(stop: Stop, s: State): Outcome
  {
    match stop
    case Halt => Halted(s)
    case Panic(f) => Faulted(f)
    case Exhausted => OutOfFuel(s)
  }

  // ---------------------------------------------------------------------------
  // The machine, updated in place
  // ---------------------------------------------------------------------------

  /**
   * The state of `run_instructions` as the Rust function keeps it: three
   * fixed-size arrays updated in place and five mutable scalars.
   */
  class Machine {
    const memory: array<u8>
    const registers: array<u8>
    const stack: array<u16>
    var i: u16
    var soundTimer: u8
    var delayTimer: u8
    var pc: u16
    var sp: u16

    ghost predicate Valid()
    {
      memory.Length == MemorySize && registers.Length == RegisterCount && stack.Length == StackSize &&
      memory != registers
    }

    /** The value the arrays and fields hold. */
    function Model(): (s: State)
      reads this, memory, registers, stack
      ensures Valid() ==> ValidState(s)
    {
      State(memory[..], registers[..], i, soundTimer, delayTimer, pc, sp, stack[..])
    }

    /** The zero-initialised locals (src/main.rs:13-34). */
    constructor ()
      ensures Valid() && Model() == Initial()
      ensures fresh(memory) && fresh(registers) && fresh(stack)
    {
      memory := new u8[MemorySize](_ => 0);
      registers := new u8[RegisterCount](_ => 0);
      stack := new u16[StackSize](_ => 0);
      i, soundTimer, delayTimer, pc, sp := 0, 0, 0, 0, 0;
    }

    /**
     * The execution loop for at most `fuel` iterations; `random(k)` is the
     * byte drawn by a `Cxkk` of iteration `k`.
     */
    method RunFor(program: seq<u8>, random: nat -> u8, fuel: nat) returns (stop: Stop)
      requires Valid()
      modifies this, memory, registers, stack
      ensures Valid()
      ensures Run(program, old(Model()), random, 0, fuel) == Ended(stop, Model())
    {
      var cycle := 0;
      while cycle < fuel
        invariant Valid() && 0 <= cycle <= fuel
        invariant Run(program, old(Model()), random, 0, fuel) == Run(program, Model(), random, cycle, fuel - cycle)
        decreases fuel - cycle
      {
        var fault := Cycle(program, random(cycle));
        if fault.Some? {
          return Panic(fault.value);
        }
        if pc as int >= |program| {
          return Halt;
        }
        cycle := cycle + 1;
      }
      return Exhausted;
    }

    /** One iteration of the loop body (src/main.rs:38-315). */
    method Cycle(program: seq<u8>, random: u8) returns (fault: Option<Fault>)
      requires Valid()
      modifies this, memory, registers, stack
      ensures Valid()
      ensures Step(program, old(Model()), random) == if fault.Some? then Err(fault.value) else Ok(Model())
    {
      if pc as int >= |program| {
        return Some(ProgramIndex);
      }
      var byte1 := program[pc];
      if pc as int + 1 > 0xFFFF {
        return Some(ArithmeticOverflow);
      }
      if pc as int + 1 >= |program| {
        return Some(ProgramIndex);
      }
      var byte2 := program[pc + 1];
      if pc as int + 2 > 0xFFFF {
        return Some(ArithmeticOverflow);
      }
      pc := pc + 2;
      fault := Dispatch(Decode(byte1, byte2), random);
    }

    /** The `match` on the opcode family (src/main.rs:54-315). */
    method Dispatch(instr: Instruction, random: u8) returns (fault: Option<Fault>)
      requires Valid()
      modifies this, memory, registers, stack
      ensures Valid()
      ensures Execute(instr, old(Model()), random) == if fault.Some? then Err(fault.value) else Ok(Model())
    {
      if ControlFlow(instr) {
        fault := Flow(instr);
      } else if Arithmetic(instr) {
        fault := Calculate(instr);
      } else if MemoryAccess(instr) {
        fault := Memory(instr);
      } else {
        fault := Transfer(instr, random);
      }
    }

    /** The arms that move values between registers, timers and `I`, and those that do nothing. */
    method Transfer(instr: Instruction, random: u8) returns (fault: Option<Fault>)
      requires Valid() && !ControlFlow(instr) && !Arithmetic(instr)
      requires !MemoryAccess(instr)
      modifies this, registers
      ensures Valid()
      ensures Execute(instr, old(Model()), random) == if fault.Some? then Err(fault.value) else Ok(Model())
    {
      fault := None;
      match instr
      case LoadByte(x, kk) =>
        registers[x] := kk;
      case LoadIndex(nnn) =>
        i := nnn;
      case Random(x, kk) =>
        registers[x] := And(random, kk);
      case LoadFromDelay(x) =>
        registers[x] := delayTimer;
      case LoadDelay(x) =>
        delayTimer := registers[x];
      case LoadSound(x) =>
        soundTimer := registers[x];
      case AddIndex(x) =>
        if i as int + registers[x] > 0xFFFF {
          return Some(ArithmeticOverflow);
        }
        i := i + registers[x];
      case Clear | System(_) | Draw(_, _, _) | SkipPressed(_) | SkipNotPressed(_) | WaitKey(_) | LoadFont(_) | Unknown =>
    }

    /** Jumps, calls, returns and skips (src/main.rs:63-108, 189-204). */
    method Flow(instr: Instruction) returns (fault: Option<Fault>)
      requires Valid() && ControlFlow(instr)
      modifies this, stack
      ensures Valid()
      ensures ExecuteFlow(instr, old(Model())) == if fault.Some? then Err(fault.value) else Ok(Model())
    {
      fault := None;
      match instr
      case Return =>
        if sp as int >= StackSize {
          return Some(StackIndex);
        }
        if sp == 0 {
          return Some(ArithmeticOverflow);
        }
        pc := stack[sp];
        sp := sp - 1;
      case Jump(nnn) =>
        pc := nnn;
      case Call(nnn) =>
        if sp as int + 1 > 0xFFFF {
          return Some(ArithmeticOverflow);
        }
        if sp as int + 1 >= StackSize {
          return Some(StackIndex);
        }
        sp := sp + 1;
        stack[sp] := pc;
        pc := nnn;
      case SkipEqualByte(x, kk) =>
        fault := SkipIf(registers[x] == kk);
      case SkipNotEqualByte(x, kk) =>
        fault := SkipIf(registers[x] != kk);
      case SkipEqual(x, y) =>
        fault := SkipIf(registers[x] == registers[y]);
      case SkipNotEqual(x, y) =>
        fault := SkipIf(registers[x] != registers[y]);
      case JumpOffset(nnn) =>
        pc := nnn + registers[0];
    }

    /** `if taken { pc += 2; }` */
    method SkipIf(taken: bool) returns (fault: Option<Fault>)
      requires Valid()
      modifies this
      ensures Valid()
      ensures Skip(old(Model()), taken) == if fault.Some? then Err(fault.value) else Ok(Model())
    {
      fault := None;
      if taken {
        if pc as int + 2 > 0xFFFF {
          return Some(ArithmeticOverflow);
        }
        pc := pc + 2;
      }
    }

    /** `7xkk` and the `8xy_` family (src/main.rs:115-187). */
    method Calculate(instr: Instruction) returns (fault: Option<Fault>)
      requires Valid() && Arithmetic(instr)
      modifies registers
      ensures Valid()
      ensures ExecuteArithmetic(instr, old(Model())) == if fault.Some? then Err(fault.value) else Ok(Model())
    {
      fault := None;
      match instr
      case AddByte(x, kk) =>
        if registers[x] as int + kk > 0xFF {
          return Some(ArithmeticOverflow);
        }
        registers[x] := registers[x] + kk;
      case Load(x, y) =>
        registers[x] := registers[y];
      case BitOr(x, y) =>
        registers[x] := Or(registers[x], registers[y]);
      case BitAnd(x, y) =>
        registers[x] := And(registers[x], registers[y]);
      case BitXor(x, y) =>
        registers[x] := Xor(registers[x], registers[y]);
      case Add(_, _) | Sub(_, _) | ShiftRight(_, _) | SubN(_, _) | ShiftLeft(_, _) =>
        fault := CalculateWithFlag(instr);
    }

    /** The `8xy_` arms that write VF: `ADD`, `SUB`, `SHR`, `SUBN` and `SHL`. */
    method CalculateWithFlag(instr: Instruction) returns (fault: Option<Fault>)
      requires Valid() && (instr.Add? || instr.Sub? || instr.ShiftRight? || instr.SubN? || instr.ShiftLeft?)
      modifies registers
      ensures Valid()
      ensures ExecuteArithmetic(instr, old(Model())) == if fault.Some? then Err(fault.value) else Ok(Model())
    {
      fault := None;
      match instr
      case Add(x, y) =>
        var sum := registers[x] as int + registers[y] as int;
        registers[x] := sum % 0x100;
        registers[VF] := if sum > 0xFF then 1 else 0;
      case Sub(x, y) =>
        fault := Subtract(x, y, x, y);
      case SubN(x, y) =>
        fault := Subtract(x, y, y, x);
      case ShiftRight(x, _) =>
        registers[VF] := registers[x] % 2;
        registers[x] := registers[x] / 2;
      case ShiftLeft(x, _) =>
        registers[VF] := if registers[x] >= 0x80 then 1 else 0;
        registers[x] := registers[x] / 2;
    }

    /**
     * `SUB` (`a, b` = `x, y`) and `SUBN` (`a, b` = `y, x`): VF is set to
     * `Va > Vb`, then `Vx = Va - Vb`, which panics below zero.
     */
    method Subtract(x: Nibble, y: Nibble, a: Nibble, b: Nibble) returns (fault: Option<Fault>)
      requires Valid() && ((a == x && b == y) || (a == y && b == x))
      modifies registers
      ensures Valid()
      ensures ExecuteArithmetic(if a == x then Sub(x, y) else SubN(x, y), old(Model())) ==
              if fault.Some? then Err(fault.value) else Ok(Model())
    {
      registers[VF] := if registers[a] > registers[b] then 1 else 0;
      if registers[a] < registers[b] {
        return Some(ArithmeticOverflow);
      }
      registers[x] := registers[a] - registers[b];
      return None;
    }

    /** The arms that write memory or read it into the registers. */
    method Memory(instr: Instruction) returns (fault: Option<Fault>)
      requires Valid() && MemoryAccess(instr)
      modifies memory, registers
      ensures Valid()
      ensures Execute(instr, old(Model()), 0) == if fault.Some? then Err(fault.value) else Ok(Model())
    {
      match instr
      case StoreDecimal(x) =>
        fault := StoreDigits(x);
      case StoreRegisters(_) =>
        fault := StoreBlock();
      case LoadRegisters(_) =>
        fault := LoadBlock();
    }

    /** `Fx33`: the decimal digits of `Vx` to `memory[I..I+2]` (src/main.rs:286-292). */
    method StoreDigits(x: Nibble) returns (fault: Option<Fault>)
      requires Valid()
      modifies memory
      ensures Valid()
      ensures ExecuteMemory(StoreDecimal(x), old(Model())) == if fault.Some? then Err(fault.value) else Ok(Model())
    {
      if i as int + 2 >= MemorySize {
        return Some(MemoryIndex);
      }
      memory[i] := registers[x] / 100;
      memory[i + 1] := (registers[x] % 100) / 10;
      memory[i + 2] := registers[x] % 10;
      return None;
    }

    /** `Fx55`: all sixteen registers to `memory[I..I+15]` (src/main.rs:294-301). */
    method StoreBlock() returns (fault: Option<Fault>)
      requires Valid()
      modifies memory
      ensures Valid()
      ensures ExecuteMemory(StoreRegisters(0), old(Model())) == if fault.Some? then Err(fault.value) else Ok(Model())
    {
      if i as int + RegisterCount > MemorySize {
        return Some(MemoryIndex);
      }
      for k := 0 to RegisterCount
        invariant forall j :: 0 <= j < k ==> memory[i as int + j] == registers[j]
        invariant forall j :: 0 <= j < MemorySize && !(i <= j < i as int + k) ==> memory[j] == old(memory[j])
      {
        memory[i as int + k] := registers[k];
      }
      assert memory[..] == old(memory[..])[..i] + registers[..] + old(memory[..])[i as int + RegisterCount..];
      return None;
    }

    /** `Fx65`: all sixteen registers from `memory[I..I+15]` (src/main.rs:303-310). */
    method LoadBlock() returns (fault: Option<Fault>)
      requires Valid()
      modifies registers
      ensures Valid()
      ensures ExecuteMemory(LoadRegisters(0), old(Model())) == if fault.Some? then Err(fault.value) else Ok(Model())
    {
      if i as int + RegisterCount > MemorySize {
        return Some(MemoryIndex);
      }
      for k := 0 to RegisterCount
        invariant forall j :: 0 <= j < k ==> registers[j] == memory[i as int + j]
      {
        registers[k] := memory[i as int + k];
      }
      assert registers[..] == memory[..][i..i as int + RegisterCount];
      return None;
    }
  }
}
