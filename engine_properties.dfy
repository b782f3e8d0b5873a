/**
 * What the execution engine of src/main.rs guarantees, proved about the
 * functional specification in module `Chip8`: the decode table, the stack
 * discipline of `CALL`/`RET`, the skips, the flag arithmetic, the memory
 * transfers, and the shape of a bounded run.
 */
module Chip8Properties {
  import opened Wrappers
  import opened Words
  import opened Chip8

  // ---------------------------------------------------------------------------
  // Decode
  // ---------------------------------------------------------------------------

  /**
   * Decoding the two bytes `ab` `cd` of the opcode with hexadecimal digits
   * `a b c d` gives the fields `a`, `b`, `c`, `d`, `cd` and `bcd`.
   */
  lemma ExtractDigits(a: Nibble, b: Nibble, c: Nibble, d: Nibble)
    ensures Extract(a * 0x10 + b, c * 0x10 + d) == Fields(a, b, c, d, c * 0x10 + d, b * 0x100 + c * 0x10 + d)
  {
    var f := Extract(a * 0x10 + b, c * 0x10 + d);
    assert f.family * 0x10 + f.x == a * 0x10 + b;
    assert f.y * 0x10 + f.n == c * 0x10 + d;
  }

  /** The fetch: a step executes the instruction of the two bytes at `pc`, with `pc` advanced by 2. */
  lemma FetchAdvances(program: seq<u8>, s: State, random: u8)
    requires ValidState(s) && s.pc + 1 < |program| && s.pc + 2 <= 0xFFFF
    ensures var f := Extract(program[s.pc], program[s.pc + 1]);
      program[s.pc] as int * 0x100 + program[s.pc + 1] == f.family * 0x1000 + f.x * 0x100 + f.y * 0x10 + f.n &&
      Step(program, s, random) == Execute(Select(f), s.(pc := s.pc + 2), random)
  {
  }

  /** A step faults when fewer than two program bytes remain at `pc`. */
  lemma FetchPastEnd(program: seq<u8>, s: State, random: u8)
    requires ValidState(s) && s.pc + 1 >= |program|
    ensures Step(program, s, random).Err?
    ensures s.pc < 0xFFFF ==> Step(program, s, random) == Err(ProgramIndex)
  {
  }

  // ---------------------------------------------------------------------------
  // Calls, returns and skips
  // ---------------------------------------------------------------------------

  /**
   * `CALL` pushes the address after it and `RET` pops it: a call whose first
   * instruction is `RET` comes back to the instruction after the call with
   * the stack pointer restored; the pushed address stays in the stack slot.
   */
  lemma CallThenReturn(program: seq<u8>, s: State, nnn: Address, random1: u8, random2: u8)
    requires ValidState(s) && s.sp < StackSize - 1
    requires s.pc + 3 < |program| && s.pc + 2 <= 0xFFFF
    requires Decode(program[s.pc], program[s.pc + 1]) == Call(nnn)
    requires nnn + 1 < |program| && Decode(program[nnn], program[nnn + 1]) == Return
    ensures Step(program, s, random1).Ok?
    ensures Step(program, Step(program, s, random1).value, random2) ==
            Ok(s.(pc := s.pc + 2, stack := s.stack[s.sp + 1 := s.pc + 2]))
  {
    var t := s.(pc := s.pc + 2);
    assert Step(program, s, random1) == Ok(t.(sp := s.sp + 1, stack := s.stack[s.sp + 1 := s.pc + 2], pc := nnn));
  }

  /**
   * The stack holds sixteen entries but `CALL` increments `sp` before it
   * stores, so slot 0 is never written: from a valid stack pointer a call
   * succeeds if and only if `sp < 15`, and a return if and only if `sp > 0`.
   * Either way the stack pointer stays below 16.
   */
  lemma StackBounds(s: State, nnn: Address)
    requires ValidState(s) && s.sp < StackSize
    ensures ExecuteFlow(Call(nnn), s).Ok? <==> s.sp < StackSize - 1
    ensures ExecuteFlow(Call(nnn), s).Err? ==> ExecuteFlow(Call(nnn), s) == Err(StackIndex)
    ensures ExecuteFlow(Return, s).Ok? <==> s.sp > 0
    ensures ExecuteFlow(Return, s).Err? ==> ExecuteFlow(Return, s) == Err(ArithmeticOverflow)
    ensures ExecuteFlow(Call(nnn), s).Ok? ==> ExecuteFlow(Call(nnn), s).value.sp < StackSize
    ensures ExecuteFlow(Return, s).Ok? ==> ExecuteFlow(Return, s).value.sp < StackSize
  {
  }

  /** Fifteen nested calls fill the stack; a sixteenth panics. */
  lemma SixteenthCallOverflows(s: State, nnn: Address)
    requires ValidState(s) && s.sp == 0
    ensures Nest(s, nnn, 15).Ok? && Nest(s, nnn, 15).value.sp == 15
    ensures Nest(s, nnn, 16) == Err(StackIndex)
  {
    NestDepth(s, nnn, 15);
  }

  /** `depth` calls in a row to `nnn`. */
  function Nest(s: State, nnn: Address, depth: nat): (r: Result<State, Fault>)
    requires ValidState(s)
    ensures r.Ok? ==> ValidState(r.value)
  {
    if depth == 0 then Ok(s)
    else match Nest(s, nnn, depth - 1)
      case Err(f) => Err(f)
      case Ok(t) => ExecuteFlow(Call(nnn), t)
  }

  lemma {:induction false} NestDepth(s: State, nnn: Address, depth: nat)
    requires ValidState(s) && s.sp + depth < StackSize
    ensures Nest(s, nnn, depth).Ok? && Nest(s, nnn, depth).value.sp == s.sp + depth
  {
    if depth > 0 {
      NestDepth(s, nnn, depth - 1);
    }
  }

  /** The condition under which each skip instruction skips, as the reference describes it. */
  predicate SkipCondition(instr: Instruction, s: State)
    requires ValidState(s)
    requires instr.SkipEqualByte? || instr.SkipNotEqualByte? || instr.SkipEqual? || instr.SkipNotEqual?
  {
    match instr
    case SkipEqualByte(x, kk) => s.registers[x] == kk
    case SkipNotEqualByte(x, kk) => !(s.registers[x] == kk)
    case SkipEqual(x, y) => s.registers[x] == s.registers[y]
    case SkipNotEqual(x, y) => !(s.registers[x] == s.registers[y])
  }

  /**
   * `3xkk`, `4xkk`, `5xy0` and `9xy0` add 2 more to `pc` exactly when their
   * condition holds, and change nothing else.
   */
  lemma SkipsExactlyTwo(instr: Instruction, s: State)
    requires ValidState(s) && s.pc + 2 <= 0xFFFF
    requires instr.SkipEqualByte? || instr.SkipNotEqualByte? || instr.SkipEqual? || instr.SkipNotEqual?
    ensures ExecuteFlow(instr, s).Ok?
    ensures var t := ExecuteFlow(instr, s).value;
      t.(pc := s.pc) == s && (t.pc == s.pc + 2 <==> SkipCondition(instr, s)) && (t.pc == s.pc || t.pc == s.pc + 2)
  {
  }

  /** `1nnn` moves `pc` to `nnn` and changes nothing else. */
  lemma JumpGoesTo(s: State, nnn: Address, random: u8)
    requires ValidState(s)
    ensures Execute(Jump(nnn), s, random).Ok?
    ensures var t := Execute(Jump(nnn), s, random).value; t.pc == nnn && t.(pc := s.pc) == s
  {
  }

  /**
   * `Bnnn` moves `pc` to `nnn` plus V0 and changes nothing else; the sum is
   * below 0x10FF, so the `u16` addition never overflows.
   */
  lemma JumpOffsetGoesTo(s: State, nnn: Address, random: u8)
    requires ValidState(s)
    ensures Execute(JumpOffset(nnn), s, random).Ok?
    ensures var t := Execute(JumpOffset(nnn), s, random).value;
      t.pc == nnn + s.registers[0] && t.pc < 0x10FF && t.(pc := s.pc) == s
  {
  }

  // ---------------------------------------------------------------------------
  // The index register and the timers
  // ---------------------------------------------------------------------------

  /** `Annn` sets I to `nnn` and changes nothing else. */
  lemma LoadIndexSets(s: State, nnn: Address, random: u8)
    requires ValidState(s)
    ensures Execute(LoadIndex(nnn), s, random).Ok?
    ensures var t := Execute(LoadIndex(nnn), s, random).value; t.i == nnn && t.(i := s.i) == s
  {
  }

  /**
   * `Fx1E` adds `Vx` to I and changes nothing else; it panics exactly when the
   * `u16` sum would pass 0xFFFF.
   */
  lemma AddIndexOverflows(s: State, x: Nibble, random: u8)
    requires ValidState(s)
    ensures Execute(AddIndex(x), s, random).Ok? <==> s.i + s.registers[x] <= 0xFFFF
    ensures Execute(AddIndex(x), s, random).Err? ==> Execute(AddIndex(x), s, random) == Err(ArithmeticOverflow)
    ensures Execute(AddIndex(x), s, random).Ok? ==>
      var t := Execute(AddIndex(x), s, random).value; t.i == s.i + s.registers[x] && t.(i := s.i) == s
  {
  }

  /**
   * `Fx07` copies the delay timer into `Vx`; `Fx15` and `Fx18` copy `Vx` into
   * the delay and the sound timer. Each changes nothing else.
   */
  lemma TimerCopies(s: State, x: Nibble, random: u8)
    requires ValidState(s)
    ensures Execute(LoadFromDelay(x), s, random).Ok? && Execute(LoadDelay(x), s, random).Ok? &&
      Execute(LoadSound(x), s, random).Ok?
    ensures var t := Execute(LoadFromDelay(x), s, random).value;
      t.registers[x] == s.delayTimer && OthersKept(s, t, x, x) && t.(registers := s.registers) == s
    ensures var t := Execute(LoadDelay(x), s, random).value;
      t.delayTimer == s.registers[x] && t.(delayTimer := s.delayTimer) == s
    ensures var t := Execute(LoadSound(x), s, random).value;
      t.soundTimer == s.registers[x] && t.(soundTimer := s.soundTimer) == s
  {
  }

  /** `LD DT, Vx` followed by `LD Vy, DT` copies `Vx` into `Vy` through the delay timer. */
  lemma DelayRoundTrip(s: State, x: Nibble, y: Nibble, random1: u8, random2: u8)
    requires ValidState(s)
    ensures Execute(LoadDelay(x), s, random1).Ok?
    ensures var t := Execute(LoadDelay(x), s, random1).value;
      Execute(LoadFromDelay(y), t, random2).Ok? &&
      Execute(LoadFromDelay(y), t, random2).value.registers[y] == s.registers[x]
  {
    TimerCopies(s, x, random1);
    var t := Execute(LoadDelay(x), s, random1).value;
    TimerCopies(t, y, random2);
  }

  // ---------------------------------------------------------------------------
  // Register arithmetic
  // ---------------------------------------------------------------------------

  /** Every register other than `x` and `y` keeps its value. */
  predicate OthersKept(s: State, t: State, x: Nibble, y: Nibble)
    requires ValidState(s) && ValidState(t)
  {
    forall r :: 0 <= r < RegisterCount && r != x && r != y ==> t.registers[r] == s.registers[r]
  }

  /**
   * `8xy4` leaves the sum modulo 256 in `Vx` and the carry in VF, so the two
   * registers together hold the full sum; with `x = F` the carry wins.
   */
  lemma AddCarries(s: State, x: Nibble, y: Nibble)
    requires ValidState(s)
    ensures ExecuteArithmetic(Add(x, y), s).Ok?
    ensures var t := ExecuteArithmetic(Add(x, y), s).value; var sum := s.registers[x] as int + s.registers[y];
      (t.registers[VF] == 1 <==> sum > 0xFF) && t.registers[VF] <= 1 &&
      (x != VF ==> t.registers[x] as int + 0x100 * (t.registers[VF] as int) == sum) &&
      OthersKept(s, t, x, VF)
  {
  }

  /** `7xkk` panics exactly when the sum leaves a byte, and never writes VF for `x != F`. */
  lemma AddByteOverflows(s: State, x: Nibble, kk: u8)
    requires ValidState(s)
    ensures ExecuteArithmetic(AddByte(x, kk), s).Ok? <==> s.registers[x] + kk <= 0xFF
    ensures ExecuteArithmetic(AddByte(x, kk), s).Err? ==> ExecuteArithmetic(AddByte(x, kk), s) == Err(ArithmeticOverflow)
    ensures ExecuteArithmetic(AddByte(x, kk), s).Ok? ==>
      var t := ExecuteArithmetic(AddByte(x, kk), s).value;
      t.registers[x] == s.registers[x] + kk && OthersKept(s, t, x, x)
  {
  }

  /**
   * `8xy5` with `x`, `y` other than F: VF is 1 exactly when `Vx > Vy`, and
   * the subtraction is unchecked, so `Vx < Vy` panics instead of wrapping.
   * Equal operands give 0 and flag 0.
   */
  lemma SubFlags(s: State, x: Nibble, y: Nibble)
    requires ValidState(s) && x != VF && y != VF
    ensures ExecuteArithmetic(Sub(x, y), s).Ok? <==> s.registers[x] >= s.registers[y]
    ensures ExecuteArithmetic(Sub(x, y), s).Err? ==> ExecuteArithmetic(Sub(x, y), s) == Err(ArithmeticOverflow)
    ensures ExecuteArithmetic(Sub(x, y), s).Ok? ==>
      var t := ExecuteArithmetic(Sub(x, y), s).value;
      t.registers[x] == s.registers[x] - s.registers[y] &&
      (t.registers[VF] == 1 <==> s.registers[x] > s.registers[y]) && t.registers[VF] <= 1 &&
      (s.registers[x] == s.registers[y] ==> t.registers[x] == 0 && t.registers[VF] == 0) &&
      OthersKept(s, t, x, VF)
  {
  }

  /** `8xy7` with `x`, `y` other than F: as `8xy5` with the operands swapped, the result going to `Vx`. */
  lemma SubNFlags(s: State, x: Nibble, y: Nibble)
    requires ValidState(s) && x != VF && y != VF
    ensures ExecuteArithmetic(SubN(x, y), s).Ok? <==> s.registers[y] >= s.registers[x]
    ensures ExecuteArithmetic(SubN(x, y), s).Err? ==> ExecuteArithmetic(SubN(x, y), s) == Err(ArithmeticOverflow)
    ensures ExecuteArithmetic(SubN(x, y), s).Ok? ==>
      var t := ExecuteArithmetic(SubN(x, y), s).value;
      t.registers[x] == s.registers[y] - s.registers[x] &&
      (t.registers[VF] == 1 <==> s.registers[y] > s.registers[x]) && t.registers[VF] <= 1 &&
      (s.registers[x] == s.registers[y] ==> t.registers[x] == 0 && t.registers[VF] == 0) &&
      OthersKept(s, t, x, VF)
  {
  }

  /**
   * `SUB VF, Vy`: the flag is written before the subtraction reads `VF`, so
   * it is the flag, not the old `VF`, that `Vy` is taken from; with the old
   * `VF` above `Vy` and `Vy > 1` this panics.
   */
  lemma SubFromFlag(s: State, y: Nibble)
    requires ValidState(s) && y != VF && s.registers[VF] > s.registers[y] > 1
    ensures ExecuteArithmetic(Sub(VF, y), s) == Err(ArithmeticOverflow)
  {
  }

  /** `8xy6` with `x` other than F: VF gets the bit shifted out, `Vx` the rest. */
  lemma ShiftRightHalves(s: State, x: Nibble, y: Nibble)
    requires ValidState(s) && x != VF
    ensures ExecuteArithmetic(ShiftRight(x, y), s).Ok?
    ensures var t := ExecuteArithmetic(ShiftRight(x, y), s).value;
      2 * t.registers[x] + t.registers[VF] == s.registers[x] && t.registers[VF] <= 1 && OthersKept(s, t, x, VF)
  {
  }

  /**
   * `8xyE` with `x` other than F: VF gets bit 7 of `Vx`, and `Vx` is halved
   * as `SHR` does, not doubled; only `Vx = 0` ends with `Vx` as `SHL` would
   * leave it.
   */
  lemma ShiftLeftHalves(s: State, x: Nibble, y: Nibble)
    requires ValidState(s) && x != VF
    ensures ExecuteArithmetic(ShiftLeft(x, y), s).Ok?
    ensures var t := ExecuteArithmetic(ShiftLeft(x, y), s).value;
      (t.registers[VF] == 1 <==> s.registers[x] >= 0x80) && t.registers[VF] <= 1 &&
      t.registers[x] == s.registers[x] / 2 &&
      (t.registers[x] == (2 * s.registers[x] as int) % 0x100 <==> s.registers[x] == 0) &&
      OthersKept(s, t, x, VF)
  {
  }

  /** `8xy3` twice with the same `Vy` gives `Vx` back. */
  lemma XorRestores(s: State, x: Nibble, y: Nibble)
    requires ValidState(s) && x != y
    ensures ExecuteArithmetic(BitXor(x, y), s).Ok?
    ensures ExecuteArithmetic(BitXor(x, y), ExecuteArithmetic(BitXor(x, y), s).value) == Ok(s)
  {
    var v, w := s.registers[x], s.registers[y];
    XorTwice(v, w);
    assert s.registers[x := Xor(v, w)][x := v] == s.registers;
  }

  /** `Cxkk` leaves in `Vx` only bits that are set in `kk`, whatever byte is drawn. */
  lemma RandomMasked(s: State, x: Nibble, kk: u8, random: u8)
    requires ValidState(s)
    ensures Execute(Random(x, kk), s, random).Ok?
    ensures var t := Execute(Random(x, kk), s, random).value;
      Or(t.registers[x], kk) == kk && t.registers[x] <= kk && OthersKept(s, t, x, x)
  {
    AndWithin(random, kk);
  }

  // ---------------------------------------------------------------------------
  // Memory transfers
  // ---------------------------------------------------------------------------

  /**
   * `Fx33` writes the hundreds, tens and ones digits of `Vx` to `I`, `I + 1`
   * and `I + 2`, and nothing else; it panics when `I + 2` is past memory.
   */
  lemma StoreDecimalDigits(s: State, x: Nibble)
    requires ValidState(s)
    ensures ExecuteMemory(StoreDecimal(x), s).Ok? <==> s.i + 2 < MemorySize
    ensures ExecuteMemory(StoreDecimal(x), s).Err? ==> ExecuteMemory(StoreDecimal(x), s) == Err(MemoryIndex)
    ensures ExecuteMemory(StoreDecimal(x), s).Ok? ==>
      var t := ExecuteMemory(StoreDecimal(x), s).value; var m := t.memory;
      m[s.i] < 10 && m[s.i + 1] < 10 && m[s.i + 2] < 10 &&
      100 * m[s.i] as int + 10 * m[s.i + 1] as int + m[s.i + 2] as int == s.registers[x] &&
      t.registers == s.registers && t.i == s.i &&
      forall j :: 0 <= j < MemorySize && !(s.i <= j <= s.i + 2) ==> m[j] == s.memory[j]
  {
  }

  /**
   * `Fx55` copies all sixteen registers to `memory[I..I+15]`, whatever `x`
   * is, and leaves the rest of memory; `Fx65` with any `x` reads them back.
   * Both panic when `I + 15` is past memory, and neither changes `I`.
   */
  lemma StoreThenLoad(s: State, x: Nibble, y: Nibble)
    requires ValidState(s)
    ensures ExecuteMemory(StoreRegisters(x), s).Ok? <==> s.i + 15 < MemorySize
    ensures ExecuteMemory(LoadRegisters(y), s).Ok? <==> s.i + 15 < MemorySize
    ensures ExecuteMemory(StoreRegisters(x), s).Err? ==> ExecuteMemory(StoreRegisters(x), s) == Err(MemoryIndex)
    ensures ExecuteMemory(StoreRegisters(x), s).Ok? ==>
      var t := ExecuteMemory(StoreRegisters(x), s).value;
      t.memory[s.i..s.i + RegisterCount] == s.registers && t.i == s.i && t.registers == s.registers &&
      (forall j :: 0 <= j < MemorySize && !(s.i <= j < s.i + RegisterCount) ==> t.memory[j] == s.memory[j]) &&
      ExecuteMemory(LoadRegisters(y), t) == Ok(t)
  {
    if s.i + 15 < MemorySize {
      var t := ExecuteMemory(StoreRegisters(x), s).value;
      assert t.memory[s.i..s.i + RegisterCount] == s.registers;
    }
  }

  // ---------------------------------------------------------------------------
  // Instructions that only advance pc
  // ---------------------------------------------------------------------------

  /**
   * An unmatched sub-opcode in family 8, E or F decodes as `Unknown`; any
   * other opcode selects an arm.
   */
  lemma UnknownOpcodes(f: Fields)
    ensures Select(f) == Unknown <==>
      (f.family == 0x8 && f.n !in {0x0, 0x1, 0x2, 0x3, 0x4, 0x5, 0x6, 0x7, 0xE}) ||
      (f.family == 0xE && f.kk !in {0x9E, 0xA1}) ||
      (f.family == 0xF && f.kk !in {0x07, 0x0A, 0x15, 0x18, 0x1E, 0x29, 0x33, 0x55, 0x65})
  {
  }

  /** The instructions whose arms are empty: unknown sub-opcodes, `SYS`, and those with nothing implemented. */
  predicate NoOperation(instr: Instruction)
  {
    instr.Unknown? || instr.System? || instr.Clear? || instr.Draw? || instr.SkipPressed? ||
    instr.SkipNotPressed? || instr.WaitKey? || instr.LoadFont?
  }

  /** A step over an instruction with an empty arm only advances `pc` by 2. */
  lemma NoOperationAdvances(program: seq<u8>, s: State, random: u8)
    requires ValidState(s) && s.pc + 1 < |program| && s.pc + 2 <= 0xFFFF
    requires NoOperation(Decode(program[s.pc], program[s.pc + 1]))
    ensures Step(program, s, random) == Ok(s.(pc := s.pc + 2))
  {
  }

  // ---------------------------------------------------------------------------
  // Runs
  // ---------------------------------------------------------------------------

  /**
   * Running for `a + b` iterations, when the bound `a` is what stopped the
   * first `a`, is running for `b` more from where it stopped.
   */
  lemma {:induction false} IterateSplit(step: (State, nat) --> Result<State, Fault>, length: nat, s: State, cycle: nat, a: nat, b: nat)
    requires Closed(step) && ValidState(s) && Iterate(step, length, s, cycle, a).OutOfFuel?
    ensures Iterate(step, length, s, cycle, a + b) ==
      Iterate(step, length, Iterate(step, length, s, cycle, a).state, cycle + a, b)
    decreases a
  {
    if a > 0 {
      var t := step(s, cycle).value;
      IterateSplit(step, length, t, cycle + 1, a - 1, b);
      assert cycle + 1 + (a - 1) == cycle + a && (a - 1) + b == a + b - 1;
    }
  }

  /** More fuel does not change a run that halted or panicked. */
  lemma {:induction false} IterateSettled(step: (State, nat) --> Result<State, Fault>, length: nat, s: State, cycle: nat, fuel: nat, more: nat)
    requires Closed(step) && ValidState(s) && fuel <= more
    requires !Iterate(step, length, s, cycle, fuel).OutOfFuel?
    ensures Iterate(step, length, s, cycle, more) == Iterate(step, length, s, cycle, fuel)
    decreases fuel
  {
    var r := step(s, cycle);
    if r.Ok? && r.value.pc < length {
      IterateSettled(step, length, r.value, cycle + 1, fuel - 1, more - 1);
    }
  }

  /** The execution loop of `run_instructions` in particular: more fuel does not change a run that ended. */
  lemma RunSettled(program: seq<u8>, s: State, random: nat -> u8, cycle: nat, fuel: nat, more: nat)
    requires ValidState(s) && fuel <= more
    requires !Run(program, s, random, cycle, fuel).OutOfFuel?
    ensures Run(program, s, random, cycle, more) == Run(program, s, random, cycle, fuel)
  {
    IterateSettled(Advance(program, random), |program|, s, cycle, fuel, more);
  }

  /**
   * From a stack pointer below 16 it stays below 16, so a run from the
   * initial state never indexes the stack out of range on `RET`.
   */
  lemma StepKeepsStackPointer(program: seq<u8>, s: State, random: u8)
    requires ValidState(s) && s.sp < StackSize
    ensures Step(program, s, random).Ok? ==> Step(program, s, random).value.sp < StackSize
  {
    if s.pc + 1 < |program| && s.pc + 2 <= 0xFFFF {
      var instr := Decode(program[s.pc], program[s.pc + 1]);
      if instr.Call? {
        StackBounds(s.(pc := s.pc + 2), instr.nnn);
      }
    }
  }

  /** The loop runs its body before it tests `pc`, so an empty program panics on its first fetch. */
  lemma EmptyProgram(random: nat -> u8, fuel: nat)
    requires fuel > 0
    ensures RunInstructions([], random, fuel) == Faulted(ProgramIndex)
  {
  }

  /** `LD V0, 0x05` then `ADD V0, 0x03`: the run halts after two steps with 8 in V0. */
  lemma LoadThenAdd(random: nat -> u8, fuel: nat)
    requires fuel >= 2
    ensures RunInstructions([0x60, 0x05, 0x70, 0x03], random, fuel).Halted?
    ensures var t := RunInstructions([0x60, 0x05, 0x70, 0x03], random, fuel).state;
      t.registers[0] == 8 && t.pc == 4 && t.registers[VF] == 0
  {
    var program: seq<u8> := [0x60, 0x05, 0x70, 0x03];
    var s := Initial();
    assert Decode(0x60, 0x05) == LoadByte(0, 0x05);
    var s1 := s.(pc := 2, registers := s.registers[0 := 5]);
    assert Step(program, s, random(0)) == Ok(s1);
    assert Decode(0x70, 0x03) == AddByte(0, 0x03);
    var s2 := s1.(pc := 4, registers := s1.registers[0 := 8]);
    assert Step(program, s1, random(1)) == Ok(s2);
    assert Run(program, s, random, 0, 2) == Halted(s2);
    RunSettled(program, s, random, 0, 2, fuel);
  }

  /** `LD V0, 0x03`, `LD V1, 0x05`, `SUB V0, V1`: the subtraction underflows and the run panics. */
  lemma SubtractUnderflow(random: nat -> u8, fuel: nat)
    requires fuel >= 3
    ensures RunInstructions([0x60, 0x03, 0x61, 0x05, 0x80, 0x15], random, fuel) == Faulted(ArithmeticOverflow)
  {
    var program: seq<u8> := [0x60, 0x03, 0x61, 0x05, 0x80, 0x15];
    var s := Initial();
    assert Decode(0x60, 0x03) == LoadByte(0, 0x03);
    var s1 := s.(pc := 2, registers := s.registers[0 := 3]);
    assert Step(program, s, random(0)) == Ok(s1);
    assert Decode(0x61, 0x05) == LoadByte(1, 0x05);
    var s2 := s1.(pc := 4, registers := s1.registers[1 := 5]);
    assert Step(program, s1, random(1)) == Ok(s2);
    assert Decode(0x80, 0x15) == Sub(0, 1);
    assert Step(program, s2, random(2)) == Err(ArithmeticOverflow);
    assert Run(program, s, random, 0, 3) == Faulted(ArithmeticOverflow);
    RunSettled(program, s, random, 0, 3, fuel);
  }
}
