/**
 * The assembler of src/assembler.rs and the engine of src/main.rs agree on
 * the instruction format: for every form of the assembler's opcode table,
 * the two bytes that pass 2 writes for a line are the bytes the engine's
 * fetch decodes back into the instruction the mnemonic names, with the same
 * register digits, byte and address.
 */
module Bridge {
  import opened Words
  import opened Assembler
  import opened Encoding
  import Chip8
  import Chip8Properties

  /** The instruction the engine decodes from the two bytes pass 2 writes for `opcode`. */
  function Disassemble(opcode: u16): Chip8.Instruction
  {
    var bytes := Bytes(opcode);
    Chip8.Decode(bytes[0], bytes[1])
  }

  /**
   * The word with hexadecimal digits `a b c d` is split by the fetch into
   * those digits again: the high byte holds the family and `x`, the low byte
   * `y` and `n`.
   */
  lemma Decodes(a: nat, b: nat, c: nat, d: nat)
    requires a < 0x10 && b < 0x10 && c < 0x10 && d < 0x10
    ensures Word(a, b, c, d) < 0x10000
    ensures Disassemble(Word(a, b, c, d) as u16) == Chip8.Select(Chip8.Fields(a, b, c, d, c * 0x10 + d, b * 0x100 + c * 0x10 + d))
  {
    var w := Word(a, b, c, d);
    assert HighByte(w) == a * 0x10 + b;
    assert LowByte(w) == c * 0x10 + d;
    Chip8Properties.ExtractDigits(a, b, c, d);
  }

  // ---------------------------------------------------------------------------
  // The decode table, opcode by opcode
  // ---------------------------------------------------------------------------

  lemma ClearDecodes()
    ensures Disassemble(0x00E0) == Chip8.Clear
  {
    Decodes(0x0, 0x0, 0xE, 0x0);
  }

  lemma ReturnDecodes()
    ensures Disassemble(0x00EE) == Chip8.Return
  {
    Decodes(0x0, 0x0, 0xE, 0xE);
  }

  /** Every `0nnn` other than `00E0` and `00EE`. */
  lemma SystemDecodes(a: nat, b: nat, c: nat)
    requires a < 0x10 && b < 0x10 && c < 0x10 && Word(0, a, b, c) !in {0x0E0, 0x0EE}
    ensures Disassemble(Word(0x0, a, b, c) as u16) == Chip8.System(Word(0, a, b, c))
  {
    Decodes(0x0, a, b, c);
  }

  /** `1nnn`. */
  lemma JumpDecodes(a: nat, b: nat, c: nat)
    requires a < 0x10 && b < 0x10 && c < 0x10
    ensures Disassemble(Word(0x1, a, b, c) as u16) == Chip8.Jump(Word(0, a, b, c))
  {
    Decodes(0x1, a, b, c);
  }

  /** `2nnn`. */
  lemma CallDecodes(a: nat, b: nat, c: nat)
    requires a < 0x10 && b < 0x10 && c < 0x10
    ensures Disassemble(Word(0x2, a, b, c) as u16) == Chip8.Call(Word(0, a, b, c))
  {
    Decodes(0x2, a, b, c);
  }

  /** `Annn`. */
  lemma LoadIndexDecodes(a: nat, b: nat, c: nat)
    requires a < 0x10 && b < 0x10 && c < 0x10
    ensures Disassemble(Word(0xA, a, b, c) as u16) == Chip8.LoadIndex(Word(0, a, b, c))
  {
    Decodes(0xA, a, b, c);
  }

  /** `Bnnn`. */
  lemma JumpOffsetDecodes(a: nat, b: nat, c: nat)
    requires a < 0x10 && b < 0x10 && c < 0x10
    ensures Disassemble(Word(0xB, a, b, c) as u16) == Chip8.JumpOffset(Word(0, a, b, c))
  {
    Decodes(0xB, a, b, c);
  }

  /** `3xkk`. */
  lemma SkipEqualByteDecodes(x: nat, k1: nat, k2: nat)
    requires x < 0x10 && k1 < 0x10 && k2 < 0x10
    ensures Disassemble(Word(0x3, x, k1, k2) as u16) == Chip8.SkipEqualByte(x, k1 * 0x10 + k2)
  {
    Decodes(0x3, x, k1, k2);
  }

  /** `4xkk`. */
  lemma SkipNotEqualByteDecodes(x: nat, k1: nat, k2: nat)
    requires x < 0x10 && k1 < 0x10 && k2 < 0x10
    ensures Disassemble(Word(0x4, x, k1, k2) as u16) == Chip8.SkipNotEqualByte(x, k1 * 0x10 + k2)
  {
    Decodes(0x4, x, k1, k2);
  }

  /** `6xkk`. */
  lemma LoadByteDecodes(x: nat, k1: nat, k2: nat)
    requires x < 0x10 && k1 < 0x10 && k2 < 0x10
    ensures Disassemble(Word(0x6, x, k1, k2) as u16) == Chip8.LoadByte(x, k1 * 0x10 + k2)
  {
    Decodes(0x6, x, k1, k2);
  }

  /** `7xkk`. */
  lemma AddByteDecodes(x: nat, k1: nat, k2: nat)
    requires x < 0x10 && k1 < 0x10 && k2 < 0x10
    ensures Disassemble(Word(0x7, x, k1, k2) as u16) == Chip8.AddByte(x, k1 * 0x10 + k2)
  {
    Decodes(0x7, x, k1, k2);
  }

  /** `Cxkk`. */
  lemma RandomDecodes(x: nat, k1: nat, k2: nat)
    requires x < 0x10 && k1 < 0x10 && k2 < 0x10
    ensures Disassemble(Word(0xC, x, k1, k2) as u16) == Chip8.Random(x, k1 * 0x10 + k2)
  {
    Decodes(0xC, x, k1, k2);
  }

  /** `5xy0`. */
  lemma SkipEqualDecodes(x: nat, y: nat)
    requires x < 0x10 && y < 0x10
    ensures Disassemble(Word(0x5, x, y, 0x0) as u16) == Chip8.SkipEqual(x, y)
  {
    Decodes(0x5, x, y, 0x0);
  }

  /** `9xy0`. */
  lemma SkipNotEqualDecodes(x: nat, y: nat)
    requires x < 0x10 && y < 0x10
    ensures Disassemble(Word(0x9, x, y, 0x0) as u16) == Chip8.SkipNotEqual(x, y)
  {
    Decodes(0x9, x, y, 0x0);
  }

  /** `8xy0`. */
  lemma LoadDecodes(x: nat, y: nat)
    requires x < 0x10 && y < 0x10
    ensures Disassemble(Word(0x8, x, y, 0x0) as u16) == Chip8.Load(x, y)
  {
    Decodes(0x8, x, y, 0x0);
  }

  /** `8xy1`. */
  lemma BitOrDecodes(x: nat, y: nat)
    requires x < 0x10 && y < 0x10
    ensures Disassemble(Word(0x8, x, y, 0x1) as u16) == Chip8.BitOr(x, y)
  {
    Decodes(0x8, x, y, 0x1);
  }

  /** `8xy2`. */
  lemma BitAndDecodes(x: nat, y: nat)
    requires x < 0x10 && y < 0x10
    ensures Disassemble(Word(0x8, x, y, 0x2) as u16) == Chip8.BitAnd(x, y)
  {
    Decodes(0x8, x, y, 0x2);
  }

  /** `8xy3`. */
  lemma BitXorDecodes(x: nat, y: nat)
    requires x < 0x10 && y < 0x10
    ensures Disassemble(Word(0x8, x, y, 0x3) as u16) == Chip8.BitXor(x, y)
  {
    Decodes(0x8, x, y, 0x3);
  }

  /** `8xy4`. */
  lemma AddDecodes(x: nat, y: nat)
    requires x < 0x10 && y < 0x10
    ensures Disassemble(Word(0x8, x, y, 0x4) as u16) == Chip8.Add(x, y)
  {
    Decodes(0x8, x, y, 0x4);
  }

  /** `8xy5`. */
  lemma SubDecodes(x: nat, y: nat)
    requires x < 0x10 && y < 0x10
    ensures Disassemble(Word(0x8, x, y, 0x5) as u16) == Chip8.Sub(x, y)
  {
    Decodes(0x8, x, y, 0x5);
  }

  /** `8xy6`. */
  lemma ShiftRightDecodes(x: nat, y: nat)
    requires x < 0x10 && y < 0x10
    ensures Disassemble(Word(0x8, x, y, 0x6) as u16) == Chip8.ShiftRight(x, y)
  {
    Decodes(0x8, x, y, 0x6);
  }

  /** `8xy7`. */
  lemma SubNDecodes(x: nat, y: nat)
    requires x < 0x10 && y < 0x10
    ensures Disassemble(Word(0x8, x, y, 0x7) as u16) == Chip8.SubN(x, y)
  {
    Decodes(0x8, x, y, 0x7);
  }

  /** `8xyE`. */
  lemma ShiftLeftDecodes(x: nat, y: nat)
    requires x < 0x10 && y < 0x10
    ensures Disassemble(Word(0x8, x, y, 0xE) as u16) == Chip8.ShiftLeft(x, y)
  {
    Decodes(0x8, x, y, 0xE);
  }

  /** `Dxyn`. */
  lemma DrawDecodes(x: nat, y: nat, n: nat)
    requires x < 0x10 && y < 0x10 && n < 0x10
    ensures Disassemble(Word(0xD, x, y, n) as u16) == Chip8.Draw(x, y, n)
  {
    Decodes(0xD, x, y, n);
  }

  /** `Ex9E`. */
  lemma SkipPressedDecodes(x: nat)
    requires x < 0x10
    ensures Disassemble(Word(0xE, x, 0x9, 0xE) as u16) == Chip8.SkipPressed(x)
  {
    Decodes(0xE, x, 0x9, 0xE);
  }

  /** `ExA1`. */
  lemma SkipNotPressedDecodes(x: nat)
    requires x < 0x10
    ensures Disassemble(Word(0xE, x, 0xA, 0x1) as u16) == Chip8.SkipNotPressed(x)
  {
    Decodes(0xE, x, 0xA, 0x1);
  }

  /** `Fx07`. */
  lemma LoadFromDelayDecodes(x: nat)
    requires x < 0x10
    ensures Disassemble(Word(0xF, x, 0x0, 0x7) as u16) == Chip8.LoadFromDelay(x)
  {
    Decodes(0xF, x, 0x0, 0x7);
  }

  /** `Fx0A`. */
  lemma WaitKeyDecodes(x: nat)
    requires x < 0x10
    ensures Disassemble(Word(0xF, x, 0x0, 0xA) as u16) == Chip8.WaitKey(x)
  {
    Decodes(0xF, x, 0x0, 0xA);
  }

  /** `Fx15`. */
  lemma LoadDelayDecodes(x: nat)
    requires x < 0x10
    ensures Disassemble(Word(0xF, x, 0x1, 0x5) as u16) == Chip8.LoadDelay(x)
  {
    Decodes(0xF, x, 0x1, 0x5);
  }

  /** `Fx18`. */
  lemma LoadSoundDecodes(x: nat)
    requires x < 0x10
    ensures Disassemble(Word(0xF, x, 0x1, 0x8) as u16) == Chip8.LoadSound(x)
  {
    Decodes(0xF, x, 0x1, 0x8);
  }

  /** `Fx1E`. */
  lemma AddIndexDecodes(x: nat)
    requires x < 0x10
    ensures Disassemble(Word(0xF, x, 0x1, 0xE) as u16) == Chip8.AddIndex(x)
  {
    Decodes(0xF, x, 0x1, 0xE);
  }

  /** `Fx29`. */
  lemma LoadFontDecodes(x: nat)
    requires x < 0x10
    ensures Disassemble(Word(0xF, x, 0x2, 0x9) as u16) == Chip8.LoadFont(x)
  {
    Decodes(0xF, x, 0x2, 0x9);
  }

  /** `Fx33`. */
  lemma StoreDecimalDecodes(x: nat)
    requires x < 0x10
    ensures Disassemble(Word(0xF, x, 0x3, 0x3) as u16) == Chip8.StoreDecimal(x)
  {
    Decodes(0xF, x, 0x3, 0x3);
  }

  /** `Fx55`. */
  lemma StoreRegistersDecodes(x: nat)
    requires x < 0x10
    ensures Disassemble(Word(0xF, x, 0x5, 0x5) as u16) == Chip8.StoreRegisters(x)
  {
    Decodes(0xF, x, 0x5, 0x5);
  }

  /** `Fx65`. */
  lemma LoadRegistersDecodes(x: nat)
    requires x < 0x10
    ensures Disassemble(Word(0xF, x, 0x6, 0x5) as u16) == Chip8.LoadRegisters(x)
  {
    Decodes(0xF, x, 0x6, 0x5);
  }

  /** The line made of `parts` assembles to an opcode that the engine runs as `instruction`. */
  predicate Runs(parts: seq<string>, labels: Labels, position: u16, instruction: Chip8.Instruction)
  {
    |parts| >= 1 &&
    var r := ParseTokens(parts, labels, position).result;
    r.Opcode? && Disassemble(r.value) == instruction
  }

  /** A line that parses to `opcode` runs as the instruction `opcode` decodes to. */
  lemma ParsedRuns(parts: seq<string>, labels: Labels, position: u16, opcode: u16, instruction: Chip8.Instruction)
    requires |parts| >= 1 && ParseTokens(parts, labels, position) == Parse(Opcode(opcode), labels)
    requires Disassemble(opcode) == instruction
    ensures Runs(parts, labels, position, instruction)
  {
  }

  /** The operands of a register pair: two hexadecimal digits, with or without a comma between them. */
  predicate PairDigits(x: char, comma: string, y: char)
  {
    IsHexDigit(x) && IsHexDigit(y) && (comma == "" || comma == ",")
  }

  // ---------------------------------------------------------------------------
  // Without operands, and with an address
  // ---------------------------------------------------------------------------

  lemma ClearRuns(labels: Labels, position: u16)
    ensures Runs(["CLS"], labels, position, Chip8.Clear)
  {
    EncodeClear(labels, position);
    ClearDecodes();
    ParsedRuns(["CLS"], labels, position, 0x00E0, Chip8.Clear);
  }

  lemma ReturnRuns(labels: Labels, position: u16)
    ensures Runs(["RET"], labels, position, Chip8.Return)
  {
    EncodeReturn(labels, position);
    ReturnDecodes();
    ParsedRuns(["RET"], labels, position, 0x00EE, Chip8.Return);
  }

  /** `SYS nnn` with an address other than `0E0` and `0EE`, which decode as `CLS` and `RET`. */
  lemma SystemRuns(a: char, b: char, c: char, labels: Labels, position: u16)
    requires IsHexDigit(a) && IsHexDigit(b) && IsHexDigit(c)
    requires Word(0, Nibble(a), Nibble(b), Nibble(c)) !in {0x0E0, 0x0EE}
    ensures Runs(["SYS", Hex([a, b, c])], labels, position, Chip8.System(Word(0, Nibble(a), Nibble(b), Nibble(c))))
  {
    EncodeSystem(a, b, c, labels, position);
    SystemDecodes(Nibble(a), Nibble(b), Nibble(c));
    ParsedRuns(["SYS", Hex([a, b, c])], labels, position, Word(0x0, Nibble(a), Nibble(b), Nibble(c)) as u16, Chip8.System(Word(0, Nibble(a), Nibble(b), Nibble(c))));
  }

  lemma JumpRuns(a: char, b: char, c: char, labels: Labels, position: u16)
    requires IsHexDigit(a) && IsHexDigit(b) && IsHexDigit(c)
    ensures Runs(["JP", Hex([a, b, c])], labels, position, Chip8.Jump(Word(0, Nibble(a), Nibble(b), Nibble(c))))
  {
    EncodeJump(a, b, c, labels, position);
    JumpDecodes(Nibble(a), Nibble(b), Nibble(c));
    ParsedRuns(["JP", Hex([a, b, c])], labels, position, Word(0x1, Nibble(a), Nibble(b), Nibble(c)) as u16, Chip8.Jump(Word(0, Nibble(a), Nibble(b), Nibble(c))));
  }

  lemma CallRuns(a: char, b: char, c: char, labels: Labels, position: u16)
    requires IsHexDigit(a) && IsHexDigit(b) && IsHexDigit(c)
    ensures Runs(["CALL", Hex([a, b, c])], labels, position, Chip8.Call(Word(0, Nibble(a), Nibble(b), Nibble(c))))
  {
    EncodeCall(a, b, c, labels, position);
    CallDecodes(Nibble(a), Nibble(b), Nibble(c));
    ParsedRuns(["CALL", Hex([a, b, c])], labels, position, Word(0x2, Nibble(a), Nibble(b), Nibble(c)) as u16, Chip8.Call(Word(0, Nibble(a), Nibble(b), Nibble(c))));
  }

  lemma LoadIndexRuns(a: char, b: char, c: char, labels: Labels, position: u16)
    requires IsHexDigit(a) && IsHexDigit(b) && IsHexDigit(c)
    ensures Runs(["LD", "I,", Hex([a, b, c])], labels, position, Chip8.LoadIndex(Word(0, Nibble(a), Nibble(b), Nibble(c))))
  {
    EncodeLoadIndex(a, b, c, labels, position);
    LoadIndexDecodes(Nibble(a), Nibble(b), Nibble(c));
    ParsedRuns(["LD", "I,", Hex([a, b, c])], labels, position, Word(0xA, Nibble(a), Nibble(b), Nibble(c)) as u16, Chip8.LoadIndex(Word(0, Nibble(a), Nibble(b), Nibble(c))));
  }

  /** `JP Vx, nnn` drops the register: the engine always adds `V0`. */
  lemma JumpOffsetRuns(x: char, a: char, b: char, c: char, labels: Labels, position: u16)
    requires IsHexDigit(x) && IsHexDigit(a) && IsHexDigit(b) && IsHexDigit(c)
    ensures Runs(["JP", Reg(x, ","), Hex([a, b, c])], labels, position, Chip8.JumpOffset(Word(0, Nibble(a), Nibble(b), Nibble(c))))
  {
    EncodeJumpOffset(x, a, b, c, labels, position);
    JumpOffsetDecodes(Nibble(a), Nibble(b), Nibble(c));
    ParsedRuns(["JP", Reg(x, ","), Hex([a, b, c])], labels, position, Word(0xB, Nibble(a), Nibble(b), Nibble(c)) as u16, Chip8.JumpOffset(Word(0, Nibble(a), Nibble(b), Nibble(c))));
  }

  // ---------------------------------------------------------------------------
  // A register and a byte
  // ---------------------------------------------------------------------------

  lemma SkipEqualByteRuns(x: char, k1: char, k2: char, labels: Labels, position: u16)
    requires IsHexDigit(x) && IsHexDigit(k1) && IsHexDigit(k2)
    ensures Runs(["SE", Reg(x, ","), Hex([k1, k2])], labels, position, Chip8.SkipEqualByte(Nibble(x), Nibble(k1) * 0x10 + Nibble(k2)))
  {
    EncodeSkipEqualByte(x, k1, k2, labels, position);
    SkipEqualByteDecodes(Nibble(x), Nibble(k1), Nibble(k2));
    ParsedRuns(["SE", Reg(x, ","), Hex([k1, k2])], labels, position, Word(0x3, Nibble(x), Nibble(k1), Nibble(k2)) as u16, Chip8.SkipEqualByte(Nibble(x), Nibble(k1) * 0x10 + Nibble(k2)));
  }

  lemma SkipNotEqualByteRuns(x: char, k1: char, k2: char, labels: Labels, position: u16)
    requires IsHexDigit(x) && IsHexDigit(k1) && IsHexDigit(k2)
    ensures Runs(["SNE", Reg(x, ","), Hex([k1, k2])], labels, position, Chip8.SkipNotEqualByte(Nibble(x), Nibble(k1) * 0x10 + Nibble(k2)))
  {
    EncodeSkipNotEqualByte(x, k1, k2, labels, position);
    SkipNotEqualByteDecodes(Nibble(x), Nibble(k1), Nibble(k2));
    ParsedRuns(["SNE", Reg(x, ","), Hex([k1, k2])], labels, position, Word(0x4, Nibble(x), Nibble(k1), Nibble(k2)) as u16, Chip8.SkipNotEqualByte(Nibble(x), Nibble(k1) * 0x10 + Nibble(k2)));
  }

  lemma LoadByteRuns(x: char, k1: char, k2: char, labels: Labels, position: u16)
    requires IsHexDigit(x) && IsHexDigit(k1) && IsHexDigit(k2)
    ensures Runs(["LD", Reg(x, ","), Hex([k1, k2])], labels, position, Chip8.LoadByte(Nibble(x), Nibble(k1) * 0x10 + Nibble(k2)))
  {
    EncodeLoadByte(x, k1, k2, labels, position);
    LoadByteDecodes(Nibble(x), Nibble(k1), Nibble(k2));
    ParsedRuns(["LD", Reg(x, ","), Hex([k1, k2])], labels, position, Word(0x6, Nibble(x), Nibble(k1), Nibble(k2)) as u16, Chip8.LoadByte(Nibble(x), Nibble(k1) * 0x10 + Nibble(k2)));
  }

  /** A one-digit byte is zero-padded on the left. */
  lemma LoadShortByteRuns(x: char, k: char, labels: Labels, position: u16)
    requires IsHexDigit(x) && IsHexDigit(k)
    ensures Runs(["LD", Reg(x, ","), Hex([k])], labels, position, Chip8.LoadByte(Nibble(x), Nibble(k)))
  {
    EncodeLoadShortByte(x, k, labels, position);
    LoadByteDecodes(Nibble(x), 0x0, Nibble(k));
    ParsedRuns(["LD", Reg(x, ","), Hex([k])], labels, position, Word(0x6, Nibble(x), 0x0, Nibble(k)) as u16, Chip8.LoadByte(Nibble(x), Nibble(k)));
  }

  lemma AddByteRuns(x: char, k1: char, k2: char, labels: Labels, position: u16)
    requires IsHexDigit(x) && IsHexDigit(k1) && IsHexDigit(k2)
    ensures Runs(["ADD", Reg(x, ","), Hex([k1, k2])], labels, position, Chip8.AddByte(Nibble(x), Nibble(k1) * 0x10 + Nibble(k2)))
  {
    EncodeAddByte(x, k1, k2, labels, position);
    AddByteDecodes(Nibble(x), Nibble(k1), Nibble(k2));
    ParsedRuns(["ADD", Reg(x, ","), Hex([k1, k2])], labels, position, Word(0x7, Nibble(x), Nibble(k1), Nibble(k2)) as u16, Chip8.AddByte(Nibble(x), Nibble(k1) * 0x10 + Nibble(k2)));
  }

  lemma RandomRuns(x: char, k1: char, k2: char, labels: Labels, position: u16)
    requires IsHexDigit(x) && IsHexDigit(k1) && IsHexDigit(k2)
    ensures Runs(["RND", Reg(x, ","), Hex([k1, k2])], labels, position, Chip8.Random(Nibble(x), Nibble(k1) * 0x10 + Nibble(k2)))
  {
    EncodeRandomByte(x, k1, k2, labels, position);
    RandomDecodes(Nibble(x), Nibble(k1), Nibble(k2));
    ParsedRuns(["RND", Reg(x, ","), Hex([k1, k2])], labels, position, Word(0xC, Nibble(x), Nibble(k1), Nibble(k2)) as u16, Chip8.Random(Nibble(x), Nibble(k1) * 0x10 + Nibble(k2)));
  }

  // ---------------------------------------------------------------------------
  // Two registers
  // ---------------------------------------------------------------------------

  lemma SkipEqualRuns(x: char, comma: string, y: char, labels: Labels, position: u16)
    requires PairDigits(x, comma, y)
    ensures Runs(["SE", Reg(x, comma), Reg(y, "")], labels, position, Chip8.SkipEqual(Nibble(x), Nibble(y)))
  {
    EncodeSkipEqualRegisters(x, comma, y, labels, position);
    SkipEqualDecodes(Nibble(x), Nibble(y));
    ParsedRuns(["SE", Reg(x, comma), Reg(y, "")], labels, position, Word(0x5, Nibble(x), Nibble(y), 0x0) as u16, Chip8.SkipEqual(Nibble(x), Nibble(y)));
  }

  lemma SkipNotEqualRuns(x: char, comma: string, y: char, labels: Labels, position: u16)
    requires PairDigits(x, comma, y)
    ensures Runs(["SNE", Reg(x, comma), Reg(y, "")], labels, position, Chip8.SkipNotEqual(Nibble(x), Nibble(y)))
  {
    EncodeSkipNotEqualRegisters(x, comma, y, labels, position);
    SkipNotEqualDecodes(Nibble(x), Nibble(y));
    ParsedRuns(["SNE", Reg(x, comma), Reg(y, "")], labels, position, Word(0x9, Nibble(x), Nibble(y), 0x0) as u16, Chip8.SkipNotEqual(Nibble(x), Nibble(y)));
  }

  lemma LoadRuns(x: char, comma: string, y: char, labels: Labels, position: u16)
    requires PairDigits(x, comma, y)
    ensures Runs(["LD", Reg(x, comma), Reg(y, "")], labels, position, Chip8.Load(Nibble(x), Nibble(y)))
  {
    EncodeLoadRegister(x, comma, y, labels, position);
    LoadDecodes(Nibble(x), Nibble(y));
    ParsedRuns(["LD", Reg(x, comma), Reg(y, "")], labels, position, Word(0x8, Nibble(x), Nibble(y), 0x0) as u16, Chip8.Load(Nibble(x), Nibble(y)));
  }

  lemma OrRuns(x: char, comma: string, y: char, labels: Labels, position: u16)
    requires PairDigits(x, comma, y)
    ensures Runs(["OR", Reg(x, comma), Reg(y, "")], labels, position, Chip8.BitOr(Nibble(x), Nibble(y)))
  {
    EncodeOr(x, comma, y, labels, position);
    BitOrDecodes(Nibble(x), Nibble(y));
    ParsedRuns(["OR", Reg(x, comma), Reg(y, "")], labels, position, Word(0x8, Nibble(x), Nibble(y), 0x1) as u16, Chip8.BitOr(Nibble(x), Nibble(y)));
  }

  lemma AndRuns(x: char, comma: string, y: char, labels: Labels, position: u16)
    requires PairDigits(x, comma, y)
    ensures Runs(["AND", Reg(x, comma), Reg(y, "")], labels, position, Chip8.BitAnd(Nibble(x), Nibble(y)))
  {
    EncodeAnd(x, comma, y, labels, position);
    BitAndDecodes(Nibble(x), Nibble(y));
    ParsedRuns(["AND", Reg(x, comma), Reg(y, "")], labels, position, Word(0x8, Nibble(x), Nibble(y), 0x2) as u16, Chip8.BitAnd(Nibble(x), Nibble(y)));
  }

  lemma XorRuns(x: char, comma: string, y: char, labels: Labels, position: u16)
    requires PairDigits(x, comma, y)
    ensures Runs(["XOR", Reg(x, comma), Reg(y, "")], labels, position, Chip8.BitXor(Nibble(x), Nibble(y)))
  {
    EncodeXor(x, comma, y, labels, position);
    BitXorDecodes(Nibble(x), Nibble(y));
    ParsedRuns(["XOR", Reg(x, comma), Reg(y, "")], labels, position, Word(0x8, Nibble(x), Nibble(y), 0x3) as u16, Chip8.BitXor(Nibble(x), Nibble(y)));
  }

  lemma AddRuns(x: char, comma: string, y: char, labels: Labels, position: u16)
    requires PairDigits(x, comma, y)
    ensures Runs(["ADD", Reg(x, comma), Reg(y, "")], labels, position, Chip8.Add(Nibble(x), Nibble(y)))
  {
    EncodeAddRegisters(x, comma, y, labels, position);
    AddDecodes(Nibble(x), Nibble(y));
    ParsedRuns(["ADD", Reg(x, comma), Reg(y, "")], labels, position, Word(0x8, Nibble(x), Nibble(y), 0x4) as u16, Chip8.Add(Nibble(x), Nibble(y)));
  }

  lemma SubRuns(x: char, comma: string, y: char, labels: Labels, position: u16)
    requires PairDigits(x, comma, y)
    ensures Runs(["SUB", Reg(x, comma), Reg(y, "")], labels, position, Chip8.Sub(Nibble(x), Nibble(y)))
  {
    EncodeSub(x, comma, y, labels, position);
    SubDecodes(Nibble(x), Nibble(y));
    ParsedRuns(["SUB", Reg(x, comma), Reg(y, "")], labels, position, Word(0x8, Nibble(x), Nibble(y), 0x5) as u16, Chip8.Sub(Nibble(x), Nibble(y)));
  }

  lemma ShiftRightPairRuns(x: char, comma: string, y: char, labels: Labels, position: u16)
    requires PairDigits(x, comma, y)
    ensures Runs(["SHR", Reg(x, comma), Reg(y, "")], labels, position, Chip8.ShiftRight(Nibble(x), Nibble(y)))
  {
    EncodeShiftRightPair(x, comma, y, labels, position);
    ShiftRightDecodes(Nibble(x), Nibble(y));
    ParsedRuns(["SHR", Reg(x, comma), Reg(y, "")], labels, position, Word(0x8, Nibble(x), Nibble(y), 0x6) as u16, Chip8.ShiftRight(Nibble(x), Nibble(y)));
  }

  lemma SubNRuns(x: char, comma: string, y: char, labels: Labels, position: u16)
    requires PairDigits(x, comma, y)
    ensures Runs(["SUBN", Reg(x, comma), Reg(y, "")], labels, position, Chip8.SubN(Nibble(x), Nibble(y)))
  {
    EncodeSubN(x, comma, y, labels, position);
    SubNDecodes(Nibble(x), Nibble(y));
    ParsedRuns(["SUBN", Reg(x, comma), Reg(y, "")], labels, position, Word(0x8, Nibble(x), Nibble(y), 0x7) as u16, Chip8.SubN(Nibble(x), Nibble(y)));
  }

  lemma ShiftLeftPairRuns(x: char, comma: string, y: char, labels: Labels, position: u16)
    requires PairDigits(x, comma, y)
    ensures Runs(["SHL", Reg(x, comma), Reg(y, "")], labels, position, Chip8.ShiftLeft(Nibble(x), Nibble(y)))
  {
    EncodeShiftLeftPair(x, comma, y, labels, position);
    ShiftLeftDecodes(Nibble(x), Nibble(y));
    ParsedRuns(["SHL", Reg(x, comma), Reg(y, "")], labels, position, Word(0x8, Nibble(x), Nibble(y), 0xE) as u16, Chip8.ShiftLeft(Nibble(x), Nibble(y)));
  }

  /** `SHR Vx` alone leaves `y` at 0; the engine's shift ignores `y`. */
  lemma ShiftRightRuns(x: char, labels: Labels, position: u16)
    requires IsHexDigit(x)
    ensures Runs(["SHR", Reg(x, "")], labels, position, Chip8.ShiftRight(Nibble(x), 0))
  {
    EncodeShiftRight(x, labels, position);
    ShiftRightDecodes(Nibble(x), 0x0);
    ParsedRuns(["SHR", Reg(x, "")], labels, position, Word(0x8, Nibble(x), 0x0, 0x6) as u16, Chip8.ShiftRight(Nibble(x), 0));
  }

  lemma ShiftLeftRuns(x: char, labels: Labels, position: u16)
    requires IsHexDigit(x)
    ensures Runs(["SHL", Reg(x, "")], labels, position, Chip8.ShiftLeft(Nibble(x), 0))
  {
    EncodeShiftLeft(x, labels, position);
    ShiftLeftDecodes(Nibble(x), 0x0);
    ParsedRuns(["SHL", Reg(x, "")], labels, position, Word(0x8, Nibble(x), 0x0, 0xE) as u16, Chip8.ShiftLeft(Nibble(x), 0));
  }

  lemma DrawRuns(x: char, y: char, n: char, labels: Labels, position: u16)
    requires IsHexDigit(x) && IsHexDigit(y) && IsHexDigit(n)
    ensures Runs(["DRW", Reg(x, ","), Reg(y, ","), Hex([n])], labels, position, Chip8.Draw(Nibble(x), Nibble(y), Nibble(n)))
  {
    EncodeDraw(x, y, n, labels, position);
    DrawDecodes(Nibble(x), Nibble(y), Nibble(n));
    ParsedRuns(["DRW", Reg(x, ","), Reg(y, ","), Hex([n])], labels, position, Word(0xD, Nibble(x), Nibble(y), Nibble(n)) as u16, Chip8.Draw(Nibble(x), Nibble(y), Nibble(n)));
  }

  // ---------------------------------------------------------------------------
  // One register
  // ---------------------------------------------------------------------------

  lemma SkipPressedRuns(x: char, labels: Labels, position: u16)
    requires IsHexDigit(x)
    ensures Runs(["SKP", Reg(x, "")], labels, position, Chip8.SkipPressed(Nibble(x)))
  {
    EncodeSkipPressed(x, labels, position);
    SkipPressedDecodes(Nibble(x));
    ParsedRuns(["SKP", Reg(x, "")], labels, position, Word(0xE, Nibble(x), 0x9, 0xE) as u16, Chip8.SkipPressed(Nibble(x)));
  }

  lemma SkipNotPressedRuns(x: char, labels: Labels, position: u16)
    requires IsHexDigit(x)
    ensures Runs(["SKNP", Reg(x, "")], labels, position, Chip8.SkipNotPressed(Nibble(x)))
  {
    EncodeSkipNotPressed(x, labels, position);
    SkipNotPressedDecodes(Nibble(x));
    ParsedRuns(["SKNP", Reg(x, "")], labels, position, Word(0xE, Nibble(x), 0xA, 0x1) as u16, Chip8.SkipNotPressed(Nibble(x)));
  }

  lemma LoadFromDelayRuns(x: char, labels: Labels, position: u16)
    requires IsHexDigit(x)
    ensures Runs(["LD", Reg(x, ","), "DT"], labels, position, Chip8.LoadFromDelay(Nibble(x)))
  {
    EncodeLoadFromDelay(x, labels, position);
    LoadFromDelayDecodes(Nibble(x));
    ParsedRuns(["LD", Reg(x, ","), "DT"], labels, position, Word(0xF, Nibble(x), 0x0, 0x7) as u16, Chip8.LoadFromDelay(Nibble(x)));
  }

  lemma WaitKeyRuns(x: char, labels: Labels, position: u16)
    requires IsHexDigit(x)
    ensures Runs(["LD", Reg(x, ","), "K"], labels, position, Chip8.WaitKey(Nibble(x)))
  {
    EncodeLoadKey(x, labels, position);
    WaitKeyDecodes(Nibble(x));
    ParsedRuns(["LD", Reg(x, ","), "K"], labels, position, Word(0xF, Nibble(x), 0x0, 0xA) as u16, Chip8.WaitKey(Nibble(x)));
  }

  lemma LoadDelayRuns(x: char, labels: Labels, position: u16)
    requires IsHexDigit(x)
    ensures Runs(["LD", "DT,", Reg(x, "")], labels, position, Chip8.LoadDelay(Nibble(x)))
  {
    EncodeLoadDelay(x, labels, position);
    LoadDelayDecodes(Nibble(x));
    ParsedRuns(["LD", "DT,", Reg(x, "")], labels, position, Word(0xF, Nibble(x), 0x1, 0x5) as u16, Chip8.LoadDelay(Nibble(x)));
  }

  lemma LoadSoundRuns(x: char, labels: Labels, position: u16)
    requires IsHexDigit(x)
    ensures Runs(["LD", "ST,", Reg(x, "")], labels, position, Chip8.LoadSound(Nibble(x)))
  {
    EncodeLoadSound(x, labels, position);
    LoadSoundDecodes(Nibble(x));
    ParsedRuns(["LD", "ST,", Reg(x, "")], labels, position, Word(0xF, Nibble(x), 0x1, 0x8) as u16, Chip8.LoadSound(Nibble(x)));
  }

  lemma AddIndexRuns(x: char, labels: Labels, position: u16)
    requires IsHexDigit(x)
    ensures Runs(["ADD", "I,", Reg(x, "")], labels, position, Chip8.AddIndex(Nibble(x)))
  {
    EncodeAddIndex(x, labels, position);
    AddIndexDecodes(Nibble(x));
    ParsedRuns(["ADD", "I,", Reg(x, "")], labels, position, Word(0xF, Nibble(x), 0x1, 0xE) as u16, Chip8.AddIndex(Nibble(x)));
  }

  lemma LoadFontRuns(x: char, labels: Labels, position: u16)
    requires IsHexDigit(x)
    ensures Runs(["LD", "F,", Reg(x, "")], labels, position, Chip8.LoadFont(Nibble(x)))
  {
    EncodeLoadSprite(x, labels, position);
    LoadFontDecodes(Nibble(x));
    ParsedRuns(["LD", "F,", Reg(x, "")], labels, position, Word(0xF, Nibble(x), 0x2, 0x9) as u16, Chip8.LoadFont(Nibble(x)));
  }

  lemma StoreDecimalRuns(x: char, labels: Labels, position: u16)
    requires IsHexDigit(x)
    ensures Runs(["LD", "B,", Reg(x, "")], labels, position, Chip8.StoreDecimal(Nibble(x)))
  {
    EncodeLoadDecimal(x, labels, position);
    StoreDecimalDecodes(Nibble(x));
    ParsedRuns(["LD", "B,", Reg(x, "")], labels, position, Word(0xF, Nibble(x), 0x3, 0x3) as u16, Chip8.StoreDecimal(Nibble(x)));
  }

  lemma StoreRegistersRuns(x: char, labels: Labels, position: u16)
    requires IsHexDigit(x)
    ensures Runs(["LD", "I,", Reg(x, "")], labels, position, Chip8.StoreRegisters(Nibble(x)))
  {
    EncodeStoreRegisters(x, labels, position);
    StoreRegistersDecodes(Nibble(x));
    ParsedRuns(["LD", "I,", Reg(x, "")], labels, position, Word(0xF, Nibble(x), 0x5, 0x5) as u16, Chip8.StoreRegisters(Nibble(x)));
  }

  lemma LoadRegistersRuns(x: char, labels: Labels, position: u16)
    requires IsHexDigit(x)
    ensures Runs(["LD", Reg(x, ","), "I"], labels, position, Chip8.LoadRegisters(Nibble(x)))
  {
    EncodeLoadRegisters(x, labels, position);
    LoadRegistersDecodes(Nibble(x));
    ParsedRuns(["LD", Reg(x, ","), "I"], labels, position, Word(0xF, Nibble(x), 0x6, 0x5) as u16, Chip8.LoadRegisters(Nibble(x)));
  }
}
