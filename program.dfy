/**
 * A program carried from source text to its run: the file is assembled by
 * `assemble` (src/assembler.rs) and the bytes it writes are the program
 * that `run_instructions` (src/main.rs) interprets.
 */
module AssembledPrograms {
  import opened Wrappers
  import opened Words
  import opened Assembler
  import opened Encoding
  import opened EncodingLines
  import opened CorrectedAssembler
  import Chip8
  import Chip8Properties

  /** `LD V0, 0x05` assembles to `0x6005` wherever it sits. */
  lemma LoadFive(line: string, labels: Labels, position: u16)
    requires line == "LD V0, 0x05"
    ensures ParseAsmLine(line, labels, position) == Parse(Opcode(0x6005), labels)
  {
    ByteLine(line, "LD", '0', "05", labels, position);
    EncodeLoadByte('0', '0', '5', labels, position);
    assert Word(0x6, Nibble('0'), Nibble('0'), Nibble('5')) == 0x6005 by {
      assert Nibble('0') == 0 && Nibble('5') == 5;
    }
  }

  /** `ADD V0, 0x03` assembles to `0x7003` wherever it sits. */
  lemma AddThree(line: string, labels: Labels, position: u16)
    requires line == "ADD V0, 0x03"
    ensures ParseAsmLine(line, labels, position) == Parse(Opcode(0x7003), labels)
  {
    ByteLine(line, "ADD", '0', "03", labels, position);
    EncodeAddByte('0', '0', '3', labels, position);
    assert Word(0x7, Nibble('0'), Nibble('0'), Nibble('3')) == 0x7003 by {
      assert Nibble('0') == 0 && Nibble('3') == 3;
    }
  }

  /**
   * A file of two lines that each assemble to an opcode on their own: pass 1
   * records them with their opcodes at 0x200 and 0x202.
   */
  lemma TwoLinesLaidOut(a: string, b: string, u: u16, v: u16, first: AsmLine, second: AsmLine)
    requires ParseAsmLine(a, map[], 0x200) == Parse(Opcode(u), map[])
    requires ParseAsmLine(b, map[], 0x202) == Parse(Opcode(v), map[])
    requires first == AsmLine(a, Some(u), 0x200) && second == AsmLine(b, Some(v), 0x202)
    ensures Pass1([a, b], FirstPass([], map[], ProgramStart)) == Ok(FirstPass([first, second], map[], 0x204))
  {
    TwoLinesRead(ParseAsmLine, a, b, u, v, first, second);
  }

  /** The same, for pass 1 reading lines with any parser. */
  lemma TwoLinesRead(parse: LineParser, a: string, b: string, u: u16, v: u16, first: AsmLine, second: AsmLine)
    requires parse(a, map[], 0x200) == Parse(Opcode(u), map[])
    requires parse(b, map[], 0x202) == Parse(Opcode(v), map[])
    requires first == AsmLine(a, Some(u), 0x200) && second == AsmLine(b, Some(v), 0x202)
    ensures Pass1With(parse, [a, b], FirstPass([], map[], ProgramStart)) == Ok(FirstPass([first, second], map[], 0x204))
  {
    var st1 := FirstPass([first], map[], 0x202);
    assert [a, b][1..] == [b] && [b][1..] == [];
    assert [] + [first] == [first] && [first] + [second] == [first, second];
    assert Pass1With(parse, [b], st1) == Ok(FirstPass([first, second], map[], 0x204));
  }

  /** Such a file assembles to the two opcodes, each high byte first. */
  lemma TwoLinesAssemble(a: string, b: string, u: u16, v: u16)
    requires ParseAsmLine(a, map[], 0x200) == Parse(Opcode(u), map[])
    requires ParseAsmLine(b, map[], 0x202) == Parse(Opcode(v), map[])
    ensures Assembled([a, b]) == Ok(Bytes(u) + Bytes(v))
  {
    var first := AsmLine(a, Some(u), 0x200);
    var second := AsmLine(b, Some(v), 0x202);
    TwoLinesLaidOut(a, b, u, v, first, second);
    Pass2Two(first, second, map[], u, v);
  }

  /** Lines that assemble to `0x6005` and `0x7003` give the bytes `60 05 70 03`. */
  lemma LoadAddBytes(load: string, add: string)
    requires ParseAsmLine(load, map[], 0x200) == Parse(Opcode(0x6005), map[])
    requires ParseAsmLine(add, map[], 0x202) == Parse(Opcode(0x7003), map[])
    ensures Assembled([load, add]) == Ok([0x60, 0x05, 0x70, 0x03])
  {
    TwoLinesAssemble(load, add, 0x6005, 0x7003);
    LoadAddOpcodes();
  }

  /** The opcodes `0x6005` and `0x7003`, high byte first. */
  lemma LoadAddOpcodes()
    ensures Bytes(0x6005) + Bytes(0x7003) == [0x60, 0x05, 0x70, 0x03]
  {
    assert Bytes(0x6005) == [0x60, 0x05];
    assert Bytes(0x7003) == [0x70, 0x03];
  }

  /** The two-line file `LD V0, 0x05`, `ADD V0, 0x03` assembles to the bytes `60 05 70 03`. */
  lemma LoadAddAssembles(lines: seq<string>)
    requires lines == ["LD V0, 0x05", "ADD V0, 0x03"]
    ensures Assembled(lines) == Ok([0x60, 0x05, 0x70, 0x03])
  {
    LoadFive(lines[0], map[], 0x200);
    AddThree(lines[1], map[], 0x202);
    LoadAddBytes(lines[0], lines[1]);
    assert [lines[0], lines[1]] == lines;
  }

  /**
   * Assembled and run, the same file halts after its second instruction
   * with 8 in V0 and no carry in VF.
   */
  lemma AssembleThenRun(lines: seq<string>, random: nat -> u8, fuel: nat)
    requires lines == ["LD V0, 0x05", "ADD V0, 0x03"] && fuel >= 2
    ensures Assembled(lines).Ok?
    ensures var r := Chip8.RunInstructions(Assembled(lines).value, random, fuel);
      r.Halted? && r.state.registers[0] == 8 && r.state.registers[Chip8.VF] == 0
  {
    LoadAddAssembles(lines);
    Chip8Properties.LoadThenAdd(random, fuel);
  }
}
