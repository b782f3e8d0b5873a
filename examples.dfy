/**
 * The examples of `test_parse_asm_line` (`src/assembler.rs`, lines 335-385):
 * each line of assembly with the opcode `parse_asm_line` gives for it at
 * position 0x200, whatever labels are already known.
 */
module AssemblerExamples {
  import opened Wrappers
  import opened Words
  import opened Text
  import opened Assembler
  import opened Encoding
  import opened EncodingLines
  import opened AssemblerProperties

  /** `SYS 0xFE9` is `0x0FE9` (line 341). */
  lemma SysLine(line: string, labels: Labels)
    requires line == "SYS 0xFE9"
    ensures ParseAsmLine(line, labels, 0x200) == Parse(Opcode(0x0FE9), labels)
  {
    assert ParseAsmLine(line, labels, 0x200) == Parse(Opcode(Word(0x0, Nibble('F'), Nibble('E'), Nibble('9'))), labels) by {
      AddressLine(line, "SYS", 'F', 'E', '9', labels, 0x200);
      EncodeSystem('F', 'E', '9', labels, 0x200);
    }
    assert Word(0x0, Nibble('F'), Nibble('E'), Nibble('9')) == 0x0FE9 by {
      assert Nibble('9') == 9 && Nibble('E') == 14 && Nibble('F') == 15;
    }
  }

  /** `CLS` is `0x00E0` (line 342). */
  lemma ClsLine(line: string, labels: Labels)
    requires line == "CLS"
    ensures ParseAsmLine(line, labels, 0x200) == Parse(Opcode(0x00E0), labels)
  {
    BareLine(line, labels, 0x200);
    EncodeClear(labels, 0x200);
  }

  /** `RET` is `0x00EE` (line 343). */
  lemma RetLine(line: string, labels: Labels)
    requires line == "RET"
    ensures ParseAsmLine(line, labels, 0x200) == Parse(Opcode(0x00EE), labels)
  {
    BareLine(line, labels, 0x200);
    EncodeReturn(labels, 0x200);
  }

  /** `JP 0xE13` is `0x1E13` (line 344). */
  lemma JpLine(line: string, labels: Labels)
    requires line == "JP 0xE13"
    ensures ParseAsmLine(line, labels, 0x200) == Parse(Opcode(0x1E13), labels)
  {
    assert ParseAsmLine(line, labels, 0x200) == Parse(Opcode(Word(0x1, Nibble('E'), Nibble('1'), Nibble('3'))), labels) by {
      AddressLine(line, "JP", 'E', '1', '3', labels, 0x200);
      EncodeJump('E', '1', '3', labels, 0x200);
    }
    assert Word(0x1, Nibble('E'), Nibble('1'), Nibble('3')) == 0x1E13 by {
      assert Nibble('1') == 1 && Nibble('3') == 3 && Nibble('E') == 14;
    }
  }

  /** `CALL 0x5C1` is `0x25C1` (line 345). */
  lemma CallLine(line: string, labels: Labels)
    requires line == "CALL 0x5C1"
    ensures ParseAsmLine(line, labels, 0x200) == Parse(Opcode(0x25C1), labels)
  {
    assert ParseAsmLine(line, labels, 0x200) == Parse(Opcode(Word(0x2, Nibble('5'), Nibble('C'), Nibble('1'))), labels) by {
      AddressLine(line, "CALL", '5', 'C', '1', labels, 0x200);
      EncodeCall('5', 'C', '1', labels, 0x200);
    }
    assert Word(0x2, Nibble('5'), Nibble('C'), Nibble('1')) == 0x25C1 by {
      assert Nibble('1') == 1 && Nibble('5') == 5 && Nibble('C') == 12;
    }
  }

  /** `SE V5, 0xFE` is `0x35FE` (line 346). */
  lemma SeByteLine(line: string, labels: Labels)
    requires line == "SE V5, 0xFE"
    ensures ParseAsmLine(line, labels, 0x200) == Parse(Opcode(0x35FE), labels)
  {
    assert ParseAsmLine(line, labels, 0x200) == Parse(Opcode(Word(0x3, Nibble('5'), Nibble('F'), Nibble('E'))), labels) by {
      ByteLine(line, "SE", '5', "FE", labels, 0x200);
      EncodeSkipEqualByte('5', 'F', 'E', labels, 0x200);
    }
    assert Word(0x3, Nibble('5'), Nibble('F'), Nibble('E')) == 0x35FE by {
      assert Nibble('5') == 5 && Nibble('E') == 14 && Nibble('F') == 15;
    }
  }

  /** `SNE VC, 0xD1` is `0x4CD1` (line 347). */
  lemma SneByteLine(line: string, labels: Labels)
    requires line == "SNE VC, 0xD1"
    ensures ParseAsmLine(line, labels, 0x200) == Parse(Opcode(0x4CD1), labels)
  {
    assert ParseAsmLine(line, labels, 0x200) == Parse(Opcode(Word(0x4, Nibble('C'), Nibble('D'), Nibble('1'))), labels) by {
      ByteLine(line, "SNE", 'C', "D1", labels, 0x200);
      EncodeSkipNotEqualByte('C', 'D', '1', labels, 0x200);
    }
    assert Word(0x4, Nibble('C'), Nibble('D'), Nibble('1')) == 0x4CD1 by {
      assert Nibble('1') == 1 && Nibble('C') == 12 && Nibble('D') == 13;
    }
  }

  /** `SE V1, VF` is `0x51F0` (line 348). */
  lemma SeRegisterLine(line: string, labels: Labels)
    requires line == "SE V1, VF"
    ensures ParseAsmLine(line, labels, 0x200) == Parse(Opcode(0x51F0), labels)
  {
    assert ParseAsmLine(line, labels, 0x200) == Parse(Opcode(Word(0x5, Nibble('1'), Nibble('F'), 0x0)), labels) by {
      PairLine(line, "SE", '1', ",", 'F', labels, 0x200);
      EncodeSkipEqualRegisters('1', ",", 'F', labels, 0x200);
    }
    assert Word(0x5, Nibble('1'), Nibble('F'), 0x0) == 0x51F0 by {
      assert Nibble('1') == 1 && Nibble('F') == 15;
    }
  }

  /** `LD VD, 0x92` is `0x6D92` (line 349). */
  lemma LdByteLine(line: string, labels: Labels)
    requires line == "LD VD, 0x92"
    ensures ParseAsmLine(line, labels, 0x200) == Parse(Opcode(0x6D92), labels)
  {
    assert ParseAsmLine(line, labels, 0x200) == Parse(Opcode(Word(0x6, Nibble('D'), Nibble('9'), Nibble('2'))), labels) by {
      ByteLine(line, "LD", 'D', "92", labels, 0x200);
      EncodeLoadByte('D', '9', '2', labels, 0x200);
    }
    assert Word(0x6, Nibble('D'), Nibble('9'), Nibble('2')) == 0x6D92 by {
      assert Nibble('2') == 2 && Nibble('9') == 9 && Nibble('D') == 13;
    }
  }

  /** `ADD V0, 0xFF` is `0x70FF` (line 350). */
  lemma AddByteLine(line: string, labels: Labels)
    requires line == "ADD V0, 0xFF"
    ensures ParseAsmLine(line, labels, 0x200) == Parse(Opcode(0x70FF), labels)
  {
    assert ParseAsmLine(line, labels, 0x200) == Parse(Opcode(Word(0x7, Nibble('0'), Nibble('F'), Nibble('F'))), labels) by {
      ByteLine(line, "ADD", '0', "FF", labels, 0x200);
      EncodeAddByte('0', 'F', 'F', labels, 0x200);
    }
    assert Word(0x7, Nibble('0'), Nibble('F'), Nibble('F')) == 0x70FF by {
      assert Nibble('0') == 0 && Nibble('F') == 15;
    }
  }

  /** `LD V0, V3` is `0x8030` (line 351). */
  lemma LdRegisterLine(line: string, labels: Labels)
    requires line == "LD V0, V3"
    ensures ParseAsmLine(line, labels, 0x200) == Parse(Opcode(0x8030), labels)
  {
    assert ParseAsmLine(line, labels, 0x200) == Parse(Opcode(Word(0x8, Nibble('0'), Nibble('3'), 0x0)), labels) by {
      PairLine(line, "LD", '0', ",", '3', labels, 0x200);
      EncodeLoadRegister('0', ",", '3', labels, 0x200);
    }
    assert Word(0x8, Nibble('0'), Nibble('3'), 0x0) == 0x8030 by {
      assert Nibble('0') == 0 && Nibble('3') == 3;
    }
  }

  /** `OR V1, V2` is `0x8121` (line 352). */
  lemma OrLine(line: string, labels: Labels)
    requires line == "OR V1, V2"
    ensures ParseAsmLine(line, labels, 0x200) == Parse(Opcode(0x8121), labels)
  {
    assert ParseAsmLine(line, labels, 0x200) == Parse(Opcode(Word(0x8, Nibble('1'), Nibble('2'), 0x1)), labels) by {
      PairLine(line, "OR", '1', ",", '2', labels, 0x200);
      EncodeOr('1', ",", '2', labels, 0x200);
    }
    assert Word(0x8, Nibble('1'), Nibble('2'), 0x1) == 0x8121 by {
      assert Nibble('1') == 1 && Nibble('2') == 2;
    }
  }

  /** `AND V5, V1` is `0x8512` (line 353). */
  lemma AndLine(line: string, labels: Labels)
    requires line == "AND V5, V1"
    ensures ParseAsmLine(line, labels, 0x200) == Parse(Opcode(0x8512), labels)
  {
    assert ParseAsmLine(line, labels, 0x200) == Parse(Opcode(Word(0x8, Nibble('5'), Nibble('1'), 0x2)), labels) by {
      PairLine(line, "AND", '5', ",", '1', labels, 0x200);
      EncodeAnd('5', ",", '1', labels, 0x200);
    }
    assert Word(0x8, Nibble('5'), Nibble('1'), 0x2) == 0x8512 by {
      assert Nibble('1') == 1 && Nibble('5') == 5;
    }
  }

  /** `XOR V2, VA` is `0x82A3` (line 354). */
  lemma XorLine(line: string, labels: Labels)
    requires line == "XOR V2, VA"
    ensures ParseAsmLine(line, labels, 0x200) == Parse(Opcode(0x82A3), labels)
  {
    assert ParseAsmLine(line, labels, 0x200) == Parse(Opcode(Word(0x8, Nibble('2'), Nibble('A'), 0x3)), labels) by {
      PairLine(line, "XOR", '2', ",", 'A', labels, 0x200);
      EncodeXor('2', ",", 'A', labels, 0x200);
    }
    assert Word(0x8, Nibble('2'), Nibble('A'), 0x3) == 0x82A3 by {
      assert Nibble('2') == 2 && Nibble('A') == 10;
    }
  }

  /** `ADD VC, VF` is `0x8CF4` (line 355). */
  lemma AddRegisterLine(line: string, labels: Labels)
    requires line == "ADD VC, VF"
    ensures ParseAsmLine(line, labels, 0x200) == Parse(Opcode(0x8CF4), labels)
  {
    assert ParseAsmLine(line, labels, 0x200) == Parse(Opcode(Word(0x8, Nibble('C'), Nibble('F'), 0x4)), labels) by {
      PairLine(line, "ADD", 'C', ",", 'F', labels, 0x200);
      EncodeAddRegisters('C', ",", 'F', labels, 0x200);
    }
    assert Word(0x8, Nibble('C'), Nibble('F'), 0x4) == 0x8CF4 by {
      assert Nibble('C') == 12 && Nibble('F') == 15;
    }
  }

  /** `SUB V0, V8` is `0x8085` (line 356). */
  lemma SubLine(line: string, labels: Labels)
    requires line == "SUB V0, V8"
    ensures ParseAsmLine(line, labels, 0x200) == Parse(Opcode(0x8085), labels)
  {
    assert ParseAsmLine(line, labels, 0x200) == Parse(Opcode(Word(0x8, Nibble('0'), Nibble('8'), 0x5)), labels) by {
      PairLine(line, "SUB", '0', ",", '8', labels, 0x200);
      EncodeSub('0', ",", '8', labels, 0x200);
    }
    assert Word(0x8, Nibble('0'), Nibble('8'), 0x5) == 0x8085 by {
      assert Nibble('0') == 0 && Nibble('8') == 8;
    }
  }

  /** `SHR V1` is `0x8106` (line 357). */
  lemma ShrLine(line: string, labels: Labels)
    requires line == "SHR V1"
    ensures ParseAsmLine(line, labels, 0x200) == Parse(Opcode(0x8106), labels)
  {
    assert ParseAsmLine(line, labels, 0x200) == Parse(Opcode(Word(0x8, Nibble('1'), 0x0, 0x6)), labels) by {
      SingleLine(line, "SHR", '1', labels, 0x200);
      EncodeShiftRight('1', labels, 0x200);
    }
    assert Word(0x8, Nibble('1'), 0x0, 0x6) == 0x8106 by {
      assert Nibble('1') == 1;
    }
  }

  /** `SHR V1 VC` is `0x81C6` (line 358). */
  lemma ShrPairLine(line: string, labels: Labels)
    requires line == "SHR V1 VC"
    ensures ParseAsmLine(line, labels, 0x200) == Parse(Opcode(0x81C6), labels)
  {
    assert ParseAsmLine(line, labels, 0x200) == Parse(Opcode(Word(0x8, Nibble('1'), Nibble('C'), 0x6)), labels) by {
      PairLine(line, "SHR", '1', "", 'C', labels, 0x200);
      EncodeShiftRightPair('1', "", 'C', labels, 0x200);
    }
    assert Word(0x8, Nibble('1'), Nibble('C'), 0x6) == 0x81C6 by {
      assert Nibble('1') == 1 && Nibble('C') == 12;
    }
  }

  /** `SUBN VA, V6` is `0x8A67` (line 359). */
  lemma SubnLine(line: string, labels: Labels)
    requires line == "SUBN VA, V6"
    ensures ParseAsmLine(line, labels, 0x200) == Parse(Opcode(0x8A67), labels)
  {
    assert ParseAsmLine(line, labels, 0x200) == Parse(Opcode(Word(0x8, Nibble('A'), Nibble('6'), 0x7)), labels) by {
      PairLine(line, "SUBN", 'A', ",", '6', labels, 0x200);
      EncodeSubN('A', ",", '6', labels, 0x200);
    }
    assert Word(0x8, Nibble('A'), Nibble('6'), 0x7) == 0x8A67 by {
      assert Nibble('6') == 6 && Nibble('A') == 10;
    }
  }

  /** `SHL V2` is `0x820E` (line 360). */
  lemma ShlLine(line: string, labels: Labels)
    requires line == "SHL V2"
    ensures ParseAsmLine(line, labels, 0x200) == Parse(Opcode(0x820E), labels)
  {
    assert ParseAsmLine(line, labels, 0x200) == Parse(Opcode(Word(0x8, Nibble('2'), 0x0, 0xE)), labels) by {
      SingleLine(line, "SHL", '2', labels, 0x200);
      EncodeShiftLeft('2', labels, 0x200);
    }
    assert Word(0x8, Nibble('2'), 0x0, 0xE) == 0x820E by {
      assert Nibble('2') == 2;
    }
  }

  /** `SHL V2 V1` is `0x821E` (line 361). */
  lemma ShlPairLine(line: string, labels: Labels)
    requires line == "SHL V2 V1"
    ensures ParseAsmLine(line, labels, 0x200) == Parse(Opcode(0x821E), labels)
  {
    assert ParseAsmLine(line, labels, 0x200) == Parse(Opcode(Word(0x8, Nibble('2'), Nibble('1'), 0xE)), labels) by {
      PairLine(line, "SHL", '2', "", '1', labels, 0x200);
      EncodeShiftLeftPair('2', "", '1', labels, 0x200);
    }
    assert Word(0x8, Nibble('2'), Nibble('1'), 0xE) == 0x821E by {
      assert Nibble('1') == 1 && Nibble('2') == 2;
    }
  }

  /** `SNE V0, VE` is `0x90E0` (line 362). */
  lemma SneRegisterLine(line: string, labels: Labels)
    requires line == "SNE V0, VE"
    ensures ParseAsmLine(line, labels, 0x200) == Parse(Opcode(0x90E0), labels)
  {
    assert ParseAsmLine(line, labels, 0x200) == Parse(Opcode(Word(0x9, Nibble('0'), Nibble('E'), 0x0)), labels) by {
      PairLine(line, "SNE", '0', ",", 'E', labels, 0x200);
      EncodeSkipNotEqualRegisters('0', ",", 'E', labels, 0x200);
    }
    assert Word(0x9, Nibble('0'), Nibble('E'), 0x0) == 0x90E0 by {
      assert Nibble('0') == 0 && Nibble('E') == 14;
    }
  }

  /** `LD I, 0x46E` is `0xA46E` (line 363). */
  lemma LdIndexLine(line: string, labels: Labels)
    requires line == "LD I, 0x46E"
    ensures ParseAsmLine(line, labels, 0x200) == Parse(Opcode(0xA46E), labels)
  {
    assert ParseAsmLine(line, labels, 0x200) == Parse(Opcode(Word(0xA, Nibble('4'), Nibble('6'), Nibble('E'))), labels) by {
      SecondAddressLine(line, "LD", "I,", '4', '6', 'E', labels, 0x200);
      EncodeLoadIndex('4', '6', 'E', labels, 0x200);
    }
    assert Word(0xA, Nibble('4'), Nibble('6'), Nibble('E')) == 0xA46E by {
      assert Nibble('4') == 4 && Nibble('6') == 6 && Nibble('E') == 14;
    }
  }

  /** `JP V0, 0xF12` is `0xBF12` (line 364). */
  lemma JpOffsetLine(line: string, labels: Labels)
    requires line == "JP V0, 0xF12"
    ensures ParseAsmLine(line, labels, 0x200) == Parse(Opcode(0xBF12), labels)
  {
    assert ParseAsmLine(line, labels, 0x200) == Parse(Opcode(Word(0xB, Nibble('F'), Nibble('1'), Nibble('2'))), labels) by {
      ByteLine(line, "JP", '0', "F12", labels, 0x200);
      EncodeJumpOffset('0', 'F', '1', '2', labels, 0x200);
    }
    assert Word(0xB, Nibble('F'), Nibble('1'), Nibble('2')) == 0xBF12 by {
      assert Nibble('1') == 1 && Nibble('2') == 2 && Nibble('F') == 15;
    }
  }

  /** `RND V4, 0xBC` is `0xC4BC` (line 365). */
  lemma RndLine(line: string, labels: Labels)
    requires line == "RND V4, 0xBC"
    ensures ParseAsmLine(line, labels, 0x200) == Parse(Opcode(0xC4BC), labels)
  {
    assert ParseAsmLine(line, labels, 0x200) == Parse(Opcode(Word(0xC, Nibble('4'), Nibble('B'), Nibble('C'))), labels) by {
      ByteLine(line, "RND", '4', "BC", labels, 0x200);
      EncodeRandomByte('4', 'B', 'C', labels, 0x200);
    }
    assert Word(0xC, Nibble('4'), Nibble('B'), Nibble('C')) == 0xC4BC by {
      assert Nibble('4') == 4 && Nibble('B') == 11 && Nibble('C') == 12;
    }
  }

  /** `DRW V5, VF, 0xC` is `0xD5FC` (line 366). */
  lemma DrwLine(line: string, labels: Labels)
    requires line == "DRW V5, VF, 0xC"
    ensures ParseAsmLine(line, labels, 0x200) == Parse(Opcode(0xD5FC), labels)
  {
    assert ParseAsmLine(line, labels, 0x200) == Parse(Opcode(Word(0xD, Nibble('5'), Nibble('F'), Nibble('C'))), labels) by {
      DrawLine(line, '5', 'F', 'C', labels, 0x200);
      EncodeDraw('5', 'F', 'C', labels, 0x200);
    }
    assert Word(0xD, Nibble('5'), Nibble('F'), Nibble('C')) == 0xD5FC by {
      assert Nibble('5') == 5 && Nibble('C') == 12 && Nibble('F') == 15;
    }
  }

  /** `SKP V5` is `0xE59E` (line 367). */
  lemma SkpLine(line: string, labels: Labels)
    requires line == "SKP V5"
    ensures ParseAsmLine(line, labels, 0x200) == Parse(Opcode(0xE59E), labels)
  {
    assert ParseAsmLine(line, labels, 0x200) == Parse(Opcode(Word(0xE, Nibble('5'), 0x9, 0xE)), labels) by {
      SingleLine(line, "SKP", '5', labels, 0x200);
      EncodeSkipPressed('5', labels, 0x200);
    }
    assert Word(0xE, Nibble('5'), 0x9, 0xE) == 0xE59E by {
      assert Nibble('5') == 5;
    }
  }

  /** `SKNP VF` is `0xEFA1` (line 368). */
  lemma SknpLine(line: string, labels: Labels)
    requires line == "SKNP VF"
    ensures ParseAsmLine(line, labels, 0x200) == Parse(Opcode(0xEFA1), labels)
  {
    assert ParseAsmLine(line, labels, 0x200) == Parse(Opcode(Word(0xE, Nibble('F'), 0xA, 0x1)), labels) by {
      SingleLine(line, "SKNP", 'F', labels, 0x200);
      EncodeSkipNotPressed('F', labels, 0x200);
    }
    assert Word(0xE, Nibble('F'), 0xA, 0x1) == 0xEFA1 by {
      assert Nibble('F') == 15;
    }
  }

  /** `LD VA, DT` is `0xFA07` (line 369). */
  lemma LdFromDelayLine(line: string, labels: Labels)
    requires line == "LD VA, DT"
    ensures ParseAsmLine(line, labels, 0x200) == Parse(Opcode(0xFA07), labels)
  {
    assert ParseAsmLine(line, labels, 0x200) == Parse(Opcode(Word(0xF, Nibble('A'), 0x0, 0x7)), labels) by {
      SourceLine(line, 'A', "DT", labels, 0x200);
      EncodeLoadFromDelay('A', labels, 0x200);
    }
    assert Word(0xF, Nibble('A'), 0x0, 0x7) == 0xFA07 by {
      assert Nibble('A') == 10;
    }
  }

  /** `LD VA, K` is `0xFA0A` (line 370). */
  lemma LdKeyLine(line: string, labels: Labels)
    requires line == "LD VA, K"
    ensures ParseAsmLine(line, labels, 0x200) == Parse(Opcode(0xFA0A), labels)
  {
    assert ParseAsmLine(line, labels, 0x200) == Parse(Opcode(Word(0xF, Nibble('A'), 0x0, 0xA)), labels) by {
      SourceLine(line, 'A', "K", labels, 0x200);
      EncodeLoadKey('A', labels, 0x200);
    }
    assert Word(0xF, Nibble('A'), 0x0, 0xA) == 0xFA0A by {
      assert Nibble('A') == 10;
    }
  }

  /** `LD DT, V4` is `0xF415` (line 371). */
  lemma LdDelayLine(line: string, labels: Labels)
    requires line == "LD DT, V4"
    ensures ParseAsmLine(line, labels, 0x200) == Parse(Opcode(0xF415), labels)
  {
    assert ParseAsmLine(line, labels, 0x200) == Parse(Opcode(Word(0xF, Nibble('4'), 0x1, 0x5)), labels) by {
      TargetLine(line, "LD", "DT,", '4', labels, 0x200);
      EncodeLoadDelay('4', labels, 0x200);
    }
    assert Word(0xF, Nibble('4'), 0x1, 0x5) == 0xF415 by {
      assert Nibble('4') == 4;
    }
  }

  /** `LD ST, V4` is `0xF418` (line 372). */
  lemma LdSoundLine(line: string, labels: Labels)
    requires line == "LD ST, V4"
    ensures ParseAsmLine(line, labels, 0x200) == Parse(Opcode(0xF418), labels)
  {
    assert ParseAsmLine(line, labels, 0x200) == Parse(Opcode(Word(0xF, Nibble('4'), 0x1, 0x8)), labels) by {
      TargetLine(line, "LD", "ST,", '4', labels, 0x200);
      EncodeLoadSound('4', labels, 0x200);
    }
    assert Word(0xF, Nibble('4'), 0x1, 0x8) == 0xF418 by {
      assert Nibble('4') == 4;
    }
  }

  /** `ADD I, VF` is `0xFF1E` (line 373). */
  lemma AddIndexLine(line: string, labels: Labels)
    requires line == "ADD I, VF"
    ensures ParseAsmLine(line, labels, 0x200) == Parse(Opcode(0xFF1E), labels)
  {
    assert ParseAsmLine(line, labels, 0x200) == Parse(Opcode(Word(0xF, Nibble('F'), 0x1, 0xE)), labels) by {
      TargetLine(line, "ADD", "I,", 'F', labels, 0x200);
      EncodeAddIndex('F', labels, 0x200);
    }
    assert Word(0xF, Nibble('F'), 0x1, 0xE) == 0xFF1E by {
      assert Nibble('F') == 15;
    }
  }

  /** `LD F, VC` is `0xFC29` (line 374). */
  lemma LdSpriteLine(line: string, labels: Labels)
    requires line == "LD F, VC"
    ensures ParseAsmLine(line, labels, 0x200) == Parse(Opcode(0xFC29), labels)
  {
    assert ParseAsmLine(line, labels, 0x200) == Parse(Opcode(Word(0xF, Nibble('C'), 0x2, 0x9)), labels) by {
      TargetLine(line, "LD", "F,", 'C', labels, 0x200);
      EncodeLoadSprite('C', labels, 0x200);
    }
    assert Word(0xF, Nibble('C'), 0x2, 0x9) == 0xFC29 by {
      assert Nibble('C') == 12;
    }
  }

  /** `LD B, VB` is `0xFB33` (line 375). */
  lemma LdDecimalLine(line: string, labels: Labels)
    requires line == "LD B, VB"
    ensures ParseAsmLine(line, labels, 0x200) == Parse(Opcode(0xFB33), labels)
  {
    assert ParseAsmLine(line, labels, 0x200) == Parse(Opcode(Word(0xF, Nibble('B'), 0x3, 0x3)), labels) by {
      TargetLine(line, "LD", "B,", 'B', labels, 0x200);
      EncodeLoadDecimal('B', labels, 0x200);
    }
    assert Word(0xF, Nibble('B'), 0x3, 0x3) == 0xFB33 by {
      assert Nibble('B') == 11;
    }
  }

  /** `LD I, VD` is `0xFD55` (line 376). */
  lemma LdStoreLine(line: string, labels: Labels)
    requires line == "LD I, VD"
    ensures ParseAsmLine(line, labels, 0x200) == Parse(Opcode(0xFD55), labels)
  {
    assert ParseAsmLine(line, labels, 0x200) == Parse(Opcode(Word(0xF, Nibble('D'), 0x5, 0x5)), labels) by {
      TargetLine(line, "LD", "I,", 'D', labels, 0x200);
      EncodeStoreRegisters('D', labels, 0x200);
    }
    assert Word(0xF, Nibble('D'), 0x5, 0x5) == 0xFD55 by {
      assert Nibble('D') == 13;
    }
  }

  /** `LD VC, I` is `0xFC65` (line 377). */
  lemma LdRestoreLine(line: string, labels: Labels)
    requires line == "LD VC, I"
    ensures ParseAsmLine(line, labels, 0x200) == Parse(Opcode(0xFC65), labels)
  {
    assert ParseAsmLine(line, labels, 0x200) == Parse(Opcode(Word(0xF, Nibble('C'), 0x6, 0x5)), labels) by {
      SourceLine(line, 'C', "I", labels, 0x200);
      EncodeLoadRegisters('C', labels, 0x200);
    }
    assert Word(0xF, Nibble('C'), 0x6, 0x5) == 0xFC65 by {
      assert Nibble('C') == 12;
    }
  }

  /** `LD V0, 5`, a decimal byte, is `0x6005`: `5` is rewritten as the hexadecimal `05`. */
  lemma LdDecimalByteLine(line: string, labels: Labels)
    requires line == "LD V0, 5"
    ensures ParseAsmLine(line, labels, 0x200) == Parse(Opcode(0x6005), labels)
  {
    assert ParseU16("5", 10) == Some(5) by {
      assert "5"[..0] == [];
    }
    assert Decimal("5");
    assert ParseAsmLine(line, labels, 0x200) == Parse(Opcode(Word(0x6, Nibble('0'), 0, 5)), labels) by {
      DecimalByteLine(line, "LD", '0', "5", labels, 0x200);
      EncodeLoadDecimalByte('0', "5", 5, labels, 0x200);
    }
  }

  /** `JP 0x12`, a two-digit address, is `0x1012`: the address is zero-padded to `012`. */
  lemma JpShortLine(line: string, labels: Labels)
    requires line == "JP 0x12"
    ensures ParseAsmLine(line, labels, 0x200) == Parse(Opcode(0x1012), labels)
  {
    assert ParseAsmLine(line, labels, 0x200) == Parse(Opcode(Word(0x1, 0x0, Nibble('1'), Nibble('2'))), labels) by {
      ShortAddressLine(line, "JP", "12", labels, 0x200);
      EncodeJumpTwoDigits('1', '2', labels, 0x200);
    }
    assert Nibble('1') == 1 && Nibble('2') == 2;
  }

  /** `LD VA, 0x2` is `0x6A02` (line 380). */
  lemma LdShortByteLine(line: string, labels: Labels)
    requires line == "LD VA, 0x2"
    ensures ParseAsmLine(line, labels, 0x200) == Parse(Opcode(0x6A02), labels)
  {
    assert ParseAsmLine(line, labels, 0x200) == Parse(Opcode(Word(0x6, Nibble('A'), 0x0, Nibble('2'))), labels) by {
      ByteLine(line, "LD", 'A', "2", labels, 0x200);
      EncodeLoadShortByte('A', '2', labels, 0x200);
    }
    assert Word(0x6, Nibble('A'), 0x0, Nibble('2')) == 0x6A02 by {
      assert Nibble('2') == 2 && Nibble('A') == 10;
    }
  }

  /** `CLS ; some comments` is `0x00E0`: the comment and the space before it are dropped (line 381). */
  lemma ClsCommentLine(line: string, labels: Labels)
    requires line == "CLS ; some comments"
    ensures ParseAsmLine(line, labels, 0x200) == Parse(Opcode(0x00E0), labels)
  {
    var text := "CLS ";
    assert ParseAsmLine(line, labels, 0x200) == ParseAsmLine(text, labels, 0x200) by {
      assert line == text + ";" + " some comments";
      CommentIgnored(text, " some comments", labels, 0x200);
    }
    ClsTrailingSpace(text, labels, 0x200);
    EncodeClear(labels, 0x200);
  }

  /** The space left before a comment is trimmed away. */
  lemma ClsTrailingSpace(text: string, labels: Labels, position: u16)
    requires text == "CLS "
    ensures ParseAsmLine(text, labels, position) == ParseTokens(["CLS"], labels, position)
  {
    assert text == seq(0, _ => ' ') + Join(["CLS"], ' ') + seq(1, _ => ' ');
    assert Plain(["CLS"]);
    SpacesIgnored(["CLS"], 0, 1, labels, position);
  }

  /** `;LD VA, 0x2` has no opcode and leaves the labels alone (line 382). */
  lemma CommentedOutLine(line: string, labels: Labels)
    requires line == ";LD VA, 0x2"
    ensures ParseAsmLine(line, labels, 0x200) == Parse(Failed(NoOpcode), labels)
  {
    assert line == ";" + "LD VA, 0x2";
    CommentOnly("LD VA, 0x2", labels, 0x200);
  }

  /** `some_label:` has no opcode and binds `some_label` to 0x200 (line 383). */
  lemma SomeLabelLine(line: string, labels: Labels)
    requires line == "some_label:"
    ensures ParseAsmLine(line, labels, 0x200) == Parse(Failed(NoOpcode), labels["some_label" := 0x200])
  {
    assert line == "some_label" + ":";
    LabelDefinition("some_label", labels, 0x200);
  }
}
