/**
 * What `parse_asm_line` and `assemble` promise beyond the opcode table: how
 * comments, surrounding spaces, label definitions and label references are
 * read, and where pass 1 places each line and pass 2 writes its bytes.
 */
module AssemblerProperties {
  import opened Wrappers
  import opened Words
  import opened Text
  import opened Assembler
  import opened Encoding

  // ---------------------------------------------------------------------------
  // One line
  // ---------------------------------------------------------------------------

  /** Everything from the first `;` on is ignored (lines 75-79). */
  lemma CommentIgnored(text: string, comment: string, labels: Labels, position: u16)
    requires ';' !in text
    ensures ParseAsmLine(text + ";" + comment, labels, position) == ParseAsmLine(text, labels, position)
  {
    CommentStripped(text, comment);
  }

  /** The comment-free text of `text;comment` is `text`. */
  lemma CommentStripped(text: string, comment: string)
    requires ';' !in text
    ensures StripComment(text + ";" + comment) == StripComment(text) == text
  {
    var line := text + ";" + comment;
    assert line[|text|] == ';';
    assert line[..|text|] == text;
  }

  /** A line that is empty once its comment is gone is no instruction, and the labels stay as they are (lines 81-84). */
  lemma CommentOnly(comment: string, labels: Labels, position: u16)
    ensures ParseAsmLine(";" + comment, labels, position) == Parse(Failed(NoOpcode), labels)
  {
    assert Find(";" + comment, ';') == Some(0);
  }

  /** Spaces before and after the tokens are trimmed (lines 86-90). */
  lemma SpacesIgnored(parts: seq<string>, before: nat, after: nat, labels: Labels, position: u16)
    requires Plain(parts)
    ensures ParseAsmLine(seq(before, _ => ' ') + Join(parts, ' ') + seq(after, _ => ' '), labels, position)
      == ParseTokens(parts, labels, position)
  {
    var j := Join(parts, ' ');
    var line := seq(before, _ => ' ') + j + seq(after, _ => ' ');
    JoinExcludes(parts, ' ', ';');
    assert ';' !in line;
    JoinStarts(parts, ' ');
    JoinEnds(parts, ' ');
    var first, last := parts[0], parts[|parts| - 1];
    assert j[0] == first[0] && j[|j| - 1] == last[|last| - 1];
    assert first[0] in first && last[|last| - 1] in last;
    assert line == seq(before, _ => ' ') + (j + seq(after, _ => ' '));
    TrimStartRun(before, ' ', j + seq(after, _ => ' '));
    TrimEndRun(j, after, ' ');
    SplitJoin(parts, ' ');
  }

  /**
   * A token ending in `:` defines the label before the colon at the line's own
   * position, and the line has no opcode (lines 129-137).
   */
  lemma LabelDefinition(name: string, labels: Labels, position: u16)
    requires ' ' !in name && ';' !in name
    ensures ParseAsmLine(name + ":", labels, position) == Parse(Failed(NoOpcode), labels[name := position])
  {
    var t := name + ":";
    assert ' ' !in t && ';' !in t;
    assert Plain([t]);
    assert Join([t], ' ') == t;
    ParseLine([t], labels, position);
    assert t[..|t| - 1] == name;
    assert EndsWith(t, ":") by {
      assert t[|t| - 1..] == ":";
    }
  }

  /**
   * A lone operand that is neither a register, nor a `0x` literal, nor a known
   * label gives `Incomplete` whatever the mnemonic, and the labels stay as they
   * are (lines 112-116).
   */
  lemma UnknownLabelIncomplete(mnemonic: string, target: string, labels: Labels, position: u16)
    requires mnemonic != [] && ' ' !in mnemonic && ';' !in mnemonic
    requires target != [] && ' ' !in target && ';' !in target
    requires target[0] != 'V' && !StartsWith(target, "0x") && target !in labels
    ensures ParseAsmLine(mnemonic + " " + target, labels, position) == Parse(Failed(Incomplete), labels)
  {
    PlainTwo(mnemonic, target);
    JoinTwo(mnemonic, target, ' ');
    ParseLine([mnemonic, target], labels, position);
    HeadDiffers(target, "V");
  }

  /** A digit worth `high` in front of a label's three hexadecimal digits makes the opcode `high * 0x1000 + position`. */
  lemma AddressDigits(d: char, high: nat, v: nat)
    requires high < 16 && DigitValue(d, 16) == Some(high) && d != '+' && 0x100 <= v < 0x1000
    ensures ParseU16([d] + LowerHex(v), 16) == Some(high * 0x1000 + v)
  {
    var h := LowerHex(v);
    LowerHexThreeDigits(v);
    LowerHexRoundTrip(v);
    DigitsValueSnoc([], d, 16);
    assert [] + [d] == [d];
    DigitsValueAppend([d], h, 16);
    assert Pow(16, |h|) == 0x1000;
    assert ([d] + h)[0] == d;
  }

  /**
   * `JP`, `CALL` and `SYS` with a known label between 0x100 and 0xFFF take the
   * label's position as their address (lines 313-317).
   */
  lemma KnownLabelAddress(mnemonic: string, high: nat, target: string, labels: Labels, position: u16)
    requires (mnemonic == "SYS" && high == 0) || (mnemonic == "JP" && high == 1) || (mnemonic == "CALL" && high == 2)
    requires target != [] && ' ' !in target && ';' !in target
    requires target[0] != 'V' && !StartsWith(target, "0x") && target in labels
    requires 0x100 <= labels[target] < 0x1000
    ensures ParseAsmLine(mnemonic + " " + target, labels, position) == Parse(Opcode(high * 0x1000 + labels[target]), labels)
  {
    var parts := [mnemonic, target];
    assert ParseAsmLine(mnemonic + " " + target, labels, position) == ParseTokens(parts, labels, position) by {
      PlainTwo(mnemonic, target);
      JoinTwo(mnemonic, target, ' ');
      ParseLine(parts, labels, position);
    }
    LabelTokens(mnemonic, high, target, labels, position);
  }

  lemma LabelTokens(mnemonic: string, high: nat, target: string, labels: Labels, position: u16)
    requires (mnemonic == "SYS" && high == 0) || (mnemonic == "JP" && high == 1) || (mnemonic == "CALL" && high == 2)
    requires target != [] && target[0] != 'V' && !StartsWith(target, "0x") && target in labels
    requires 0x100 <= labels[target] < 0x1000
    ensures ParseTokens([mnemonic, target], labels, position) == Parse(Opcode(high * 0x1000 + labels[target]), labels)
  {
    var parts := [mnemonic, target];
    assert RegisterOperand(parts, 1) == "" by {
      HeadDiffers(target, "V");
    }
    var h := LowerHex(labels[target]);
    assert !EndsWith(mnemonic, ":") by {
      LastDiffers(mnemonic, ":");
    }
    LabelAddressText(mnemonic, high, target, h, labels);
    AddressDigits(HexDigit(high), high, labels[target]);
    OpcodeOfTokens(mnemonic, parts, h, [HexDigit(high)] + h, high * 0x1000 + labels[target], labels, position);
  }

  lemma LabelAddressText(mnemonic: string, high: nat, target: string, h: string, labels: Labels)
    requires (mnemonic == "SYS" && high == 0) || (mnemonic == "JP" && high == 1) || (mnemonic == "CALL" && high == 2)
    ensures OpcodeText(mnemonic, [mnemonic, target], "", "", "", h, "", labels) == Digits([HexDigit(high)] + h)
  {
  }

  /**
   * `JP` with two operands is the `Bnnn` form whatever its first operand (lines
   * 152-156): an unknown label as the second gives `Incomplete`, and the labels
   * stay as they are.
   */
  lemma UnknownOffsetLabel(mnemonic: string, first: string, target: string, labels: Labels, position: u16)
    requires mnemonic == "JP"
    requires first != [] && ' ' !in first && ';' !in first
    requires target != [] && ' ' !in target && ';' !in target
    requires target[0] != 'V' && !StartsWith(target, "0x") && target !in labels
    ensures ParseAsmLine(mnemonic + " " + first + " " + target, labels, position) == Parse(Failed(Incomplete), labels)
  {
    assert ParseAsmLine(mnemonic + " " + first + " " + target, labels, position) == ParseTokens([mnemonic, first, target], labels, position) by {
      SecondOperandLine(mnemonic, first, target, labels, position);
    }
    UnresolvedTokens([mnemonic, first, target], labels, position);
  }

  /** With a known label between 0x100 and 0xFFF it is `0xB000` plus the label's position (lines 152-156). */
  lemma KnownOffsetLabel(mnemonic: string, first: string, target: string, labels: Labels, position: u16)
    requires mnemonic == "JP"
    requires first != [] && ' ' !in first && ';' !in first
    requires target != [] && ' ' !in target && ';' !in target
    requires target[0] != 'V' && !StartsWith(target, "0x") && target in labels
    requires 0x100 <= labels[target] < 0x1000
    ensures ParseAsmLine(mnemonic + " " + first + " " + target, labels, position) == Parse(Opcode(0xB000 + labels[target]), labels)
  {
    assert ParseAsmLine(mnemonic + " " + first + " " + target, labels, position) == ParseTokens([mnemonic, first, target], labels, position) by {
      SecondOperandLine(mnemonic, first, target, labels, position);
    }
    OffsetTokens(first, target, labels, position);
  }

  lemma OffsetTokens(first: string, target: string, labels: Labels, position: u16)
    requires target != [] && target[0] != 'V' && !StartsWith(target, "0x") && target in labels
    requires 0x100 <= labels[target] < 0x1000
    ensures ParseTokens(["JP", first, target], labels, position) == Parse(Opcode(0xB000 + labels[target]), labels)
  {
    var parts := ["JP", first, target];
    var h := LowerHex(labels[target]);
    LowerHexThreeDigits(labels[target]);
    HeadDiffers(target, "V");
    assert PadLeft(h, 2, '0') == h;
    AddressDigits('B', 11, labels[target]);
    OpcodeOfTokens("JP", parts, "", "B" + h, 0xB000 + labels[target], labels, position);
  }

  /** `LD I, <label>` with an unknown label gives `Incomplete`, and the labels stay as they are (lines 202-207). */
  lemma UnknownIndexLabel(mnemonic: string, first: string, target: string, labels: Labels, position: u16)
    requires mnemonic == "LD" && first == "I,"
    requires target != [] && ' ' !in target && ';' !in target
    requires target[0] != 'V' && !StartsWith(target, "0x") && target !in labels
    ensures ParseAsmLine(mnemonic + " " + first + " " + target, labels, position) == Parse(Failed(Incomplete), labels)
  {
    assert ParseAsmLine(mnemonic + " " + first + " " + target, labels, position) == ParseTokens([mnemonic, first, target], labels, position) by {
      SecondOperandLine(mnemonic, first, target, labels, position);
    }
    UnresolvedTokens([mnemonic, first, target], labels, position);
  }

  /** With a known label between 0x100 and 0xFFF it is `0xA000` plus the label's position (lines 202-207). */
  lemma KnownIndexLabel(mnemonic: string, first: string, target: string, labels: Labels, position: u16)
    requires mnemonic == "LD" && first == "I,"
    requires target != [] && ' ' !in target && ';' !in target
    requires target[0] != 'V' && !StartsWith(target, "0x") && target in labels
    requires 0x100 <= labels[target] < 0x1000
    ensures ParseAsmLine(mnemonic + " " + first + " " + target, labels, position) == Parse(Opcode(0xA000 + labels[target]), labels)
  {
    assert ParseAsmLine(mnemonic + " " + first + " " + target, labels, position) == ParseTokens([mnemonic, first, target], labels, position) by {
      SecondOperandLine(mnemonic, first, target, labels, position);
    }
    IndexTokens(target, labels, position);
  }

  lemma IndexTokens(target: string, labels: Labels, position: u16)
    requires target != [] && target[0] != 'V' && !StartsWith(target, "0x") && target in labels
    requires 0x100 <= labels[target] < 0x1000
    ensures ParseTokens(["LD", "I,", target], labels, position) == Parse(Opcode(0xA000 + labels[target]), labels)
  {
    var parts := ["LD", "I,", target];
    var h := LowerHex(labels[target]);
    LowerHexThreeDigits(labels[target]);
    HeadDiffers(target, "V");
    AddressDigits('A', 10, labels[target]);
    OpcodeOfTokens("LD", parts, "", "A" + h, 0xA000 + labels[target], labels, position);
  }

  /** `JP <first> <label>` and `LD I, <label>` with an unknown label are `Incomplete`. */
  lemma UnresolvedTokens(parts: seq<string>, labels: Labels, position: u16)
    requires |parts| == 3 && (parts[0] == "JP" || (parts[0] == "LD" && parts[1] == "I,"))
    requires parts[2] != [] && parts[2][0] != 'V' && !StartsWith(parts[2], "0x") && parts[2] !in labels
    ensures ParseTokens(parts, labels, position) == Parse(Failed(Incomplete), labels)
  {
    HeadDiffers(parts[2], "V");
    assert !EndsWith(parts[0], ":");
  }

  /**
   * A line of a mnemonic and two operands separated by single spaces reads as
   * its three tokens.
   */
  lemma SecondOperandLine(mnemonic: string, first: string, target: string, labels: Labels, position: u16)
    requires mnemonic != [] && ' ' !in mnemonic && ';' !in mnemonic
    requires first != [] && ' ' !in first && ';' !in first
    requires target != [] && ' ' !in target && ';' !in target
    ensures ParseAsmLine(mnemonic + " " + first + " " + target, labels, position) ==
      ParseTokens([mnemonic, first, target], labels, position)
  {
    PlainThree(mnemonic, first, target);
    JoinThree(mnemonic, first, target, ' ');
    ParseLine([mnemonic, first, target], labels, position);
  }

  // ---------------------------------------------------------------------------
  // The two passes
  // ---------------------------------------------------------------------------

  /**
   * Pass 1 from the start: line `i` is recorded at `0x200 + 2 * i`, with an
   * opcode exactly when it parses to one there under the labels the lines
   * before it defined; the table it ends with is the one the last line leaves.
   */
  lemma FirstPassLayout(lines: seq<string>, r: FirstPass, i: nat)
    requires Pass1(lines, FirstPass([], map[], ProgramStart)) == Ok(r)
    requires i < |lines|
    ensures |r.asmLines| == |lines| && ProgramStart + 2 * |lines| <= 0xFFFF
    ensures r.labels == LabelsBefore(ParseAsmLine, lines, map[], ProgramStart, |lines|)
    ensures var position := ProgramStart + 2 * i;
      r.asmLines[i] == AsmLine(lines[i],
        OpcodeOf(ParseAsmLine(lines[i], LabelsBefore(ParseAsmLine, lines, map[], ProgramStart, i), position).result), position)
  {
    LaidOutFromStart(ParseAsmLine, lines, r);
    LineRecordParses(ParseAsmLine, lines, map[], ProgramStart, i);
  }

  /** A layout after the empty state holds the entry of line `i` at index `i`, from `0x200` on. */
  lemma LaidOutFromStart(parse: LineParser, lines: seq<string>, r: FirstPass)
    requires LaidOut(parse, lines, FirstPass([], map[], ProgramStart), r)
    ensures |r.asmLines| == |lines| && r.memoryPosition == ProgramStart + 2 * |lines|
    ensures r.labels == LabelsBefore(parse, lines, map[], ProgramStart, |lines|)
    ensures forall i :: 0 <= i < |lines| ==> r.asmLines[i] == LineRecord(parse, lines, map[], ProgramStart, i)
  {
    forall i | 0 <= i < |lines|
      ensures r.asmLines[i] == LineRecord(parse, lines, map[], ProgramStart, i)
    {
      assert i - 0 == i;
    }
  }

  /**
   * What `assemble` returns holds two bytes per line of the file: line `i`
   * resolves under the final table, and its opcode is written, high byte first,
   * at offset `2 * i`; a line whose opcode pass 1 found is written as that
   * opcode.
   */
  lemma AssembledLayout(lines: seq<string>, st: FirstPass, bytes: seq<u8>)
    requires Pass1(lines, FirstPass([], map[], ProgramStart)) == Ok(st)
    requires Pass2(st.asmLines, st.labels, []) == Ok(bytes)
    ensures Assembled(lines) == Ok(bytes)
    ensures |st.asmLines| == |lines| && |bytes| == 2 * |lines|
    ensures forall i :: 0 <= i < |lines| ==>
      Resolve(st.asmLines[i], st.labels).Ok? &&
      bytes[2 * i] == HighByte(Resolve(st.asmLines[i], st.labels).value.0) &&
      bytes[2 * i + 1] == LowByte(Resolve(st.asmLines[i], st.labels).value.0)
  {
    LaidOutFromStart(ParseAsmLine, lines, st);
    WrittenFromStart(st.asmLines, st.labels, bytes);
  }

  /**
   * Bytes written after nothing hold, at offsets `2 * i` and `2 * i + 1`, the
   * opcode line `i` resolves to, and every line resolves.
   */
  lemma WrittenFromStart(asmLines: seq<AsmLine>, labels: Labels, bytes: seq<u8>)
    requires WrittenOut(asmLines, labels, [], bytes)
    ensures |bytes| == 2 * |asmLines|
    ensures forall i :: 0 <= i < |asmLines| ==>
      Resolve(asmLines[i], labels).Ok? &&
      bytes[2 * i] == HighByte(Resolve(asmLines[i], labels).value.0) &&
      bytes[2 * i + 1] == LowByte(Resolve(asmLines[i], labels).value.0)
  {
  }

  // ---------------------------------------------------------------------------
  // Which files assemble
  // ---------------------------------------------------------------------------

  /**
   * `bytes` is what the lines give when each is assembled on its own: line `i`
   * parses to an opcode at `0x200 + 2 * i` with no labels, and that opcode is
   * bytes `2 * i` and `2 * i + 1`, high byte first; the last line still leaves
   * room for the position to move on.
   */
  predicate LineByLine(lines: seq<string>, bytes: seq<u8>)
  {
    ProgramStart + 2 * |lines| <= 0xFFFF && |bytes| == 2 * |lines| &&
    forall i :: 0 <= i < |lines| ==>
      var r := ParseAsmLine(lines[i], map[], ProgramStart + 2 * i).result;
      r.Opcode? && bytes[2 * i] == HighByte(r.value) && bytes[2 * i + 1] == LowByte(r.value)
  }

  /**
   * `assemble` succeeds exactly on the files whose every line assembles on its
   * own, and then writes their opcodes in order. A line that defines a label
   * always aborts (`SilentLineAborts`), so no label ever takes effect, and a
   * reference to a label can never resolve.
   */
  lemma AssembledExactly(lines: seq<string>, bytes: seq<u8>)
    ensures Assembled(lines) == Ok(bytes) <==> LineByLine(lines, bytes)
  {
    if Assembled(lines) == Ok(bytes) {
      AssembledLineByLine(lines, bytes);
    }
    if LineByLine(lines, bytes) {
      LineByLineAssembles(lines, bytes);
    }
  }

  /** A file that assembles does so line by line. */
  lemma AssembledLineByLine(lines: seq<string>, bytes: seq<u8>)
    requires Assembled(lines) == Ok(bytes)
    ensures LineByLine(lines, bytes)
  {
    var st := Pass1(lines, FirstPass([], map[], ProgramStart)).value;
    AssembledLayout(lines, st, bytes);
    NoLabelTakesEffect(lines, st);
    forall i | 0 <= i < |lines|
      ensures var r := ParseAsmLine(lines[i], map[], ProgramStart + 2 * i).result;
        r.Opcode? && bytes[2 * i] == HighByte(r.value) && bytes[2 * i + 1] == LowByte(r.value)
    {
      FirstPassLayout(lines, st, i);
    }
  }

  /** In a file that assembles, pass 1 never holds a label. */
  lemma NoLabelTakesEffect(lines: seq<string>, st: FirstPass)
    requires Pass1(lines, FirstPass([], map[], ProgramStart)) == Ok(st)
    requires Pass2(st.asmLines, st.labels, []).Ok?
    ensures ProgramStart + 2 * |lines| <= 0xFFFF
    ensures forall k :: 0 <= k <= |lines| ==> LabelsBefore(ParseAsmLine, lines, map[], ProgramStart, k) == map[]
  {
    LaidOutFromStart(ParseAsmLine, lines, st);
    NoLineWithoutOpcode(lines, st);
    NoLabelFromStart(lines);
  }

  /** In a file that assembles, no line of pass 1 parses to `NoOpcode`. */
  lemma NoLineWithoutOpcode(lines: seq<string>, st: FirstPass)
    requires Pass1(lines, FirstPass([], map[], ProgramStart)) == Ok(st)
    requires Pass2(st.asmLines, st.labels, []).Ok?
    ensures forall j :: 0 <= j < |lines| ==>
      ParseAsmLine(lines[j], LabelsBefore(ParseAsmLine, lines, map[], ProgramStart, j), ProgramStart + 2 * j).result
        != Failed(NoOpcode)
  {
    forall j | 0 <= j < |lines|
      ensures ParseAsmLine(lines[j], LabelsBefore(ParseAsmLine, lines, map[], ProgramStart, j), ProgramStart + 2 * j).result
        != Failed(NoOpcode)
    {
      KeptLine(lines, st, j);
    }
  }

  /** When no line parses to `NoOpcode`, every line is parsed with the empty table. */
  lemma NoLabelFromStart(lines: seq<string>)
    requires ProgramStart + 2 * |lines| <= 0xFFFF
    requires forall j :: 0 <= j < |lines| ==>
      ParseAsmLine(lines[j], LabelsBefore(ParseAsmLine, lines, map[], ProgramStart, j), ProgramStart + 2 * j).result
        != Failed(NoOpcode)
    ensures forall k :: 0 <= k <= |lines| ==> LabelsBefore(ParseAsmLine, lines, map[], ProgramStart, k) == map[]
  {
    ParseKeepsTable();
    forall k | 0 <= k <= |lines|
      ensures LabelsBefore(ParseAsmLine, lines, map[], ProgramStart, k) == map[]
    {
      LabelsKeptByOpcodes(ParseAsmLine, lines, map[], ProgramStart, k);
    }
  }

  /** `parse` leaves the table alone on every line that is not `NoOpcode`. */
  ghost predicate KeepsTableUnlessNoOpcode(parse: LineParser)
  {
    forall line, labels, position :: parse(line, labels, position).result != Failed(NoOpcode) ==>
      parse(line, labels, position).labels == labels
  }

  /** `parse_asm_line` changes the table only on a line without an opcode. */
  lemma ParseKeepsTable()
    ensures KeepsTableUnlessNoOpcode(ParseAsmLine)
  {
  }

  /** When no line before `k` is `NoOpcode`, the table before line `k` is the starting one. */
  lemma LabelsKeptByOpcodes(parse: LineParser, lines: seq<string>, labels: Labels, position: u16, k: nat)
    requires k <= |lines| && position + 2 * k <= 0xFFFF && KeepsTableUnlessNoOpcode(parse)
    requires forall j :: 0 <= j < k ==>
      parse(lines[j], LabelsBefore(parse, lines, labels, position, j), position + 2 * j).result != Failed(NoOpcode)
    ensures LabelsBefore(parse, lines, labels, position, k) == labels
  {
    LabelsKept(parse, lines, labels, position, k);
  }

  /**
   * In a file that assembles no line of pass 1 parses to `NoOpcode`: pass 2
   * would parse it again, and such a line has no opcode under any table.
   */
  lemma KeptLine(lines: seq<string>, st: FirstPass, j: nat)
    requires Pass1(lines, FirstPass([], map[], ProgramStart)) == Ok(st)
    requires j < |lines| && Pass2(st.asmLines, st.labels, []).Ok?
    ensures ParseAsmLine(lines[j], LabelsBefore(ParseAsmLine, lines, map[], ProgramStart, j), ProgramStart + 2 * j).result != Failed(NoOpcode)
  {
    var bytes := Pass2(st.asmLines, st.labels, []).value;
    FirstPassLayout(lines, st, j);
    WrittenFromStart(st.asmLines, st.labels, bytes);
    var table := LabelsBefore(ParseAsmLine, lines, map[], ProgramStart, j);
    if ParseAsmLine(lines[j], table, ProgramStart + 2 * j).result == Failed(NoOpcode) {
      NoOpcodeAnyTable(lines[j], table, ProgramStart + 2 * j, st.labels, ProgramStart + 2 * j);
      assert false;
    }
  }

  /** A file whose lines each assemble on their own assembles to their opcodes. */
  lemma LineByLineAssembles(lines: seq<string>, bytes: seq<u8>)
    requires LineByLine(lines, bytes)
    ensures Assembled(lines) == Ok(bytes)
  {
    var init := FirstPass([], map[], ProgramStart);
    forall k | 0 <= k <= |lines|
      ensures LabelsBefore(ParseAsmLine, lines, map[], ProgramStart, k) == map[]
    {
      LabelsKeptFrom(ParseAsmLine, lines, map[], ProgramStart, k);
    }
    assert Completes(ParseAsmLine, lines, map[], ProgramStart);
    var st := Pass1(lines, init).value;
    LaidOutFromStart(ParseAsmLine, lines, st);
    forall i | 0 <= i < |lines|
      ensures Resolve(st.asmLines[i], st.labels).Ok?
      ensures bytes[2 * i] == HighByte(Resolve(st.asmLines[i], st.labels).value.0)
      ensures bytes[2 * i + 1] == LowByte(Resolve(st.asmLines[i], st.labels).value.0)
    {
      LineRecordParses(ParseAsmLine, lines, map[], ProgramStart, i);
    }
    Pass2Writes(st.asmLines, st.labels, bytes);
  }

  /** Pass 2 over lines that each resolve, to the opcode two given bytes hold, writes exactly those bytes. */
  lemma Pass2Writes(asmLines: seq<AsmLine>, labels: Labels, bytes: seq<u8>)
    requires |bytes| == 2 * |asmLines|
    requires forall i :: 0 <= i < |asmLines| ==>
      Resolve(asmLines[i], labels).Ok? &&
      bytes[2 * i] == HighByte(Resolve(asmLines[i], labels).value.0) &&
      bytes[2 * i + 1] == LowByte(Resolve(asmLines[i], labels).value.0)
    ensures Pass2(asmLines, labels, []) == Ok(bytes)
  {
    Pass2Succeeds(asmLines, labels, []);
    var r := Pass2(asmLines, labels, []).value;
    WrittenFromStart(asmLines, labels, r);
    forall i | 0 <= i < |asmLines|
      ensures r[2 * i] == bytes[2 * i] && r[2 * i + 1] == bytes[2 * i + 1]
    {
      var o := Resolve(asmLines[i], labels).value.0;
      assert r[2 * i] == HighByte(o) == bytes[2 * i];
    }
    PairwiseEqual(r, bytes, |asmLines|);
  }

  /** Pass 2 over lines that each resolve does not fail. */
  lemma Pass2Succeeds(asmLines: seq<AsmLine>, labels: Labels, out: seq<u8>)
    requires forall i :: 0 <= i < |asmLines| ==> Resolve(asmLines[i], labels).Ok?
    ensures Pass2(asmLines, labels, out).Ok?
  {
  }

  /** Two byte strings that agree pair by pair are equal. */
  lemma PairwiseEqual(r: seq<u8>, bytes: seq<u8>, n: nat)
    requires |r| == |bytes| == 2 * n
    requires forall i :: 0 <= i < n ==> r[2 * i] == bytes[2 * i] && r[2 * i + 1] == bytes[2 * i + 1]
    ensures r == bytes
  {
    forall m | 0 <= m < |bytes|
      ensures r[m] == bytes[m]
    {
      var i := m / 2;
      assert m == 2 * i || m == 2 * i + 1;
    }
  }

  /** Lines that each leave the table they find as it was keep the starting table throughout. */
  lemma {:induction false} LabelsKept(parse: LineParser, lines: seq<string>, labels: Labels, position: u16, k: nat)
    requires k <= |lines| && position + 2 * k <= 0xFFFF
    requires forall j :: 0 <= j < k ==>
      parse(lines[j], LabelsBefore(parse, lines, labels, position, j), position + 2 * j).labels ==
      LabelsBefore(parse, lines, labels, position, j)
    ensures LabelsBefore(parse, lines, labels, position, k) == labels
    decreases k
  {
    if k > 0 {
      LabelsKept(parse, lines, labels, position, k - 1);
      LabelsBeforeLast(parse, lines, labels, position, k - 1);
    }
  }

  /** Lines that each leave the starting table as it was keep it throughout. */
  lemma {:induction false} LabelsKeptFrom(parse: LineParser, lines: seq<string>, labels: Labels, position: u16, k: nat)
    requires k <= |lines| && position + 2 * k <= 0xFFFF
    requires forall j :: 0 <= j < k ==> parse(lines[j], labels, position + 2 * j).labels == labels
    ensures LabelsBefore(parse, lines, labels, position, k) == labels
    decreases k
  {
    if k > 0 {
      forall j | 0 <= j < k - 1
        ensures parse(lines[1..][j], labels, position + 2 + 2 * j).labels == labels
      {
        assert lines[1..][j] == lines[j + 1];
      }
      LabelsKeptFrom(parse, lines[1..], labels, position + 2, k - 1);
    }
  }

  /** The table after line `k` is the one line `k` leaves, read under the table before it. */
  lemma {:induction false} LabelsBeforeLast(parse: LineParser, lines: seq<string>, labels: Labels, position: u16, k: nat)
    requires k < |lines| && position + 2 * (k + 1) <= 0xFFFF
    ensures LabelsBefore(parse, lines, labels, position, k + 1) ==
      parse(lines[k], LabelsBefore(parse, lines, labels, position, k), position + 2 * k).labels
    decreases k
  {
    if k > 0 {
      LabelsBeforeLast(parse, lines[1..], parse(lines[0], labels, position).labels, position + 2, k - 1);
      assert lines[1..][k - 1] == lines[k];
    }
  }

  /**
   * A line with no opcode under one table has none under any other: whether a
   * mnemonic matches no form, or a token defines a label, does not depend on
   * the labels; only a reference to one can turn out `Incomplete` instead.
   */
  lemma NoOpcodeAnyTable(line: string, labels: Labels, position: u16, labels': Labels, position': u16)
    requires ParseAsmLine(line, labels, position).result == Failed(NoOpcode)
    ensures ParseAsmLine(line, labels', position').result.Failed?
  {
    var text := StripComment(line);
    if text != "" {
      NoOpcodeTokens(Tokens(text), labels, position, labels', position');
    }
  }

  lemma NoOpcodeTokens(parts: seq<string>, labels: Labels, position: u16, labels': Labels, position': u16)
    requires |parts| >= 1 && ParseTokens(parts, labels, position).result == Failed(NoOpcode)
    ensures ParseTokens(parts, labels', position').result.Failed?
  {
    var command := parts[0];
    var x := RegisterOperand(parts, 1);
    var y := RegisterOperand(parts, 2);
    var kk := ByteOperand(parts, y);
    var n := NibbleOperand(parts);
    var takesAddress := x == "" && y == "" && |parts| == 2;
    if !(takesAddress && GetAddress(parts[1], labels').Err?) && !EndsWith(command, ":") {
      var nnn := if takesAddress then GetAddress(parts[1], labels).value else "";
      var nnn' := if takesAddress then GetAddress(parts[1], labels').value else "";
      assert OpcodeText(command, parts, x, y, kk, nnn, n, labels) == Unmatched;
      UnmatchedAnyTable(command, parts, x, y, kk, nnn, n, labels, nnn', labels');
    }
  }

  /** Whether the opcode table has a form for a line does not depend on its address or the labels. */
  lemma UnmatchedAnyTable(command: string, parts: seq<string>, x: string, y: string, kk: string, nnn: string, n: string,
                          labels: Labels, nnn': string, labels': Labels)
    requires |parts| >= 1 && OpcodeText(command, parts, x, y, kk, nnn, n, labels) == Unmatched
    ensures OpcodeText(command, parts, x, y, kk, nnn', n, labels') == Unmatched
  {
  }

  // ---------------------------------------------------------------------------
  // Lines without an opcode of their own, and what pass 2 does with them
  // ---------------------------------------------------------------------------

  /** A label definition never has an opcode (lines 129-137). */
  lemma LabelSilent(name: string)
    requires ' ' !in name && ';' !in name
    ensures Silent(name + ":")
  {
    forall labels: Labels, position: u16
      ensures ParseAsmLine(name + ":", labels, position).result == Failed(NoOpcode)
    {
      LabelDefinition(name, labels, position);
    }
  }

  /** A comment line never has an opcode (lines 75-84). */
  lemma CommentSilent(comment: string)
    ensures Silent(";" + comment)
  {
    forall labels: Labels, position: u16
      ensures ParseAsmLine(";" + comment, labels, position).result == Failed(NoOpcode)
    {
      CommentOnly(comment, labels, position);
    }
  }

  /**
   * A line of spaces never has an opcode: it is not empty, but its only token
   * is the empty word, which names no instruction (lines 81-90 and 286).
   */
  lemma BlankSilent(k: nat)
    ensures Silent(seq(k, _ => ' '))
  {
    var line := seq(k, _ => ' ');
    assert ';' !in line;
    assert line + [] == line;
    TrimStartRun(k, ' ', []);
    assert k > 0 ==> Tokens(line) == [""];
  }

  /**
   * A recorded line without an opcode that can never get one makes pass 2
   * abort, wherever it sits (lines 52-60).
   */
  lemma RecordedSilentAborts(asmLines: seq<AsmLine>, labels: Labels, out: seq<u8>, i: nat)
    requires i < |asmLines| && asmLines[i].opcode.None? && Silent(asmLines[i].line)
    ensures Pass2(asmLines, labels, out).Err?
  {
    SilentUnresolved(asmLines[i], labels);
  }

  /** A recorded line without an opcode that never has one does not resolve (lines 53-58). */
  lemma SilentUnresolved(a: AsmLine, labels: Labels)
    requires a.opcode.None? && Silent(a.line)
    ensures Resolve(a, labels).Err?
  {
    assert ParseAsmLine(a.line, labels, a.memoryPosition).result == Failed(NoOpcode);
  }

  /**
   * A file holding a line that never has an opcode (a label definition, a
   * comment, a blank line) does not assemble: pass 1 records the line without
   * an opcode and pass 2 panics on it.
   */
  lemma SilentLineAborts(lines: seq<string>, i: nat)
    requires i < |lines| && Silent(lines[i])
    ensures Assembled(lines).Err?
  {
    var init := FirstPass([], map[], ProgramStart);
    if Pass1(lines, init).Ok? {
      var st := Pass1(lines, init).value;
      SilentRecorded(lines, st, i);
      RecordedSilentAborts(st.asmLines, st.labels, [], i);
    }
  }

  /** Pass 1 from the start records a line that never has an opcode at its index, without one. */
  lemma SilentRecorded(lines: seq<string>, st: FirstPass, i: nat)
    requires Pass1(lines, FirstPass([], map[], ProgramStart)) == Ok(st)
    requires i < |lines| && Silent(lines[i])
    ensures i < |st.asmLines| && st.asmLines[i].line == lines[i] && st.asmLines[i].opcode.None?
  {
    FirstPassLayout(lines, st, i);
  }

  /** The smallest case: a jump to a label defined on a line of its own. */
  lemma ForwardLabelAborts(name: string)
    requires ' ' !in name && ';' !in name
    ensures Assembled(["JP" + " " + name, name + ":", "CLS"]).Err?
  {
    var lines := ["JP" + " " + name, name + ":", "CLS"];
    LabelSilent(name);
    assert lines[1] == name + ":";
    SilentLineAborts(lines, 1);
  }
}
