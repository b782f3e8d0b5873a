/**
 * The two-pass CHIP-8 assembler of `src/assembler.rs`.
 *
 * `ParseAsmLine` turns one line of text into a 16-bit opcode: it strips the
 * comment, splits the line on single spaces, extracts the operand fields
 * (register digits `x`, `y`, byte `kk`, address `nnn`, nibble `n`), writes the
 * opcode as a string of hexadecimal digits from the mnemonic's fixed digits and
 * those fields, and parses that string as a `u16`. Label definitions update the
 * label table. `Assemble` runs the two passes over the lines of a source file.
 *
 * Rust panics are not returned by the source; they abort the program. Here they
 * are the `Panic` outcomes.
 */
module Assembler {
  import opened Wrappers
  import opened Words
  import opened Text

  /** Label name to the memory position of its definition. */
  type Labels = map<string, u16>

  /** The two non-fatal signals of `parse_asm_line`. */
  datatype OpcodeError =
    | NoOpcode    // empty line, comment, label definition, or no matching form
    | Incomplete  // an address operand names a label not (yet) in the table

  datatype AddressError = UnknownLabel

  /** Each way the assembler panics. */
  datatype Panic =
    | WrongOpcodeFormat(opcode: string) // the composed digits are not a u16 (line 303)
    | OperandMissing                     // `parts[1]` or `parts[2]` indexed past the last token
    | PositionOverflow                   // `memory_position += 2` beyond 0xFFFF
    | InvalidAsmLine(line: string)       // a line still without opcode in pass 2 (line 58)

  datatype LineResult =
    | Opcode(value: u16)
    | Failed(error: OpcodeError)
    | Panicked(panic: Panic)

  /** What `parse_asm_line` returns, with the label table as it leaves it. */
  datatype Parse = Parse(result: LineResult, labels: Labels)

  /**
   * `get_address`: a `0x` literal loses its prefix and is zero-padded to three
   * digits; a known label gives its position in hexadecimal; anything else is an
   * unknown label.
   */
  function GetAddress(text: string, labels: Labels): (r: Result<string, AddressError>)
    ensures r.Err? <==> !StartsWith(text, "0x") && text !in labels
    ensures StartsWith(text, "0x") ==> |r.value| >= 3
  {
    if StartsWith(text, "0x") then Ok(PadLeft(TrimStartMatches(text, "0x"), 3, '0'))
    else if text in labels then Ok(LowerHex(labels[text]))
    else Err(UnknownLabel)
  }

  /**
   * The text `GetAddress` writes for a `0x` literal: its digits, right-aligned
   * in a field of three and filled with `0` on the left, or as they are when
   * there are more than three.
   */
  lemma AddressLiteralText(text: string, labels: Labels)
    requires StartsWith(text, "0x")
    ensures var r := GetAddress(text, labels).value; var d := TrimStartMatches(text, "0x");
      |r| == (if |d| < 3 then 3 else |d|) && r[|r| - |d|..] == d &&
      forall i :: 0 <= i < |r| - |d| ==> r[i] == '0'
  {
  }

  /** The address `GetAddress` writes is worth the literal's digits, or the label's position. */
  lemma AddressValue(text: string, labels: Labels)
    ensures StartsWith(text, "0x") ==>
      DigitsValue(GetAddress(text, labels).value, 16) == DigitsValue(TrimStartMatches(text, "0x"), 16)
    ensures !StartsWith(text, "0x") && text in labels ==>
      DigitsValue(GetAddress(text, labels).value, 16) == Some(labels[text])
  {
    if StartsWith(text, "0x") {
      PadLeftValue(TrimStartMatches(text, "0x"), 3, 16);
    } else if text in labels {
      LowerHexRoundTrip(labels[text]);
    }
  }

  /**
   * `get_hex_str`: a `0x` literal loses its prefix; a decimal numeral that fits
   * in a `u16` is rewritten in hexadecimal; anything else gives nothing.
   */
  function GetHexStr(text: string): (r: Option<string>)
    ensures StartsWith(text, "0x") ==> r.Some? && !StartsWith(r.value, "0x") && |r.value| <= |text|
    ensures !StartsWith(text, "0x") ==> (r.Some? <==> ParseU16(text, 10).Some?)
  {
    if StartsWith(text, "0x") then Some(TrimStartMatches(text, "0x"))
    else match ParseU16(text, 10)
      case Some(n) => Some(LowerHex(n))
      case None => None
  }

  /** The digits of a `0x` literal are the end of its text. */
  lemma HexStrSuffix(text: string)
    requires StartsWith(text, "0x")
    ensures GetHexStr(text).value == text[|text| - |GetHexStr(text).value|..]
  {
    TrimStartSuffix(text, "0x");
  }

  /** A decimal operand is rewritten in hexadecimal without changing its value. */
  lemma HexStrValue(text: string)
    requires !StartsWith(text, "0x") && ParseU16(text, 10).Some?
    ensures DigitsValue(GetHexStr(text).value, 16) == Some(ParseU16(text, 10).value)
  {
    LowerHexRoundTrip(ParseU16(text, 10).value);
  }

  /**
   * The text written for a decimal operand is the one canonical hexadecimal
   * text of its value: a string is that text exactly when it is lower-case
   * hexadecimal without a leading zero and worth the operand.
   */
  lemma HexStrText(text: string, s: string)
    requires !StartsWith(text, "0x") && ParseU16(text, 10).Some?
    ensures s == GetHexStr(text).value <==> CanonicalHex(s) && DigitsValue(s, 16) == Some(ParseU16(text, 10).value)
  {
    HexStrValue(text);
    LowerHexCanonical(ParseU16(text, 10).value);
    if CanonicalHex(s) && DigitsValue(s, 16) == Some(ParseU16(text, 10).value) {
      CanonicalHexUnique(s, ParseU16(text, 10).value);
    }
  }

  /** The same for a known label: its address is the one canonical hexadecimal text of its position. */
  lemma AddressLabelText(text: string, labels: Labels, s: string)
    requires !StartsWith(text, "0x") && text in labels
    ensures s == GetAddress(text, labels).value <==> CanonicalHex(s) && DigitsValue(s, 16) == Some(labels[text])
  {
    AddressValue(text, labels);
    LowerHexCanonical(labels[text]);
    if CanonicalHex(s) && DigitsValue(s, 16) == Some(labels[text] as nat) {
      CanonicalHexUnique(s, labels[text]);
    }
  }

  /** The line up to its first `;`. */
  function StripComment(line: string): (r: string)
  {
    match Find(line, ';')
    case Some(i) => line[..i]
    case None => line
  }

  /** The tokens of a comment-free line: leading and trailing spaces trimmed, then split on each single space. */
  function Tokens(text: string): (parts: seq<string>)
    ensures |parts| >= 1
  {
    Split(TrimEndMatches(TrimStartMatches(text, " "), " "), ' ')
  }

  /** The register digits of token `i` when it starts with `V`: every leading `V` and trailing `,` trimmed. */
  function RegisterOperand(parts: seq<string>, i: nat): string
  {
    if i < |parts| && StartsWith(parts[i], "V") then TrimEndMatches(TrimStartMatches(parts[i], "V"), ",") else ""
  }

  /** The outcome of the opcode table for one line. */
  datatype Composed =
    | Digits(text: string) // the opcode written as hexadecimal digits
    | Unmatched            // no form of this mnemonic applies (`None`)
    | Unresolved           // an address operand names an unknown label
    | OutOfRange           // a token past the last one was indexed

  /** The opcode table of lines 139-287: mnemonic and operand shape to opcode digits. */
  function OpcodeText(command: string, parts: seq<string>, x: string, y: string, kk: string, nnn: string, n: string,
                      labels: Labels): Composed
    requires |parts| >= 1
  {
    match command
    case "CLS" => Digits("00E0")
    case "RET" => Digits("00EE")
    case "SYS" => Digits("0" + nnn)
    case "JP" =>
      if |parts| == 2 then Digits("1" + nnn)
      else if |parts| < 3 then OutOfRange
      else (match GetAddress(parts[2], labels)
        case Err(_) => Unresolved
        case Ok(addr) => Digits("B" + PadLeft(addr, 2, '0')))
    case "CALL" => Digits("2" + nnn)
    case "SE" => if y == "" then Digits("3" + x + kk) else Digits("5" + x + y + "0")
    case "SNE" => if y == "" then Digits("4" + x + kk) else Digits("9" + x + y + "0")
    case "LD" => LoadText(parts, x, y, kk, labels)
    case "ADD" =>
      if y == "" then Digits("7" + x + kk)
      else if x == "" then Digits("F" + y + "1E")
      else Digits("8" + x + y + "4")
    case "OR" => Digits("8" + x + y + "1")
    case "AND" => Digits("8" + x + y + "2")
    case "XOR" => Digits("8" + x + y + "3")
    case "SUB" => Digits("8" + x + y + "5")
    case "SHR" => if y == "" then Digits("8" + x + "06") else Digits("8" + x + y + "6")
    case "SUBN" => Digits("8" + x + y + "7")
    case "SHL" => if y == "" then Digits("8" + x + "0E") else Digits("8" + x + y + "E")
    case "RND" => Digits("C" + x + kk)
    case "DRW" => Digits("D" + x + y + n)
    case "SKP" => Digits("E" + x + "9E")
    case "SKNP" => Digits("E" + x + "A1")
    case _ => Unmatched
  }

  /** The eleven forms of `LD` (lines 194-235), tried in the source's order. */
  function LoadText(parts: seq<string>, x: string, y: string, kk: string, labels: Labels): Composed
    requires |parts| >= 1
  {
    if x != "" && y != "" then Digits("8" + x + y + "0")
    else if |parts| < 2 then OutOfRange
    else if parts[1] == "I," && y != "" then Digits("F" + y + "55")
    else if parts[1] == "I," then
      if |parts| < 3 then OutOfRange
      else (match GetAddress(parts[2], labels)
        case Err(_) => Unresolved
        case Ok(addr) => Digits("A" + addr))
    else if x != "" && |parts| < 3 then OutOfRange
    else if x != "" && parts[2] == "DT" then Digits("F" + x + "07")
    else if x != "" && parts[2] == "K" then Digits("F" + x + "0A")
    else if parts[1] == "DT," && y != "" then Digits("F" + y + "15")
    else if parts[1] == "ST," && y != "" then Digits("F" + y + "18")
    else if parts[1] == "F," && y != "" then Digits("F" + y + "29")
    else if parts[1] == "B," && y != "" then Digits("F" + y + "33")
    else if x != "" && parts[2] == "I" then Digits("F" + x + "65")
    else if x != "" && kk != "" then Digits("6" + x + kk)
    else Unmatched
  }

  /** The byte operand `kk` (lines 104-111): the third token as hex digits, zero-padded to two. */
  function ByteOperand(parts: seq<string>, y: string): string
  {
    if |parts| >= 3 && y == "" then
      match GetHexStr(parts[2])
      case Some(h) => PadLeft(h, 2, '0')
      case None => ""
    else ""
  }

  /** The nibble operand `n` (lines 120-127): the fourth token as hex digits. */
  function NibbleOperand(parts: seq<string>): string
  {
    if |parts| >= 4 then GetHexStr(parts[3]).GetOr("") else ""
  }

  /** The first token of a line once its comment is gone: its mnemonic, or the label it defines. */
  function Command(line: string): string
  {
    Tokens(StripComment(line))[0]
  }

  /** `after` is `before` with the name in front of the colon of `command` bound to `position`. */
  predicate DefinesLabel(command: string, before: Labels, position: u16, after: Labels)
  {
    EndsWith(command, ":") && after == before[command[..|command| - 1] := position]
  }

  /**
   * `parse_asm_line`. Only a label definition changes the table, and it only
   * binds a name to the line's own position; every other outcome leaves the
   * table as it was. The only panics are a malformed opcode text (line 303) and
   * a missing operand.
   */
  function ParseAsmLine(line: string, labels: Labels, memoryIndex: u16): (r: Parse)
    ensures r.result != Failed(NoOpcode) ==> r.labels == labels
    ensures r.labels == labels || DefinesLabel(Command(line), labels, memoryIndex, r.labels)
    ensures r.result.Panicked? ==> r.result.panic.WrongOpcodeFormat? || r.result.panic == OperandMissing
  {
    var text := StripComment(line);
    if text == "" then Parse(Failed(NoOpcode), labels) else ParseTokens(Tokens(text), labels, memoryIndex)
  }

  /** `parse_asm_line` from the tokens of the comment-free text on (lines 85-302). */
  function ParseTokens(parts: seq<string>, labels: Labels, memoryIndex: u16): (r: Parse)
    requires |parts| >= 1
    ensures r.result != Failed(NoOpcode) ==> r.labels == labels
    ensures r.labels == labels || DefinesLabel(parts[0], labels, memoryIndex, r.labels)
    ensures r.result.Panicked? ==> r.result.panic.WrongOpcodeFormat? || r.result.panic == OperandMissing
  {
    var command := parts[0];
    var x := RegisterOperand(parts, 1);
    var y := RegisterOperand(parts, 2);
    var kk := ByteOperand(parts, y);
    var takesAddress := x == "" && y == "" && |parts| == 2;
    if takesAddress && GetAddress(parts[1], labels).Err? then Parse(Failed(Incomplete), labels)
    else
      var nnn := if takesAddress then GetAddress(parts[1], labels).value else "";
      var n := NibbleOperand(parts);
      if EndsWith(command, ":") then
        Parse(Failed(NoOpcode), labels[command[..|command| - 1] := memoryIndex])
      else
        var result :=
          match OpcodeText(command, parts, x, y, kk, nnn, n, labels)
          case Digits(s) =>
            (match ParseU16(s, 16)
             case Some(opcode) => Opcode(opcode)
             case None => Panicked(WrongOpcodeFormat(s)))
          case Unmatched => Failed(NoOpcode)
          case Unresolved => Failed(Incomplete)
          case OutOfRange => Panicked(OperandMissing);
        Parse(result, labels)
  }

  // ---------------------------------------------------------------------------
  // The two passes of `assemble`, as functions of the lines still to be read.
  // ---------------------------------------------------------------------------

  /** One line as pass 1 records it. */
  datatype AsmLine = AsmLine(line: string, opcode: Option<u16>, memoryPosition: u16)

  /** The state carried through pass 1. */
  datatype FirstPass = FirstPass(asmLines: seq<AsmLine>, labels: Labels, memoryPosition: u16)

  const ProgramStart: u16 := 0x200

  /**
   * A line that has no opcode whatever the label table and the position: a
   * blank line, a comment, a label definition, a lone unknown word.
   */
  ghost predicate Silent(line: string)
  {
    forall labels: Labels, position: u16 :: ParseAsmLine(line, labels, position).result == Failed(NoOpcode)
  }

  /** The opcode pass 1 records for a parse outcome: the value of an opcode, nothing otherwise. */
  function OpcodeOf(result: LineResult): (o: Option<u16>)
    ensures o.Some? <==> result.Opcode?
    ensures o.Some? ==> result == Opcode(o.value)
  {
    if result.Opcode? then Some(result.value) else None
  }

  /** How pass 1 reads one line: its text, the label table so far and its position. */
  type LineParser = (string, Labels, u16) -> Parse

  /**
   * The label table pass 1 holds when it reaches line `k` of `lines`, having
   * started from `labels` at `position`: each line before it is read by
   * `parse` at its own position with the table the lines before it left.
   */
  function LabelsBefore(parse: LineParser, lines: seq<string>, labels: Labels, position: u16, k: nat): Labels
    requires k <= |lines| && position + 2 * k <= 0xFFFF
    decreases k
  {
    if k == 0 then labels
    else LabelsBefore(parse, lines[1..], parse(lines[0], labels, position).labels, position + 2, k - 1)
  }

  /** The entry pass 1 records for line `k` of `lines`, read the same way. */
  function LineRecord(parse: LineParser, lines: seq<string>, labels: Labels, position: u16, k: nat): AsmLine
    requires k < |lines| && position + 2 * k <= 0xFFFF
    decreases k
  {
    var p := parse(lines[0], labels, position);
    if k == 0 then AsmLine(lines[0], OpcodeOf(p.result), position)
    else LineRecord(parse, lines[1..], p.labels, position + 2, k - 1)
  }

  /**
   * The entry for line `k` holds that line, at two bytes per line before it,
   * with an opcode exactly when the line reads as one at that position under
   * the labels the lines before it defined.
   */
  lemma {:induction false} LineRecordParses(parse: LineParser, lines: seq<string>, labels: Labels, position: u16, k: nat)
    requires k < |lines| && position + 2 * k <= 0xFFFF
    ensures var q := position + 2 * k;
      LineRecord(parse, lines, labels, position, k) ==
      AsmLine(lines[k], OpcodeOf(parse(lines[k], LabelsBefore(parse, lines, labels, position, k), q).result), q)
    decreases k
  {
    if k > 0 {
      var p := parse(lines[0], labels, position);
      LineRecordParses(parse, lines[1..], p.labels, position + 2, k - 1);
      assert lines[1..][k - 1] == lines[k];
    }
  }

  /**
   * `r` holds the lines of `st` followed by the entry of each line of `lines`,
   * in order, each two bytes after the one before; `r`'s table is the one the
   * last line leaves.
   */
  ghost predicate LaidOut(parse: LineParser, lines: seq<string>, st: FirstPass, r: FirstPass)
  {
    |r.asmLines| == |st.asmLines| + |lines| &&
    r.asmLines[..|st.asmLines|] == st.asmLines &&
    r.memoryPosition == st.memoryPosition + 2 * |lines| &&
    r.labels == LabelsBefore(parse, lines, st.labels, st.memoryPosition, |lines|) &&
    forall n :: |st.asmLines| <= n < |r.asmLines| ==>
      r.asmLines[n] == LineRecord(parse, lines, st.labels, st.memoryPosition, n - |st.asmLines|)
  }

  /** Recording one line and then laying out the rest lays out all of them. */
  lemma {:induction false} LaidOutStep(parse: LineParser, lines: seq<string>, st: FirstPass, next: FirstPass, r: FirstPass)
    requires lines != [] && st.memoryPosition + 2 <= 0xFFFF
    requires var p := parse(lines[0], st.labels, st.memoryPosition);
      next == FirstPass(st.asmLines + [AsmLine(lines[0], OpcodeOf(p.result), st.memoryPosition)], p.labels, st.memoryPosition + 2)
    requires LaidOut(parse, lines[1..], next, r)
    ensures LaidOut(parse, lines, st, r)
  {
    var s := |st.asmLines|;
    assert r.asmLines[..s] == st.asmLines by {
      assert r.asmLines[..s + 1][..s] == r.asmLines[..s];
    }
    assert r.asmLines[s] == next.asmLines[s] by {
      assert r.asmLines[..s + 1][s] == r.asmLines[s];
    }
  }

  /**
   * Pass 1 can read all of `lines` from `position` on: the position never
   * passes 0xFFFF, and no line panics when `parse` reads it with the table the
   * lines before it left.
   */
  ghost predicate Completes(parse: LineParser, lines: seq<string>, labels: Labels, position: u16)
  {
    position + 2 * |lines| <= 0xFFFF &&
    forall k :: 0 <= k < |lines| ==>
      !parse(lines[k], LabelsBefore(parse, lines, labels, position, k), position + 2 * k).result.Panicked?
  }

  /** Pass 1 completes on a line followed by more exactly when that line does not panic and it completes on the rest. */
  lemma CompletesStep(parse: LineParser, lines: seq<string>, labels: Labels, position: u16, p: Parse)
    requires lines != [] && p == parse(lines[0], labels, position)
    ensures Completes(parse, lines, labels, position) <==>
      position + 2 <= 0xFFFF && !p.result.Panicked? && Completes(parse, lines[1..], p.labels, position + 2)
  {
    if position + 2 * |lines| <= 0xFFFF {
      forall k | 0 < k < |lines|
        ensures LabelsBefore(parse, lines, labels, position, k) == LabelsBefore(parse, lines[1..], p.labels, position + 2, k - 1)
        ensures lines[k] == lines[1..][k - 1]
      {
      }
    }
  }

  /**
   * Pass 1 (lines 31-49) over `lines`, with `parse` reading each line: every
   * line is parsed at the current position and recorded, with its opcode or
   * with none, and the position moves on by two whatever the outcome. It fails
   * exactly when a line panics or the position would pass 0xFFFF.
   */
  function Pass1With(parse: LineParser, lines: seq<string>, st: FirstPass): (r: Result<FirstPass, Panic>)
    ensures r.Ok? ==> LaidOut(parse, lines, st, r.value)
    ensures r.Ok? <==> Completes(parse, lines, st.labels, st.memoryPosition)
    decreases |lines|
  {
    if lines == [] then
      assert st.asmLines[..|st.asmLines|] == st.asmLines;
      Ok(st)
    else
      var p := parse(lines[0], st.labels, st.memoryPosition);
      CompletesStep(parse, lines, st.labels, st.memoryPosition, p);
      if p.result.Panicked? then Err(p.result.panic)
      else
        var recorded := st.asmLines + [AsmLine(lines[0], OpcodeOf(p.result), st.memoryPosition)];
        if st.memoryPosition + 2 > 0xFFFF then Err(PositionOverflow)
        else
          var next := FirstPass(recorded, p.labels, st.memoryPosition + 2);
          var r := Pass1With(parse, lines[1..], next);
          if r.Ok? then
            LaidOutStep(parse, lines, st, next, r.value);
            r
          else r
  }

  /** Pass 1 of `assemble`: `parse_asm_line` reads each line. */
  function Pass1(lines: seq<string>, st: FirstPass): (r: Result<FirstPass, Panic>)
    ensures r.Ok? ==> LaidOut(ParseAsmLine, lines, st, r.value)
    ensures r.Ok? <==> Completes(ParseAsmLine, lines, st.labels, st.memoryPosition)
  {
    Pass1With(ParseAsmLine, lines, st)
  }

  /**
   * The opcode of a recorded line in pass 2 (lines 52-60): the one pass 1 found,
   * or else a fresh parse with the current table, which aborts the assembly
   * unless it yields an opcode. A line that resolves leaves the table as it was.
   */
  function Resolve(a: AsmLine, labels: Labels): (r: Result<(u16, Labels), Panic>)
    ensures r.Ok? ==> r.value.1 == labels
    ensures a.opcode.Some? ==> r == Ok((a.opcode.value, labels))
    ensures r.Err? ==> a.opcode.None? && !ParseAsmLine(a.line, labels, a.memoryPosition).result.Opcode?
    ensures a.opcode.None? ==> var p := ParseAsmLine(a.line, labels, a.memoryPosition);
      (p.result.Opcode? ==> r == Ok((p.result.value, labels))) &&
      (p.result.Failed? ==> r == Err(InvalidAsmLine(a.line))) &&
      (p.result.Panicked? ==> r == Err(p.result.panic))
  {
    if a.opcode.Some? then Ok((a.opcode.value, labels))
    else
      var p := ParseAsmLine(a.line, labels, a.memoryPosition);
      match p.result
      case Opcode(v) => Ok((v, p.labels))
      case Failed(_) => Err(InvalidAsmLine(a.line))
      case Panicked(k) => Err(k)
  }

  /** How pass 2 gets the opcode of a recorded line under a table. */
  type LineResolver = (AsmLine, Labels) -> Result<(u16, Labels), Panic>

  /**
   * `r` is `out` followed by two bytes per recorded line, high byte first:
   * every line resolves under `labels`, and is written as the opcode it
   * resolves to.
   */
  ghost predicate WrittenBy(resolve: LineResolver, asmLines: seq<AsmLine>, labels: Labels, out: seq<u8>, r: seq<u8>)
  {
    |r| == |out| + 2 * |asmLines| &&
    r[..|out|] == out &&
    forall i :: 0 <= i < |asmLines| ==>
      resolve(asmLines[i], labels).Ok? &&
      r[|out| + 2 * i] == HighByte(resolve(asmLines[i], labels).value.0) &&
      r[|out| + 2 * i + 1] == LowByte(resolve(asmLines[i], labels).value.0)
  }

  /** The same, with the lines resolved as pass 2 of `assemble` does. */
  ghost predicate WrittenOut(asmLines: seq<AsmLine>, labels: Labels, out: seq<u8>, r: seq<u8>)
  {
    WrittenBy(Resolve, asmLines, labels, out, r)
  }

  /** Writing one line and then the rest writes all of them. */
  lemma WrittenOutStep(asmLines: seq<AsmLine>, labels: Labels, opcode: u16, out: seq<u8>, r: seq<u8>)
    requires asmLines != [] && Resolve(asmLines[0], labels) == Ok((opcode, labels))
    requires WrittenOut(asmLines[1..], labels, out + Bytes(opcode), r)
    ensures WrittenOut(asmLines, labels, out, r)
  {
    WrittenByStep(Resolve, asmLines, labels, opcode, out, r);
  }

  /** The same, with any resolver. */
  lemma WrittenByStep(resolve: LineResolver, asmLines: seq<AsmLine>, labels: Labels, opcode: u16, out: seq<u8>, r: seq<u8>)
    requires asmLines != [] && resolve(asmLines[0], labels) == Ok((opcode, labels))
    requires WrittenBy(resolve, asmLines[1..], labels, out + Bytes(opcode), r)
    ensures WrittenBy(resolve, asmLines, labels, out, r)
  {
    var k := |out|;
    var next := out + Bytes(opcode);
    assert r[..k] == out by {
      assert r[..k + 2][..k] == next[..k];
    }
    forall i | 0 <= i < |asmLines|
      ensures resolve(asmLines[i], labels).Ok?
      ensures r[k + 2 * i] == HighByte(resolve(asmLines[i], labels).value.0)
      ensures r[k + 2 * i + 1] == LowByte(resolve(asmLines[i], labels).value.0)
    {
      if i == 0 {
        assert r[..k + 2][k] == r[k] && r[..k + 2][k + 1] == r[k + 1];
      } else {
        var j := i - 1;
        assert asmLines[1..][j] == asmLines[i];
        assert k + 2 * i == |next| + 2 * j;
      }
    }
  }

  /**
   * Pass 2 (lines 51-64) over the recorded lines: each line's opcode is resolved
   * and appended to `out` as two big-endian bytes. It fails exactly when some
   * line does not resolve.
   */
  function Pass2(asmLines: seq<AsmLine>, labels: Labels, out: seq<u8>): (r: Result<seq<u8>, Panic>)
    ensures r.Ok? ==> WrittenOut(asmLines, labels, out, r.value)
    ensures r.Err? ==> exists i :: 0 <= i < |asmLines| && Resolve(asmLines[i], labels).Err?
    decreases |asmLines|
  {
    if asmLines == [] then
      assert out[..|out|] == out;
      Ok(out)
    else match Resolve(asmLines[0], labels)
      case Err(k) => Err(k)
      case Ok((opcode, labels')) =>
        var r := Pass2(asmLines[1..], labels', out + Bytes(opcode));
        if r.Ok? then
          WrittenOutStep(asmLines, labels, opcode, out, r.value);
          r
        else
          var i :| 0 <= i < |asmLines[1..]| && Resolve(asmLines[1..][i], labels).Err?;
          assert asmLines[i + 1] == asmLines[1..][i];
          r
  }

  /** What `assemble` produces for the lines of a source file. */
  function Assembled(lines: seq<string>): Result<seq<u8>, Panic>
  {
    match Pass1(lines, FirstPass([], map[], ProgramStart))
    case Err(k) => Err(k)
    case Ok(st) => Pass2(st.asmLines, st.labels, [])
  }

  /** `assemble`, over the lines already read from the file. */
  method Assemble(lines: seq<string>) returns (r: Result<seq<u8>, Panic>)
    ensures r == Assembled(lines)
  {
    var first := FirstPassOver(lines);
    if first.Err? {
      return Err(first.error);
    }
    r := SecondPassOver(first.value.asmLines, first.value.labels);
  }

  /** The first loop of `assemble` (lines 29-49). */
  method FirstPassOver(lines: seq<string>) returns (r: Result<FirstPass, Panic>)
    ensures r == Pass1(lines, FirstPass([], map[], ProgramStart))
  {
    var labels: Labels := map[];
    var asmLines: seq<AsmLine> := [];
    var memoryPosition: u16 := ProgramStart;
    var i := 0;
    while i < |lines|
      invariant 0 <= i <= |lines|
      invariant Pass1(lines, FirstPass([], map[], ProgramStart)) == Pass1(lines[i..], FirstPass(asmLines, labels, memoryPosition))
    {
      var line := lines[i];
      var p := ParseAsmLine(line, labels, memoryPosition);
      assert lines[i..][0] == line && lines[i..][1..] == lines[i + 1..];
      if p.result.Panicked? {
        return Err(p.result.panic);
      }
      labels := p.labels;
      if p.result.Opcode? {
        asmLines := asmLines + [AsmLine(line, Some(p.result.value), memoryPosition)];
      } else {
        asmLines := asmLines + [AsmLine(line, None, memoryPosition)];
      }
      if memoryPosition + 2 > 0xFFFF {
        return Err(PositionOverflow);
      }
      memoryPosition := memoryPosition + 2;
      i := i + 1;
    }
    assert lines[i..] == [];
    return Ok(FirstPass(asmLines, labels, memoryPosition));
  }

  /** The second loop of `assemble` (lines 51-66). */
  method SecondPassOver(asmLines: seq<AsmLine>, table: Labels) returns (r: Result<seq<u8>, Panic>)
    ensures r == Pass2(asmLines, table, [])
  {
    var labels := table;
    var instructions: seq<u8> := [];
    var j := 0;
    while j < |asmLines|
      invariant 0 <= j <= |asmLines|
      invariant Pass2(asmLines, table, []) == Pass2(asmLines[j..], labels, instructions)
    {
      assert asmLines[j..][0] == asmLines[j] && asmLines[j..][1..] == asmLines[j + 1..];
      var resolved := ResolveLine(asmLines[j], labels);
      if resolved.Err? {
        return Err(resolved.error);
      }
      var opcode;
      opcode, labels := resolved.value.0, resolved.value.1;
      ghost var written := instructions;
      instructions := instructions + [HighByte(opcode)];
      instructions := instructions + [LowByte(opcode)];
      assert instructions == written + Bytes(opcode);
      j := j + 1;
    }
    assert asmLines[j..] == [];
    return Ok(instructions);
  }

  /** The body of the second loop for one recorded line (lines 52-60). */
  method ResolveLine(asmLine: AsmLine, labels: Labels) returns (r: Result<(u16, Labels), Panic>)
    ensures r == Resolve(asmLine, labels)
  {
    if asmLine.opcode.Some? {
      return Ok((asmLine.opcode.value, labels));
    }
    var p := ParseAsmLine(asmLine.line, labels, asmLine.memoryPosition);
    if p.result.Opcode? {
      return Ok((p.result.value, p.labels));
    } else if p.result.Panicked? {
      return Err(p.result.panic);
    }
    return Err(InvalidAsmLine(asmLine.line));
  }
}
