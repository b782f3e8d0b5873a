/**
 * What `ParseAsmLine` writes for each mnemonic and operand shape of the CHIP-8
 * assembly language: for every register digit, byte, nibble and address, the
 * opcode of the CHIP-8 instruction set (Cowgod's Chip-8 Technical Reference
 * v1.0, section 3.1) with those operands in their nibbles.
 */
module Encoding {
  import opened Wrappers
  import opened Words
  import opened Text
  import opened Assembler

  predicate IsHexDigit(c: char)
  {
    DigitValue(c, 16).Some?
  }

  function Nibble(c: char): nat
    requires IsHexDigit(c)
  {
    DigitValue(c, 16).value
  }

  /** The 16-bit word whose hexadecimal digits are `a b c d`. */
  function Word(a: nat, b: nat, c: nat, d: nat): nat
  {
    a * 0x1000 + b * 0x100 + c * 0x10 + d
  }

  /** A register operand token: `V`, the register digit, then `,` or nothing. */
  function Reg(c: char, comma: string): string
  {
    "V" + [c] + comma
  }

  /** A hexadecimal literal token. */
  function Hex(digits: string): string
  {
    "0x" + digits
  }

  // ---------------------------------------------------------------------------
  // Tokens and operands
  // ---------------------------------------------------------------------------

  /** No character the assembler treats specially is a hexadecimal digit. */
  lemma NotSpecial(c: char)
    requires IsHexDigit(c)
    ensures c != 'V' && c != ',' && c != 'x' && c != ' ' && c != ';' && c != '+' && c != ':'
  {
  }

  /** Tokens that, written one space apart, make a comment-free line without leading or trailing spaces. */
  predicate Plain(parts: seq<string>)
  {
    |parts| >= 1 && parts[0] != [] && parts[|parts| - 1] != [] &&
    forall i :: 0 <= i < |parts| ==> ' ' !in parts[i] && ';' !in parts[i]
  }

  /** Plain two, three and four tokens. */
  lemma PlainTwo(a: string, b: string)
    requires a != [] && ' ' !in a && ';' !in a
    requires b != [] && ' ' !in b && ';' !in b
    ensures Plain([a, b])
  {
    forall i | 0 <= i < 2
      ensures ' ' !in [a, b][i] && ';' !in [a, b][i]
    {
      if i == 0 {} else {}
    }
  }

  lemma PlainThree(a: string, b: string, c: string)
    requires a != [] && ' ' !in a && ';' !in a
    requires b != [] && ' ' !in b && ';' !in b
    requires c != [] && ' ' !in c && ';' !in c
    ensures Plain([a, b, c])
  {
    forall i | 0 <= i < 3
      ensures ' ' !in [a, b, c][i] && ';' !in [a, b, c][i]
    {
      if i == 0 {} else if i == 1 {} else {}
    }
  }

  lemma PlainFour(a: string, b: string, c: string, d: string)
    requires a != [] && ' ' !in a && ';' !in a
    requires b != [] && ' ' !in b && ';' !in b
    requires c != [] && ' ' !in c && ';' !in c
    requires d != [] && ' ' !in d && ';' !in d
    ensures Plain([a, b, c, d])
  {
    forall i | 0 <= i < 4
      ensures ' ' !in [a, b, c, d][i] && ';' !in [a, b, c, d][i]
    {
      if i == 0 {} else if i == 1 {} else if i == 2 {} else {}
    }
  }

  /** A line of tokens separated by single spaces, with no comment, tokenizes back into those tokens. */
  lemma TokensOfJoin(parts: seq<string>)
    requires Plain(parts)
    ensures StripComment(Join(parts, ' ')) == Join(parts, ' ') != []
    ensures Tokens(Join(parts, ' ')) == parts
  {
    var line := Join(parts, ' ');
    JoinExcludes(parts, ' ', ';');
    JoinStarts(parts, ' ');
    JoinEnds(parts, ' ');
    assert line[0] == parts[0][0];
    assert !StartsWith(line, " ");
    assert line[|line| - 1] == parts[|parts| - 1][|parts[|parts| - 1]| - 1];
    assert !EndsWith(line, " ");
    SplitJoin(parts, ' ');
  }

  /** Such a line parses as its tokens. */
  lemma ParseLine(parts: seq<string>, labels: Labels, position: u16)
    requires Plain(parts)
    ensures ParseAsmLine(Join(parts, ' '), labels, position) == ParseTokens(parts, labels, position)
  {
    TokensOfJoin(parts);
  }

  lemma JoinThree(a: string, b: string, c: string, separator: char)
    ensures Join([a, b, c], separator) == a + [separator] + b + [separator] + c
  {
    assert [a, b, c][1..] == [b, c];
    assert [b, c][1..] == [c];
    assert Join([b, c], separator) == b + [separator] + c;
    assert Join([a, b, c], separator) == a + [separator] + (b + [separator] + c);
  }

  lemma JoinFour(a: string, b: string, c: string, d: string, separator: char)
    ensures Join([a, b, c, d], separator) == a + [separator] + b + [separator] + c + [separator] + d
  {
    assert [a, b, c, d][1..] == [b, c, d];
    JoinThree(b, c, d, separator);
    assert Join([a, b, c, d], separator) == a + [separator] + (b + [separator] + c + [separator] + d);
  }

  /** A register token `V<c>` or `V<c>,` gives the register digit `c`. */
  lemma RegisterToken(c: char, comma: string)
    requires IsHexDigit(c)
    requires comma == "" || comma == ","
    ensures TrimEndMatches(TrimStartMatches(Reg(c, comma), "V"), ",") == [c]
  {
    NotSpecial(c);
    assert Reg(c, comma) == "V" + ([c] + comma);
    HeadDiffers([c] + comma, "V");
    TrimStartOnce("V", [c] + comma);
    LastDiffers([c], ",");
    if comma == "," {
      TrimEndOnce([c], ",");
    } else {
      assert [c] + comma == [c];
    }
  }

  /** A register token is one token, with no comment, and it starts with `V`. */
  lemma RegisterChars(c: char, comma: string)
    requires IsHexDigit(c)
    requires comma == "" || comma == ","
    ensures Reg(c, comma) != [] && ' ' !in Reg(c, comma) && ';' !in Reg(c, comma) && StartsWith(Reg(c, comma), "V")
  {
    NotSpecial(c);
    var r := Reg(c, comma);
    forall i | 0 <= i < |r|
      ensures r[i] != ' ' && r[i] != ';'
    {
      assert r[i] == 'V' || r[i] == c || r[i] == ',';
    }
    assert r[..1] == "V";
  }

  /** A hexadecimal literal is one token, with no comment, and it does not start with `V`. */
  lemma HexChars(h: string)
    requires forall i :: 0 <= i < |h| ==> IsHexDigit(h[i])
    ensures ' ' !in Hex(h) && ';' !in Hex(h) && !StartsWith(Hex(h), "V")
  {
    var t := Hex(h);
    forall i | 0 <= i < |t|
      ensures t[i] != ' ' && t[i] != ';'
    {
      if i >= 2 {
        assert t[i] == h[i - 2];
        NotSpecial(h[i - 2]);
      }
    }
    HeadDiffers(t, "V");
  }

  /** A `0x` literal loses exactly its prefix. */
  lemma HexLiteral(h: string)
    requires h != [] && forall i :: 0 <= i < |h| ==> IsHexDigit(h[i])
    ensures TrimStartMatches(Hex(h), "0x") == h
  {
    NotSpecial(h[0]);
    if |h| >= 2 {
      NotSpecial(h[1]);
    }
    TrimStartOnce("0x", h);
  }

  /** The value of four hexadecimal digits. */
  lemma FourDigits(a: char, b: char, c: char, d: char)
    requires IsHexDigit(a) && IsHexDigit(b) && IsHexDigit(c) && IsHexDigit(d)
    ensures ParseU16([a, b, c, d], 16) == Some(Word(Nibble(a), Nibble(b), Nibble(c), Nibble(d)))
  {
    assert [a][..0] == [];
    assert DigitsValue([a], 16) == Some(Nibble(a));
    assert [a, b][..1] == [a];
    assert DigitsValue([a, b], 16) == Some(Nibble(a) * 0x10 + Nibble(b));
    assert [a, b, c][..2] == [a, b];
    assert DigitsValue([a, b, c], 16) == Some(Nibble(a) * 0x100 + Nibble(b) * 0x10 + Nibble(c));
    assert [a, b, c, d][..3] == [a, b, c];
    assert DigitsValue([a, b, c, d], 16) == Some(Word(Nibble(a), Nibble(b), Nibble(c), Nibble(d)));
    assert a != '+';
  }

  lemma JoinTwo(a: string, b: string, separator: char)
    ensures Join([a, b], separator) == a + [separator] + b
  {
    assert [a, b][1..] == [b];
  }

  /** The operands of `<mnemonic> Vx, 0xkk` (one or two digits of `kk`). */
  lemma ByteOperands(mnemonic: string, x: char, k: string)
    requires mnemonic != [] && ' ' !in mnemonic && ';' !in mnemonic
    requires IsHexDigit(x) && k != [] && forall i :: 0 <= i < |k| ==> IsHexDigit(k[i])
    ensures var parts := [mnemonic, Reg(x, ","), Hex(k)];
      Plain(parts) &&
      RegisterOperand(parts, 1) == [x] && RegisterOperand(parts, 2) == [] &&
      ByteOperand(parts, []) == PadLeft(k, 2, '0') && NibbleOperand(parts) == []
  {
    var parts := [mnemonic, Reg(x, ","), Hex(k)];
    assert Plain(parts) by {
      RegisterChars(x, ",");
      HexChars(k);
      PlainThree(mnemonic, Reg(x, ","), Hex(k));
    }
    RegisterAt(parts, 1, x, ",");
    assert RegisterOperand(parts, 2) == [] by {
      HexChars(k);
    }
    assert ByteOperand(parts, []) == PadLeft(k, 2, '0') by {
      HexLiteral(k);
    }
  }

  /** The operands of `<mnemonic> Vx, Vy` and `<mnemonic> Vx Vy`. */
  lemma PairOperands(mnemonic: string, x: char, comma: string, y: char)
    requires mnemonic != [] && ' ' !in mnemonic && ';' !in mnemonic
    requires IsHexDigit(x) && IsHexDigit(y) && (comma == "" || comma == ",")
    ensures var parts := [mnemonic, Reg(x, comma), Reg(y, "")];
      Plain(parts) &&
      RegisterOperand(parts, 1) == [x] && RegisterOperand(parts, 2) == [y] &&
      ByteOperand(parts, [y]) == [] && NibbleOperand(parts) == []
  {
    var parts := [mnemonic, Reg(x, comma), Reg(y, "")];
    assert Plain(parts) by {
      RegisterChars(x, comma);
      RegisterChars(y, "");
      PlainThree(mnemonic, Reg(x, comma), Reg(y, ""));
    }
    RegisterAt(parts, 1, x, comma);
    RegisterAt(parts, 2, y, "");
  }

  /** The operand of `<mnemonic> Vx`. */
  lemma SingleOperand(mnemonic: string, x: char)
    requires mnemonic != [] && ' ' !in mnemonic && ';' !in mnemonic
    requires IsHexDigit(x)
    ensures var parts := [mnemonic, Reg(x, "")];
      Plain(parts) &&
      RegisterOperand(parts, 1) == [x] && RegisterOperand(parts, 2) == [] &&
      ByteOperand(parts, []) == [] && NibbleOperand(parts) == []
  {
    var parts := [mnemonic, Reg(x, "")];
    assert Plain(parts) by {
      RegisterChars(x, "");
      PlainTwo(mnemonic, Reg(x, ""));
    }
    RegisterAt(parts, 1, x, "");
  }

  /** The operand of `<mnemonic> 0xnnn`: the address itself. */
  lemma AddressOperand(mnemonic: string, a: char, b: char, c: char, labels: Labels)
    requires mnemonic != [] && ' ' !in mnemonic && ';' !in mnemonic
    requires IsHexDigit(a) && IsHexDigit(b) && IsHexDigit(c)
    ensures var parts := [mnemonic, Hex([a, b, c])];
      Plain(parts) &&
      RegisterOperand(parts, 1) == [] && RegisterOperand(parts, 2) == [] &&
      ByteOperand(parts, []) == [] && NibbleOperand(parts) == [] &&
      GetAddress(parts[1], labels) == Ok([a, b, c])
  {
    var parts := [mnemonic, Hex([a, b, c])];
    assert Plain(parts) && RegisterOperand(parts, 1) == [] by {
      HexChars([a, b, c]);
      PlainTwo(mnemonic, Hex([a, b, c]));
    }
    assert GetAddress(parts[1], labels) == Ok([a, b, c]) by {
      HexLiteral([a, b, c]);
    }
  }

  /** The operands of `<mnemonic> 0xh` with one to three digits: the address is `h` zero-padded to three. */
  lemma ShortAddressOperand(mnemonic: string, h: string, labels: Labels)
    requires mnemonic != [] && ' ' !in mnemonic && ';' !in mnemonic
    requires 1 <= |h| <= 3 && forall i :: 0 <= i < |h| ==> IsHexDigit(h[i])
    ensures var parts := [mnemonic, Hex(h)];
      Plain(parts) &&
      RegisterOperand(parts, 1) == [] && RegisterOperand(parts, 2) == [] &&
      ByteOperand(parts, []) == [] && NibbleOperand(parts) == [] &&
      GetAddress(parts[1], labels) == Ok(PadLeft(h, 3, '0'))
  {
    var parts := [mnemonic, Hex(h)];
    assert Plain(parts) && RegisterOperand(parts, 1) == [] by {
      HexChars(h);
      PlainTwo(mnemonic, Hex(h));
    }
    assert GetAddress(parts[1], labels) == Ok(PadLeft(h, 3, '0')) by {
      HexLiteral(h);
    }
  }

  /** The operands of `<mnemonic> <first> 0xnnn`, where the first operand is not a register pair's second half. */
  lemma SecondAddressOperand(mnemonic: string, first: string, a: char, b: char, c: char, labels: Labels)
    requires mnemonic != [] && ' ' !in mnemonic && ';' !in mnemonic
    requires first != [] && ' ' !in first && ';' !in first
    requires IsHexDigit(a) && IsHexDigit(b) && IsHexDigit(c)
    ensures var parts := [mnemonic, first, Hex([a, b, c])];
      Plain(parts) &&
      RegisterOperand(parts, 2) == [] && ByteOperand(parts, []) == [a, b, c] && NibbleOperand(parts) == [] &&
      GetAddress(parts[2], labels) == Ok([a, b, c])
  {
    var parts := [mnemonic, first, Hex([a, b, c])];
    assert Plain(parts) && RegisterOperand(parts, 2) == [] by {
      HexChars([a, b, c]);
      PlainThree(mnemonic, first, Hex([a, b, c]));
    }
    assert ByteOperand(parts, []) == [a, b, c] && GetAddress(parts[2], labels) == Ok([a, b, c]) by {
      HexLiteral([a, b, c]);
    }
  }

  /** The operands of `DRW Vx, Vy, 0xn`. */
  lemma DrawOperands(x: char, y: char, n: char)
    requires IsHexDigit(x) && IsHexDigit(y) && IsHexDigit(n)
    ensures var parts := ["DRW", Reg(x, ","), Reg(y, ","), Hex([n])];
      Plain(parts) &&
      RegisterOperand(parts, 1) == [x] && RegisterOperand(parts, 2) == [y] &&
      ByteOperand(parts, [y]) == [] && NibbleOperand(parts) == [n]
  {
    var parts := ["DRW", Reg(x, ","), Reg(y, ","), Hex([n])];
    RegisterChars(x, ",");
    RegisterChars(y, ",");
    HexChars([n]);
    PlainFour("DRW", Reg(x, ","), Reg(y, ","), Hex([n]));
    RegisterAt(parts, 1, x, ",");
    RegisterAt(parts, 2, y, ",");
    HexLiteral([n]);
  }

  /** A register token at position `i` gives its register digit. */
  lemma RegisterAt(parts: seq<string>, i: nat, c: char, comma: string)
    requires i < |parts| && parts[i] == Reg(c, comma)
    requires IsHexDigit(c) && (comma == "" || comma == ",")
    ensures RegisterOperand(parts, i) == [c]
  {
    RegisterChars(c, comma);
    RegisterToken(c, comma);
  }

  /** The operands of `<mnemonic> <keyword> Vy`, where the keyword is not a register. */
  lemma TargetOperands(mnemonic: string, keyword: string, y: char)
    requires mnemonic != [] && ' ' !in mnemonic && ';' !in mnemonic
    requires keyword != [] && ' ' !in keyword && ';' !in keyword && keyword[0] != 'V'
    requires IsHexDigit(y)
    ensures var parts := [mnemonic, keyword, Reg(y, "")];
      Plain(parts) &&
      RegisterOperand(parts, 1) == [] && RegisterOperand(parts, 2) == [y] &&
      ByteOperand(parts, [y]) == [] && NibbleOperand(parts) == []
  {
    var parts := [mnemonic, keyword, Reg(y, "")];
    assert Plain(parts) by {
      RegisterChars(y, "");
      PlainThree(mnemonic, keyword, Reg(y, ""));
    }
    assert RegisterOperand(parts, 1) == [] by {
      HeadDiffers(keyword, "V");
    }
    RegisterAt(parts, 2, y, "");
  }

  /** The operands of `LD Vx, <keyword>`, where the keyword is neither a register nor a number. */
  lemma SourceOperands(x: char, keyword: string)
    requires keyword != [] && ' ' !in keyword && ';' !in keyword && keyword[0] != 'V' && keyword[0] != '0'
    requires IsHexDigit(x)
    requires ParseU16(keyword, 10).None?
    ensures var parts := ["LD", Reg(x, ","), keyword];
      Plain(parts) &&
      RegisterOperand(parts, 1) == [x] && RegisterOperand(parts, 2) == [] &&
      ByteOperand(parts, []) == [] && NibbleOperand(parts) == []
  {
    var parts := ["LD", Reg(x, ","), keyword];
    assert Plain(parts) by {
      RegisterChars(x, ",");
      PlainThree("LD", Reg(x, ","), keyword);
    }
    RegisterAt(parts, 1, x, ",");
    assert RegisterOperand(parts, 2) == [] && ByteOperand(parts, []) == [] by {
      HeadDiffers(keyword, "V");
      HeadDiffers(keyword, "0x");
    }
  }

  /**
   * Where the opcode table gives digits that parse, the tokens assemble to
   * their value and the label table is left alone.
   */
  lemma OpcodeOfTokens(command: string, parts: seq<string>, nnn: string, digits: string, opcode: u16,
                       labels: Labels, position: u16)
    requires |parts| >= 1 && parts[0] == command && !EndsWith(command, ":")
    requires if RegisterOperand(parts, 1) == [] && RegisterOperand(parts, 2) == [] && |parts| == 2
      then GetAddress(parts[1], labels) == Ok(nnn) else nnn == []
    requires OpcodeText(command, parts, RegisterOperand(parts, 1), RegisterOperand(parts, 2),
      ByteOperand(parts, RegisterOperand(parts, 2)), nnn, NibbleOperand(parts), labels) == Digits(digits)
    requires ParseU16(digits, 16) == Some(opcode)
    ensures ParseTokens(parts, labels, position) == Parse(Opcode(opcode), labels)
  {
  }

  // ---------------------------------------------------------------------------
  // The opcode table (lines 139-287), one lemma per mnemonic and operand shape,
  // stated on the tokens; `ParseLine` carries each over to the written line.
  // ---------------------------------------------------------------------------

  /** `SE Vx, 0xkk` is `3xkk`. */
  lemma EncodeSkipEqualByte(x: char, k1: char, k2: char, labels: Labels, position: u16)
    requires IsHexDigit(x) && IsHexDigit(k1) && IsHexDigit(k2)
    ensures ParseTokens(["SE", Reg(x, ","), Hex([k1, k2])], labels, position) == Parse(Opcode(Word(0x3, Nibble(x), Nibble(k1), Nibble(k2))), labels)
  {
    var parts := ["SE", Reg(x, ","), Hex([k1, k2])];
    var digits := "3" + [x] + [k1, k2];
    assert OpcodeText("SE", parts, [x], [], [k1, k2], [], [], labels) == Digits(digits);
    assert ParseU16(digits, 16) == Some(Word(0x3, Nibble(x), Nibble(k1), Nibble(k2))) by {
      FourDigits('3', x, k1, k2);
      assert digits == ['3', x, k1, k2];
    }
    assert RegisterOperand(parts, 1) == [x] && RegisterOperand(parts, 2) == [] && ByteOperand(parts, []) == [k1, k2] by {
      ByteOperands("SE", x, [k1, k2]);
      assert PadLeft([k1, k2], 2, '0') == [k1, k2];
    }
    OpcodeOfTokens("SE", parts, [], digits, Word(0x3, Nibble(x), Nibble(k1), Nibble(k2)), labels, position);
  }

  /** `SNE Vx, 0xkk` is `4xkk`. */
  lemma EncodeSkipNotEqualByte(x: char, k1: char, k2: char, labels: Labels, position: u16)
    requires IsHexDigit(x) && IsHexDigit(k1) && IsHexDigit(k2)
    ensures ParseTokens(["SNE", Reg(x, ","), Hex([k1, k2])], labels, position) == Parse(Opcode(Word(0x4, Nibble(x), Nibble(k1), Nibble(k2))), labels)
  {
    var parts := ["SNE", Reg(x, ","), Hex([k1, k2])];
    var digits := "4" + [x] + [k1, k2];
    assert OpcodeText("SNE", parts, [x], [], [k1, k2], [], [], labels) == Digits(digits);
    assert ParseU16(digits, 16) == Some(Word(0x4, Nibble(x), Nibble(k1), Nibble(k2))) by {
      FourDigits('4', x, k1, k2);
      assert digits == ['4', x, k1, k2];
    }
    assert RegisterOperand(parts, 1) == [x] && RegisterOperand(parts, 2) == [] && ByteOperand(parts, []) == [k1, k2] by {
      ByteOperands("SNE", x, [k1, k2]);
      assert PadLeft([k1, k2], 2, '0') == [k1, k2];
    }
    OpcodeOfTokens("SNE", parts, [], digits, Word(0x4, Nibble(x), Nibble(k1), Nibble(k2)), labels, position);
  }

  /** `LD Vx, 0xkk` is `6xkk`. */
  lemma EncodeLoadByte(x: char, k1: char, k2: char, labels: Labels, position: u16)
    requires IsHexDigit(x) && IsHexDigit(k1) && IsHexDigit(k2)
    ensures ParseTokens(["LD", Reg(x, ","), Hex([k1, k2])], labels, position) == Parse(Opcode(Word(0x6, Nibble(x), Nibble(k1), Nibble(k2))), labels)
  {
    var parts := ["LD", Reg(x, ","), Hex([k1, k2])];
    var digits := "6" + [x] + [k1, k2];
    assert OpcodeText("LD", parts, [x], [], [k1, k2], [], [], labels) == Digits(digits);
    assert ParseU16(digits, 16) == Some(Word(0x6, Nibble(x), Nibble(k1), Nibble(k2))) by {
      FourDigits('6', x, k1, k2);
      assert digits == ['6', x, k1, k2];
    }
    assert RegisterOperand(parts, 1) == [x] && RegisterOperand(parts, 2) == [] && ByteOperand(parts, []) == [k1, k2] by {
      ByteOperands("LD", x, [k1, k2]);
      assert PadLeft([k1, k2], 2, '0') == [k1, k2];
    }
    OpcodeOfTokens("LD", parts, [], digits, Word(0x6, Nibble(x), Nibble(k1), Nibble(k2)), labels, position);
  }

  /** `ADD Vx, 0xkk` is `7xkk`. */
  lemma EncodeAddByte(x: char, k1: char, k2: char, labels: Labels, position: u16)
    requires IsHexDigit(x) && IsHexDigit(k1) && IsHexDigit(k2)
    ensures ParseTokens(["ADD", Reg(x, ","), Hex([k1, k2])], labels, position) == Parse(Opcode(Word(0x7, Nibble(x), Nibble(k1), Nibble(k2))), labels)
  {
    var parts := ["ADD", Reg(x, ","), Hex([k1, k2])];
    var digits := "7" + [x] + [k1, k2];
    assert OpcodeText("ADD", parts, [x], [], [k1, k2], [], [], labels) == Digits(digits);
    assert ParseU16(digits, 16) == Some(Word(0x7, Nibble(x), Nibble(k1), Nibble(k2))) by {
      FourDigits('7', x, k1, k2);
      assert digits == ['7', x, k1, k2];
    }
    assert RegisterOperand(parts, 1) == [x] && RegisterOperand(parts, 2) == [] && ByteOperand(parts, []) == [k1, k2] by {
      ByteOperands("ADD", x, [k1, k2]);
      assert PadLeft([k1, k2], 2, '0') == [k1, k2];
    }
    OpcodeOfTokens("ADD", parts, [], digits, Word(0x7, Nibble(x), Nibble(k1), Nibble(k2)), labels, position);
  }

  /** `RND Vx, 0xkk` is `Cxkk`. */
  lemma EncodeRandomByte(x: char, k1: char, k2: char, labels: Labels, position: u16)
    requires IsHexDigit(x) && IsHexDigit(k1) && IsHexDigit(k2)
    ensures ParseTokens(["RND", Reg(x, ","), Hex([k1, k2])], labels, position) == Parse(Opcode(Word(0xC, Nibble(x), Nibble(k1), Nibble(k2))), labels)
  {
    var parts := ["RND", Reg(x, ","), Hex([k1, k2])];
    var digits := "C" + [x] + [k1, k2];
    assert OpcodeText("RND", parts, [x], [], [k1, k2], [], [], labels) == Digits(digits);
    assert ParseU16(digits, 16) == Some(Word(0xC, Nibble(x), Nibble(k1), Nibble(k2))) by {
      FourDigits('C', x, k1, k2);
      assert digits == ['C', x, k1, k2];
    }
    assert RegisterOperand(parts, 1) == [x] && RegisterOperand(parts, 2) == [] && ByteOperand(parts, []) == [k1, k2] by {
      ByteOperands("RND", x, [k1, k2]);
      assert PadLeft([k1, k2], 2, '0') == [k1, k2];
    }
    OpcodeOfTokens("RND", parts, [], digits, Word(0xC, Nibble(x), Nibble(k1), Nibble(k2)), labels, position);
  }

  /** `LD Vx, 0xk` with one digit is `6x0k`: the byte is zero-padded to two digits. */
  lemma EncodeLoadShortByte(x: char, k: char, labels: Labels, position: u16)
    requires IsHexDigit(x) && IsHexDigit(k)
    ensures ParseTokens(["LD", Reg(x, ","), Hex([k])], labels, position) == Parse(Opcode(Word(0x6, Nibble(x), 0x0, Nibble(k))), labels)
  {
    var parts := ["LD", Reg(x, ","), Hex([k])];
    var digits := "6" + [x] + ['0', k];
    assert ParseU16(digits, 16) == Some(Word(0x6, Nibble(x), 0x0, Nibble(k))) by {
      FourDigits('6', x, '0', k);
      assert digits == ['6', x, '0', k];
    }
    LoadByteText(x, [k], ['0', k], labels);
    ShortByteOperands(x, k);
    OpcodeOfTokens("LD", parts, [], digits, Word(0x6, Nibble(x), 0x0, Nibble(k)), labels, position);
  }

  /** A one-digit byte operand is padded with a leading `0`. */
  lemma ShortByteOperands(x: char, k: char)
    requires IsHexDigit(x) && IsHexDigit(k)
    ensures var parts := ["LD", Reg(x, ","), Hex([k])];
      RegisterOperand(parts, 1) == [x] && RegisterOperand(parts, 2) == [] && ByteOperand(parts, []) == ['0', k]
  {
    ByteOperands("LD", x, [k]);
    assert PadLeft([k], 2, '0') == ['0', k];
  }

  /** A decimal numeral: digits `0`-`9` only. */
  predicate Decimal(d: string)
  {
    d != [] && forall i :: 0 <= i < |d| ==> '0' <= d[i] <= '9'
  }

  /**
   * `LD Vx, n` with `n` a decimal numeral below 256 is `6xkk`, where `kk` is
   * `n` in hexadecimal: `get_hex_str` rewrites it in hexadecimal, and the byte
   * is zero-padded to two digits.
   */
  lemma EncodeLoadDecimalByte(x: char, d: string, n: nat, labels: Labels, position: u16)
    requires IsHexDigit(x) && Decimal(d) && ParseU16(d, 10) == Some(n) && n < 0x100
    ensures ParseTokens(["LD", Reg(x, ","), d], labels, position) == Parse(Opcode(Word(0x6, Nibble(x), n / 16, n % 16)), labels)
  {
    var parts := ["LD", Reg(x, ","), d];
    var kk := [HexDigit(n / 16), HexDigit(n % 16)];
    var digits := "6" + [x] + kk;
    DecimalByteOperands(x, d, n, kk);
    LoadDecimalText(x, d, kk, labels);
    assert ParseU16(digits, 16) == Some(Word(0x6, Nibble(x), n / 16, n % 16)) by {
      FourDigits('6', x, kk[0], kk[1]);
      assert digits == ['6', x, kk[0], kk[1]];
    }
    OpcodeOfTokens("LD", parts, [], digits, Word(0x6, Nibble(x), n / 16, n % 16), labels, position);
  }

  /** The operands of `LD Vx, n` with a decimal byte: the byte is `n`'s two hexadecimal digits. */
  lemma DecimalByteOperands(x: char, d: string, n: nat, kk: string)
    requires IsHexDigit(x) && Decimal(d) && ParseU16(d, 10) == Some(n) && n < 0x100
    requires kk == [HexDigit(n / 16), HexDigit(n % 16)]
    ensures var parts := ["LD", Reg(x, ","), d];
      RegisterOperand(parts, 1) == [x] && RegisterOperand(parts, 2) == [] &&
      ByteOperand(parts, []) == kk && NibbleOperand(parts) == []
  {
    var parts := ["LD", Reg(x, ","), d];
    RegisterAt(parts, 1, x, ",");
    assert !StartsWith(d, "V") && !StartsWith(d, "0x") by {
      assert '0' <= d[0] <= '9';
      if |d| >= 2 {
        assert '0' <= d[1] <= '9';
      }
    }
    assert GetHexStr(d) == Some(LowerHex(n));
    if n < 16 {
      assert LowerHex(n) == [HexDigit(n)] && HexDigit(0) == '0';
      assert PadLeft(LowerHex(n), 2, '0') == kk;
    } else {
      assert LowerHex(n / 16) == [HexDigit(n / 16)];
      assert LowerHex(n) == kk;
    }
  }

  /** `LD Vx, n` with a decimal numeral `n` reaches the `6xkk` form of the table. */
  lemma LoadDecimalText(x: char, d: string, kk: string, labels: Labels)
    requires IsHexDigit(x) && Decimal(d) && kk != []
    ensures OpcodeText("LD", ["LD", Reg(x, ","), d], [x], [], kk, [], [], labels) == Digits("6" + [x] + kk)
  {
    var parts := ["LD", Reg(x, ","), d];
    assert parts[1] != "I," && parts[1] != "DT," && parts[1] != "ST," && parts[1] != "F," && parts[1] != "B," by {
      assert parts[1][0] == 'V';
    }
    assert parts[2] != "DT" && parts[2] != "K" && parts[2] != "I" by {
      assert '0' <= parts[2][0] <= '9';
    }
  }

  /** `LD Vx, 0x...` falls through every other form of `LD` to `6xkk`. */
  lemma LoadByteText(x: char, k: string, kk: string, labels: Labels)
    requires IsHexDigit(x) && kk != []
    ensures OpcodeText("LD", ["LD", Reg(x, ","), Hex(k)], [x], [], kk, [], [], labels) == Digits("6" + [x] + kk)
  {
    var parts := ["LD", Reg(x, ","), Hex(k)];
    assert parts[1] != "I," && parts[1] != "DT," && parts[1] != "ST," && parts[1] != "F," && parts[1] != "B," by {
      assert parts[1][0] == 'V';
    }
    assert parts[2] != "DT" && parts[2] != "K" && parts[2] != "I" by {
      assert parts[2][0] == '0';
    }
  }


  /** `SE Vx, Vy` (or `SE Vx Vy`) is `5xy0`. */
  lemma EncodeSkipEqualRegisters(x: char, comma: string, y: char, labels: Labels, position: u16)
    requires IsHexDigit(x) && IsHexDigit(y) && (comma == "" || comma == ",")
    ensures ParseTokens(["SE", Reg(x, comma), Reg(y, "")], labels, position) == Parse(Opcode(Word(0x5, Nibble(x), Nibble(y), 0x0)), labels)
  {
    var parts := ["SE", Reg(x, comma), Reg(y, "")];
    var digits := "5" + [x] + [y] + "0";
    assert OpcodeText("SE", parts, [x], [y], [], [], [], labels) == Digits(digits);
    assert ParseU16(digits, 16) == Some(Word(0x5, Nibble(x), Nibble(y), 0x0)) by {
      FourDigits('5', x, y, '0');
      assert digits == ['5', x, y, '0'];
    }
    assert RegisterOperand(parts, 1) == [x] && RegisterOperand(parts, 2) == [y] && ByteOperand(parts, [y]) == [] by {
      PairOperands("SE", x, comma, y);
    }
    OpcodeOfTokens("SE", parts, [], digits, Word(0x5, Nibble(x), Nibble(y), 0x0), labels, position);
  }

  /** `SNE Vx, Vy` (or `SNE Vx Vy`) is `9xy0`. */
  lemma EncodeSkipNotEqualRegisters(x: char, comma: string, y: char, labels: Labels, position: u16)
    requires IsHexDigit(x) && IsHexDigit(y) && (comma == "" || comma == ",")
    ensures ParseTokens(["SNE", Reg(x, comma), Reg(y, "")], labels, position) == Parse(Opcode(Word(0x9, Nibble(x), Nibble(y), 0x0)), labels)
  {
    var parts := ["SNE", Reg(x, comma), Reg(y, "")];
    var digits := "9" + [x] + [y] + "0";
    assert OpcodeText("SNE", parts, [x], [y], [], [], [], labels) == Digits(digits);
    assert ParseU16(digits, 16) == Some(Word(0x9, Nibble(x), Nibble(y), 0x0)) by {
      FourDigits('9', x, y, '0');
      assert digits == ['9', x, y, '0'];
    }
    assert RegisterOperand(parts, 1) == [x] && RegisterOperand(parts, 2) == [y] && ByteOperand(parts, [y]) == [] by {
      PairOperands("SNE", x, comma, y);
    }
    OpcodeOfTokens("SNE", parts, [], digits, Word(0x9, Nibble(x), Nibble(y), 0x0), labels, position);
  }

  /** `LD Vx, Vy` (or `LD Vx Vy`) is `8xy0`. */
  lemma EncodeLoadRegister(x: char, comma: string, y: char, labels: Labels, position: u16)
    requires IsHexDigit(x) && IsHexDigit(y) && (comma == "" || comma == ",")
    ensures ParseTokens(["LD", Reg(x, comma), Reg(y, "")], labels, position) == Parse(Opcode(Word(0x8, Nibble(x), Nibble(y), 0x0)), labels)
  {
    var parts := ["LD", Reg(x, comma), Reg(y, "")];
    var digits := "8" + [x] + [y] + "0";
    assert OpcodeText("LD", parts, [x], [y], [], [], [], labels) == Digits(digits);
    assert ParseU16(digits, 16) == Some(Word(0x8, Nibble(x), Nibble(y), 0x0)) by {
      FourDigits('8', x, y, '0');
      assert digits == ['8', x, y, '0'];
    }
    assert RegisterOperand(parts, 1) == [x] && RegisterOperand(parts, 2) == [y] && ByteOperand(parts, [y]) == [] by {
      PairOperands("LD", x, comma, y);
    }
    OpcodeOfTokens("LD", parts, [], digits, Word(0x8, Nibble(x), Nibble(y), 0x0), labels, position);
  }

  /** `OR Vx, Vy` (or `OR Vx Vy`) is `8xy1`. */
  lemma EncodeOr(x: char, comma: string, y: char, labels: Labels, position: u16)
    requires IsHexDigit(x) && IsHexDigit(y) && (comma == "" || comma == ",")
    ensures ParseTokens(["OR", Reg(x, comma), Reg(y, "")], labels, position) == Parse(Opcode(Word(0x8, Nibble(x), Nibble(y), 0x1)), labels)
  {
    var parts := ["OR", Reg(x, comma), Reg(y, "")];
    var digits := "8" + [x] + [y] + "1";
    assert OpcodeText("OR", parts, [x], [y], [], [], [], labels) == Digits(digits);
    assert ParseU16(digits, 16) == Some(Word(0x8, Nibble(x), Nibble(y), 0x1)) by {
      FourDigits('8', x, y, '1');
      assert digits == ['8', x, y, '1'];
    }
    assert RegisterOperand(parts, 1) == [x] && RegisterOperand(parts, 2) == [y] && ByteOperand(parts, [y]) == [] by {
      PairOperands("OR", x, comma, y);
    }
    OpcodeOfTokens("OR", parts, [], digits, Word(0x8, Nibble(x), Nibble(y), 0x1), labels, position);
  }

  /** `AND Vx, Vy` (or `AND Vx Vy`) is `8xy2`. */
  lemma EncodeAnd(x: char, comma: string, y: char, labels: Labels, position: u16)
    requires IsHexDigit(x) && IsHexDigit(y) && (comma == "" || comma == ",")
    ensures ParseTokens(["AND", Reg(x, comma), Reg(y, "")], labels, position) == Parse(Opcode(Word(0x8, Nibble(x), Nibble(y), 0x2)), labels)
  {
    var parts := ["AND", Reg(x, comma), Reg(y, "")];
    var digits := "8" + [x] + [y] + "2";
    assert OpcodeText("AND", parts, [x], [y], [], [], [], labels) == Digits(digits);
    assert ParseU16(digits, 16) == Some(Word(0x8, Nibble(x), Nibble(y), 0x2)) by {
      FourDigits('8', x, y, '2');
      assert digits == ['8', x, y, '2'];
    }
    assert RegisterOperand(parts, 1) == [x] && RegisterOperand(parts, 2) == [y] && ByteOperand(parts, [y]) == [] by {
      PairOperands("AND", x, comma, y);
    }
    OpcodeOfTokens("AND", parts, [], digits, Word(0x8, Nibble(x), Nibble(y), 0x2), labels, position);
  }

  /** `XOR Vx, Vy` (or `XOR Vx Vy`) is `8xy3`. */
  lemma EncodeXor(x: char, comma: string, y: char, labels: Labels, position: u16)
    requires IsHexDigit(x) && IsHexDigit(y) && (comma == "" || comma == ",")
    ensures ParseTokens(["XOR", Reg(x, comma), Reg(y, "")], labels, position) == Parse(Opcode(Word(0x8, Nibble(x), Nibble(y), 0x3)), labels)
  {
    var parts := ["XOR", Reg(x, comma), Reg(y, "")];
    var digits := "8" + [x] + [y] + "3";
    assert OpcodeText("XOR", parts, [x], [y], [], [], [], labels) == Digits(digits);
    assert ParseU16(digits, 16) == Some(Word(0x8, Nibble(x), Nibble(y), 0x3)) by {
      FourDigits('8', x, y, '3');
      assert digits == ['8', x, y, '3'];
    }
    assert RegisterOperand(parts, 1) == [x] && RegisterOperand(parts, 2) == [y] && ByteOperand(parts, [y]) == [] by {
      PairOperands("XOR", x, comma, y);
    }
    OpcodeOfTokens("XOR", parts, [], digits, Word(0x8, Nibble(x), Nibble(y), 0x3), labels, position);
  }

  /** `ADD Vx, Vy` (or `ADD Vx Vy`) is `8xy4`. */
  lemma EncodeAddRegisters(x: char, comma: string, y: char, labels: Labels, position: u16)
    requires IsHexDigit(x) && IsHexDigit(y) && (comma == "" || comma == ",")
    ensures ParseTokens(["ADD", Reg(x, comma), Reg(y, "")], labels, position) == Parse(Opcode(Word(0x8, Nibble(x), Nibble(y), 0x4)), labels)
  {
    var parts := ["ADD", Reg(x, comma), Reg(y, "")];
    var digits := "8" + [x] + [y] + "4";
    assert OpcodeText("ADD", parts, [x], [y], [], [], [], labels) == Digits(digits);
    assert ParseU16(digits, 16) == Some(Word(0x8, Nibble(x), Nibble(y), 0x4)) by {
      FourDigits('8', x, y, '4');
      assert digits == ['8', x, y, '4'];
    }
    assert RegisterOperand(parts, 1) == [x] && RegisterOperand(parts, 2) == [y] && ByteOperand(parts, [y]) == [] by {
      PairOperands("ADD", x, comma, y);
    }
    OpcodeOfTokens("ADD", parts, [], digits, Word(0x8, Nibble(x), Nibble(y), 0x4), labels, position);
  }

  /** `SUB Vx, Vy` (or `SUB Vx Vy`) is `8xy5`. */
  lemma EncodeSub(x: char, comma: string, y: char, labels: Labels, position: u16)
    requires IsHexDigit(x) && IsHexDigit(y) && (comma == "" || comma == ",")
    ensures ParseTokens(["SUB", Reg(x, comma), Reg(y, "")], labels, position) == Parse(Opcode(Word(0x8, Nibble(x), Nibble(y), 0x5)), labels)
  {
    var parts := ["SUB", Reg(x, comma), Reg(y, "")];
    var digits := "8" + [x] + [y] + "5";
    assert OpcodeText("SUB", parts, [x], [y], [], [], [], labels) == Digits(digits);
    assert ParseU16(digits, 16) == Some(Word(0x8, Nibble(x), Nibble(y), 0x5)) by {
      FourDigits('8', x, y, '5');
      assert digits == ['8', x, y, '5'];
    }
    assert RegisterOperand(parts, 1) == [x] && RegisterOperand(parts, 2) == [y] && ByteOperand(parts, [y]) == [] by {
      PairOperands("SUB", x, comma, y);
    }
    OpcodeOfTokens("SUB", parts, [], digits, Word(0x8, Nibble(x), Nibble(y), 0x5), labels, position);
  }

  /** `SHR Vx, Vy` (or `SHR Vx Vy`) is `8xy6`. */
  lemma EncodeShiftRightPair(x: char, comma: string, y: char, labels: Labels, position: u16)
    requires IsHexDigit(x) && IsHexDigit(y) && (comma == "" || comma == ",")
    ensures ParseTokens(["SHR", Reg(x, comma), Reg(y, "")], labels, position) == Parse(Opcode(Word(0x8, Nibble(x), Nibble(y), 0x6)), labels)
  {
    var parts := ["SHR", Reg(x, comma), Reg(y, "")];
    var digits := "8" + [x] + [y] + "6";
    assert OpcodeText("SHR", parts, [x], [y], [], [], [], labels) == Digits(digits);
    assert ParseU16(digits, 16) == Some(Word(0x8, Nibble(x), Nibble(y), 0x6)) by {
      FourDigits('8', x, y, '6');
      assert digits == ['8', x, y, '6'];
    }
    assert RegisterOperand(parts, 1) == [x] && RegisterOperand(parts, 2) == [y] && ByteOperand(parts, [y]) == [] by {
      PairOperands("SHR", x, comma, y);
    }
    OpcodeOfTokens("SHR", parts, [], digits, Word(0x8, Nibble(x), Nibble(y), 0x6), labels, position);
  }

  /** `SUBN Vx, Vy` (or `SUBN Vx Vy`) is `8xy7`. */
  lemma EncodeSubN(x: char, comma: string, y: char, labels: Labels, position: u16)
    requires IsHexDigit(x) && IsHexDigit(y) && (comma == "" || comma == ",")
    ensures ParseTokens(["SUBN", Reg(x, comma), Reg(y, "")], labels, position) == Parse(Opcode(Word(0x8, Nibble(x), Nibble(y), 0x7)), labels)
  {
    var parts := ["SUBN", Reg(x, comma), Reg(y, "")];
    var digits := "8" + [x] + [y] + "7";
    assert OpcodeText("SUBN", parts, [x], [y], [], [], [], labels) == Digits(digits);
    assert ParseU16(digits, 16) == Some(Word(0x8, Nibble(x), Nibble(y), 0x7)) by {
      FourDigits('8', x, y, '7');
      assert digits == ['8', x, y, '7'];
    }
    assert RegisterOperand(parts, 1) == [x] && RegisterOperand(parts, 2) == [y] && ByteOperand(parts, [y]) == [] by {
      PairOperands("SUBN", x, comma, y);
    }
    OpcodeOfTokens("SUBN", parts, [], digits, Word(0x8, Nibble(x), Nibble(y), 0x7), labels, position);
  }

  /** `SHL Vx, Vy` (or `SHL Vx Vy`) is `8xyE`. */
  lemma EncodeShiftLeftPair(x: char, comma: string, y: char, labels: Labels, position: u16)
    requires IsHexDigit(x) && IsHexDigit(y) && (comma == "" || comma == ",")
    ensures ParseTokens(["SHL", Reg(x, comma), Reg(y, "")], labels, position) == Parse(Opcode(Word(0x8, Nibble(x), Nibble(y), 0xE)), labels)
  {
    var parts := ["SHL", Reg(x, comma), Reg(y, "")];
    var digits := "8" + [x] + [y] + "E";
    assert OpcodeText("SHL", parts, [x], [y], [], [], [], labels) == Digits(digits);
    assert ParseU16(digits, 16) == Some(Word(0x8, Nibble(x), Nibble(y), 0xE)) by {
      FourDigits('8', x, y, 'E');
      assert digits == ['8', x, y, 'E'];
    }
    assert RegisterOperand(parts, 1) == [x] && RegisterOperand(parts, 2) == [y] && ByteOperand(parts, [y]) == [] by {
      PairOperands("SHL", x, comma, y);
    }
    OpcodeOfTokens("SHL", parts, [], digits, Word(0x8, Nibble(x), Nibble(y), 0xE), labels, position);
  }

  /** `SHR Vx` is `8x06`. */
  lemma EncodeShiftRight(x: char, labels: Labels, position: u16)
    requires IsHexDigit(x)
    ensures ParseTokens(["SHR", Reg(x, "")], labels, position) == Parse(Opcode(Word(0x8, Nibble(x), 0x0, 0x6)), labels)
  {
    var parts := ["SHR", Reg(x, "")];
    var digits := "8" + [x] + "06";
    assert OpcodeText("SHR", parts, [x], [], [], [], [], labels) == Digits(digits);
    assert ParseU16(digits, 16) == Some(Word(0x8, Nibble(x), 0x0, 0x6)) by {
      FourDigits('8', x, '0', '6');
      assert digits == ['8', x, '0', '6'];
    }
    assert RegisterOperand(parts, 1) == [x] && RegisterOperand(parts, 2) == [] && ByteOperand(parts, []) == [] by {
      SingleOperand("SHR", x);
    }
    OpcodeOfTokens("SHR", parts, [], digits, Word(0x8, Nibble(x), 0x0, 0x6), labels, position);
  }

  /** `SHL Vx` is `8x0E`. */
  lemma EncodeShiftLeft(x: char, labels: Labels, position: u16)
    requires IsHexDigit(x)
    ensures ParseTokens(["SHL", Reg(x, "")], labels, position) == Parse(Opcode(Word(0x8, Nibble(x), 0x0, 0xE)), labels)
  {
    var parts := ["SHL", Reg(x, "")];
    var digits := "8" + [x] + "0E";
    assert OpcodeText("SHL", parts, [x], [], [], [], [], labels) == Digits(digits);
    assert ParseU16(digits, 16) == Some(Word(0x8, Nibble(x), 0x0, 0xE)) by {
      FourDigits('8', x, '0', 'E');
      assert digits == ['8', x, '0', 'E'];
    }
    assert RegisterOperand(parts, 1) == [x] && RegisterOperand(parts, 2) == [] && ByteOperand(parts, []) == [] by {
      SingleOperand("SHL", x);
    }
    OpcodeOfTokens("SHL", parts, [], digits, Word(0x8, Nibble(x), 0x0, 0xE), labels, position);
  }

  /** `SKP Vx` is `Ex9E`. */
  lemma EncodeSkipPressed(x: char, labels: Labels, position: u16)
    requires IsHexDigit(x)
    ensures ParseTokens(["SKP", Reg(x, "")], labels, position) == Parse(Opcode(Word(0xE, Nibble(x), 0x9, 0xE)), labels)
  {
    var parts := ["SKP", Reg(x, "")];
    var digits := "E" + [x] + "9E";
    assert OpcodeText("SKP", parts, [x], [], [], [], [], labels) == Digits(digits);
    assert ParseU16(digits, 16) == Some(Word(0xE, Nibble(x), 0x9, 0xE)) by {
      FourDigits('E', x, '9', 'E');
      assert digits == ['E', x, '9', 'E'];
    }
    assert RegisterOperand(parts, 1) == [x] && RegisterOperand(parts, 2) == [] && ByteOperand(parts, []) == [] by {
      SingleOperand("SKP", x);
    }
    OpcodeOfTokens("SKP", parts, [], digits, Word(0xE, Nibble(x), 0x9, 0xE), labels, position);
  }

  /** `SKNP Vx` is `ExA1`. */
  lemma EncodeSkipNotPressed(x: char, labels: Labels, position: u16)
    requires IsHexDigit(x)
    ensures ParseTokens(["SKNP", Reg(x, "")], labels, position) == Parse(Opcode(Word(0xE, Nibble(x), 0xA, 0x1)), labels)
  {
    var parts := ["SKNP", Reg(x, "")];
    var digits := "E" + [x] + "A1";
    assert OpcodeText("SKNP", parts, [x], [], [], [], [], labels) == Digits(digits);
    assert ParseU16(digits, 16) == Some(Word(0xE, Nibble(x), 0xA, 0x1)) by {
      FourDigits('E', x, 'A', '1');
      assert digits == ['E', x, 'A', '1'];
    }
    assert RegisterOperand(parts, 1) == [x] && RegisterOperand(parts, 2) == [] && ByteOperand(parts, []) == [] by {
      SingleOperand("SKNP", x);
    }
    OpcodeOfTokens("SKNP", parts, [], digits, Word(0xE, Nibble(x), 0xA, 0x1), labels, position);
  }

  /** `SYS 0xnnn` is `0nnn`. */
  lemma EncodeSystem(a: char, b: char, c: char, labels: Labels, position: u16)
    requires IsHexDigit(a) && IsHexDigit(b) && IsHexDigit(c)
    ensures ParseTokens(["SYS", Hex([a, b, c])], labels, position) == Parse(Opcode(Word(0x0, Nibble(a), Nibble(b), Nibble(c))), labels)
  {
    var parts := ["SYS", Hex([a, b, c])];
    var digits := "0" + [a, b, c];
    assert OpcodeText("SYS", parts, [], [], [], [a, b, c], [], labels) == Digits(digits);
    assert ParseU16(digits, 16) == Some(Word(0x0, Nibble(a), Nibble(b), Nibble(c))) by {
      FourDigits('0', a, b, c);
      assert digits == ['0', a, b, c];
    }
    assert RegisterOperand(parts, 1) == [] && RegisterOperand(parts, 2) == [] && GetAddress(parts[1], labels) == Ok([a, b, c]) by {
      AddressOperand("SYS", a, b, c, labels);
    }
    OpcodeOfTokens("SYS", parts, [a, b, c], digits, Word(0x0, Nibble(a), Nibble(b), Nibble(c)), labels, position);
  }

  /** `JP 0xnnn` is `1nnn`. */
  lemma EncodeJump(a: char, b: char, c: char, labels: Labels, position: u16)
    requires IsHexDigit(a) && IsHexDigit(b) && IsHexDigit(c)
    ensures ParseTokens(["JP", Hex([a, b, c])], labels, position) == Parse(Opcode(Word(0x1, Nibble(a), Nibble(b), Nibble(c))), labels)
  {
    var parts := ["JP", Hex([a, b, c])];
    var digits := "1" + [a, b, c];
    assert OpcodeText("JP", parts, [], [], [], [a, b, c], [], labels) == Digits(digits);
    assert ParseU16(digits, 16) == Some(Word(0x1, Nibble(a), Nibble(b), Nibble(c))) by {
      FourDigits('1', a, b, c);
      assert digits == ['1', a, b, c];
    }
    assert RegisterOperand(parts, 1) == [] && RegisterOperand(parts, 2) == [] && GetAddress(parts[1], labels) == Ok([a, b, c]) by {
      AddressOperand("JP", a, b, c, labels);
    }
    OpcodeOfTokens("JP", parts, [a, b, c], digits, Word(0x1, Nibble(a), Nibble(b), Nibble(c)), labels, position);
  }

  /** `JP 0xnn` is `10nn`: an address literal of two digits is zero-padded to three. */
  lemma EncodeJumpTwoDigits(b: char, c: char, labels: Labels, position: u16)
    requires IsHexDigit(b) && IsHexDigit(c)
    ensures ParseTokens(["JP", Hex([b, c])], labels, position) == Parse(Opcode(Word(0x1, 0x0, Nibble(b), Nibble(c))), labels)
  {
    var parts := ["JP", Hex([b, c])];
    var nnn := ['0', b, c];
    ShortAddressOperand("JP", [b, c], labels);
    assert PadLeft([b, c], 3, '0') == nnn;
    JumpText(parts, nnn, labels, position);
  }

  /** `JP 0xn` is `100n`: an address literal of one digit is zero-padded to three. */
  lemma EncodeJumpOneDigit(c: char, labels: Labels, position: u16)
    requires IsHexDigit(c)
    ensures ParseTokens(["JP", Hex([c])], labels, position) == Parse(Opcode(Word(0x1, 0x0, 0x0, Nibble(c))), labels)
  {
    var parts := ["JP", Hex([c])];
    var nnn := ['0', '0', c];
    ShortAddressOperand("JP", [c], labels);
    assert PadLeft([c], 3, '0') == nnn;
    JumpText(parts, nnn, labels, position);
  }

  /** `JP` with a two-token line whose address is the three digits `nnn` is `1nnn`. */
  lemma JumpText(parts: seq<string>, nnn: string, labels: Labels, position: u16)
    requires |parts| == 2 && parts[0] == "JP" && |nnn| == 3
    requires forall i :: 0 <= i < 3 ==> IsHexDigit(nnn[i])
    requires RegisterOperand(parts, 1) == [] && RegisterOperand(parts, 2) == []
    requires ByteOperand(parts, []) == [] && NibbleOperand(parts) == [] && GetAddress(parts[1], labels) == Ok(nnn)
    ensures ParseTokens(parts, labels, position) ==
      Parse(Opcode(Word(0x1, Nibble(nnn[0]), Nibble(nnn[1]), Nibble(nnn[2]))), labels)
  {
    var digits := "1" + nnn;
    assert OpcodeText("JP", parts, [], [], [], nnn, [], labels) == Digits(digits);
    assert ParseU16(digits, 16) == Some(Word(0x1, Nibble(nnn[0]), Nibble(nnn[1]), Nibble(nnn[2]))) by {
      FourDigits('1', nnn[0], nnn[1], nnn[2]);
      assert digits == ['1', nnn[0], nnn[1], nnn[2]];
    }
    OpcodeOfTokens("JP", parts, nnn, digits, Word(0x1, Nibble(nnn[0]), Nibble(nnn[1]), Nibble(nnn[2])), labels, position);
  }

  /** `CALL 0xnnn` is `2nnn`. */
  lemma EncodeCall(a: char, b: char, c: char, labels: Labels, position: u16)
    requires IsHexDigit(a) && IsHexDigit(b) && IsHexDigit(c)
    ensures ParseTokens(["CALL", Hex([a, b, c])], labels, position) == Parse(Opcode(Word(0x2, Nibble(a), Nibble(b), Nibble(c))), labels)
  {
    var parts := ["CALL", Hex([a, b, c])];
    var digits := "2" + [a, b, c];
    assert OpcodeText("CALL", parts, [], [], [], [a, b, c], [], labels) == Digits(digits);
    assert ParseU16(digits, 16) == Some(Word(0x2, Nibble(a), Nibble(b), Nibble(c))) by {
      FourDigits('2', a, b, c);
      assert digits == ['2', a, b, c];
    }
    assert RegisterOperand(parts, 1) == [] && RegisterOperand(parts, 2) == [] && GetAddress(parts[1], labels) == Ok([a, b, c]) by {
      AddressOperand("CALL", a, b, c, labels);
    }
    OpcodeOfTokens("CALL", parts, [a, b, c], digits, Word(0x2, Nibble(a), Nibble(b), Nibble(c)), labels, position);
  }

  /** `LD I, 0xnnn` is `Annn`. */
  lemma EncodeLoadIndex(a: char, b: char, c: char, labels: Labels, position: u16)
    requires IsHexDigit(a) && IsHexDigit(b) && IsHexDigit(c)
    ensures ParseTokens(["LD", "I,", Hex([a, b, c])], labels, position) == Parse(Opcode(Word(0xA, Nibble(a), Nibble(b), Nibble(c))), labels)
  {
    var parts := ["LD", "I,", Hex([a, b, c])];
    var digits := "A" + [a, b, c];
    assert ParseU16(digits, 16) == Some(Word(0xA, Nibble(a), Nibble(b), Nibble(c))) by {
      FourDigits('A', a, b, c);
      assert digits == ['A', a, b, c];
    }
    IndexAddressText(a, b, c, labels);
    OpcodeOfTokens("LD", parts, [], digits, Word(0xA, Nibble(a), Nibble(b), Nibble(c)), labels, position);
  }

  /** The fields and the opcode digits of `LD I, 0xnnn`. */
  lemma IndexAddressText(a: char, b: char, c: char, labels: Labels)
    requires IsHexDigit(a) && IsHexDigit(b) && IsHexDigit(c)
    ensures var parts := ["LD", "I,", Hex([a, b, c])];
      RegisterOperand(parts, 1) == [] && RegisterOperand(parts, 2) == [] && ByteOperand(parts, []) == [a, b, c] &&
      OpcodeText("LD", parts, [], [], [a, b, c], [], [], labels) == Digits("A" + [a, b, c])
  {
    SecondAddressOperand("LD", "I,", a, b, c, labels);
  }

  /** `JP Vx, 0xnnn` is `Bnnn`, whatever the register. */
  lemma EncodeJumpOffset(x: char, a: char, b: char, c: char, labels: Labels, position: u16)
    requires IsHexDigit(x) && IsHexDigit(a) && IsHexDigit(b) && IsHexDigit(c)
    ensures ParseTokens(["JP", Reg(x, ","), Hex([a, b, c])], labels, position) == Parse(Opcode(Word(0xB, Nibble(a), Nibble(b), Nibble(c))), labels)
  {
    var parts := ["JP", Reg(x, ","), Hex([a, b, c])];
    var digits := "B" + [a, b, c];
    assert ParseU16(digits, 16) == Some(Word(0xB, Nibble(a), Nibble(b), Nibble(c))) by {
      FourDigits('B', a, b, c);
      assert digits == ['B', a, b, c];
    }
    OffsetAddressText(x, a, b, c, labels);
    OpcodeOfTokens("JP", parts, [], digits, Word(0xB, Nibble(a), Nibble(b), Nibble(c)), labels, position);
  }

  /** The fields and the opcode digits of `JP Vx, 0xnnn`. */
  lemma OffsetAddressText(x: char, a: char, b: char, c: char, labels: Labels)
    requires IsHexDigit(x) && IsHexDigit(a) && IsHexDigit(b) && IsHexDigit(c)
    ensures var parts := ["JP", Reg(x, ","), Hex([a, b, c])];
      RegisterOperand(parts, 1) == [x] && RegisterOperand(parts, 2) == [] && ByteOperand(parts, []) == [a, b, c] &&
      OpcodeText("JP", parts, [x], [], [a, b, c], [], [], labels) == Digits("B" + [a, b, c])
  {
    OffsetText(Reg(x, ","), a, b, c, labels);
    OffsetOperands(x, a, b, c, labels);
  }

  lemma OffsetText(first: string, a: char, b: char, c: char, labels: Labels)
    requires IsHexDigit(a) && IsHexDigit(b) && IsHexDigit(c)
    ensures OpcodeText("JP", ["JP", first, Hex([a, b, c])], [], [], [], [], [], labels) == Digits("B" + [a, b, c])
  {
    HexLiteral([a, b, c]);
    assert GetAddress(Hex([a, b, c]), labels) == Ok([a, b, c]);
    assert PadLeft([a, b, c], 2, '0') == [a, b, c];
  }

  lemma OffsetOperands(x: char, a: char, b: char, c: char, labels: Labels)
    requires IsHexDigit(x) && IsHexDigit(a) && IsHexDigit(b) && IsHexDigit(c)
    ensures var parts := ["JP", Reg(x, ","), Hex([a, b, c])];
      RegisterOperand(parts, 1) == [x] && RegisterOperand(parts, 2) == [] && ByteOperand(parts, []) == [a, b, c]
  {
    var parts := ["JP", Reg(x, ","), Hex([a, b, c])];
    assert Reg(x, ",") != [] && ' ' !in Reg(x, ",") && ';' !in Reg(x, ",") && RegisterOperand(parts, 1) == [x] by {
      RegisterChars(x, ",");
      RegisterToken(x, ",");
    }
    SecondAddressOperand("JP", Reg(x, ","), a, b, c, labels);
  }

  /** `DRW Vx, Vy, 0xn` is `Dxyn`. */
  lemma EncodeDraw(x: char, y: char, n: char, labels: Labels, position: u16)
    requires IsHexDigit(x) && IsHexDigit(y) && IsHexDigit(n)
    ensures ParseTokens(["DRW", Reg(x, ","), Reg(y, ","), Hex([n])], labels, position) == Parse(Opcode(Word(0xD, Nibble(x), Nibble(y), Nibble(n))), labels)
  {
    var parts := ["DRW", Reg(x, ","), Reg(y, ","), Hex([n])];
    var digits := "D" + [x] + [y] + [n];
    assert OpcodeText("DRW", parts, [x], [y], [], [], [n], labels) == Digits(digits);
    assert ParseU16(digits, 16) == Some(Word(0xD, Nibble(x), Nibble(y), Nibble(n))) by {
      FourDigits('D', x, y, n);
      assert digits == ['D', x, y, n];
    }
    assert RegisterOperand(parts, 1) == [x] && RegisterOperand(parts, 2) == [y] && ByteOperand(parts, [y]) == [] && NibbleOperand(parts) == [n] by {
      DrawOperands(x, y, n);
    }
    OpcodeOfTokens("DRW", parts, [], digits, Word(0xD, Nibble(x), Nibble(y), Nibble(n)), labels, position);
  }

  /** `LD Vx, DT` is `Fx07`. */
  lemma EncodeLoadFromDelay(x: char, labels: Labels, position: u16)
    requires IsHexDigit(x)
    ensures ParseTokens(["LD", Reg(x, ","), "DT"], labels, position) == Parse(Opcode(Word(0xF, Nibble(x), 0x0, 0x7)), labels)
  {
    var parts := ["LD", Reg(x, ","), "DT"];
    var digits := "F" + [x] + "07";
    assert OpcodeText("LD", parts, [x], [], [], [], [], labels) == Digits(digits);
    assert ParseU16(digits, 16) == Some(Word(0xF, Nibble(x), 0x0, 0x7)) by {
      FourDigits('F', x, '0', '7');
      assert digits == ['F', x, '0', '7'];
    }
    assert RegisterOperand(parts, 1) == [x] && RegisterOperand(parts, 2) == [] && ByteOperand(parts, []) == [] by {
      assert ParseU16("DT", 10).None?;
      SourceOperands(x, "DT");
    }
    OpcodeOfTokens("LD", parts, [], digits, Word(0xF, Nibble(x), 0x0, 0x7), labels, position);
  }

  /** `LD Vx, K` is `Fx0A`. */
  lemma EncodeLoadKey(x: char, labels: Labels, position: u16)
    requires IsHexDigit(x)
    ensures ParseTokens(["LD", Reg(x, ","), "K"], labels, position) == Parse(Opcode(Word(0xF, Nibble(x), 0x0, 0xA)), labels)
  {
    var parts := ["LD", Reg(x, ","), "K"];
    var digits := "F" + [x] + "0A";
    assert OpcodeText("LD", parts, [x], [], [], [], [], labels) == Digits(digits);
    assert ParseU16(digits, 16) == Some(Word(0xF, Nibble(x), 0x0, 0xA)) by {
      FourDigits('F', x, '0', 'A');
      assert digits == ['F', x, '0', 'A'];
    }
    assert RegisterOperand(parts, 1) == [x] && RegisterOperand(parts, 2) == [] && ByteOperand(parts, []) == [] by {
      assert ParseU16("K", 10).None?;
      SourceOperands(x, "K");
    }
    OpcodeOfTokens("LD", parts, [], digits, Word(0xF, Nibble(x), 0x0, 0xA), labels, position);
  }

  /** `LD Vx, I` is `Fx65`. */
  lemma EncodeLoadRegisters(x: char, labels: Labels, position: u16)
    requires IsHexDigit(x)
    ensures ParseTokens(["LD", Reg(x, ","), "I"], labels, position) == Parse(Opcode(Word(0xF, Nibble(x), 0x6, 0x5)), labels)
  {
    var parts := ["LD", Reg(x, ","), "I"];
    var digits := "F" + [x] + "65";
    assert OpcodeText("LD", parts, [x], [], [], [], [], labels) == Digits(digits);
    assert ParseU16(digits, 16) == Some(Word(0xF, Nibble(x), 0x6, 0x5)) by {
      FourDigits('F', x, '6', '5');
      assert digits == ['F', x, '6', '5'];
    }
    assert RegisterOperand(parts, 1) == [x] && RegisterOperand(parts, 2) == [] && ByteOperand(parts, []) == [] by {
      assert ParseU16("I", 10).None?;
      SourceOperands(x, "I");
    }
    OpcodeOfTokens("LD", parts, [], digits, Word(0xF, Nibble(x), 0x6, 0x5), labels, position);
  }

  /** `LD DT, Vy` is `Fy15`. */
  lemma EncodeLoadDelay(y: char, labels: Labels, position: u16)
    requires IsHexDigit(y)
    ensures ParseTokens(["LD", "DT,", Reg(y, "")], labels, position) == Parse(Opcode(Word(0xF, Nibble(y), 0x1, 0x5)), labels)
  {
    var parts := ["LD", "DT,", Reg(y, "")];
    var digits := "F" + [y] + "15";
    assert OpcodeText("LD", parts, [], [y], [], [], [], labels) == Digits(digits);
    assert ParseU16(digits, 16) == Some(Word(0xF, Nibble(y), 0x1, 0x5)) by {
      FourDigits('F', y, '1', '5');
      assert digits == ['F', y, '1', '5'];
    }
    assert RegisterOperand(parts, 1) == [] && RegisterOperand(parts, 2) == [y] && ByteOperand(parts, [y]) == [] by {
      TargetOperands("LD", "DT,", y);
    }
    OpcodeOfTokens("LD", parts, [], digits, Word(0xF, Nibble(y), 0x1, 0x5), labels, position);
  }

  /** `LD ST, Vy` is `Fy18`. */
  lemma EncodeLoadSound(y: char, labels: Labels, position: u16)
    requires IsHexDigit(y)
    ensures ParseTokens(["LD", "ST,", Reg(y, "")], labels, position) == Parse(Opcode(Word(0xF, Nibble(y), 0x1, 0x8)), labels)
  {
    var parts := ["LD", "ST,", Reg(y, "")];
    var digits := "F" + [y] + "18";
    assert OpcodeText("LD", parts, [], [y], [], [], [], labels) == Digits(digits);
    assert ParseU16(digits, 16) == Some(Word(0xF, Nibble(y), 0x1, 0x8)) by {
      FourDigits('F', y, '1', '8');
      assert digits == ['F', y, '1', '8'];
    }
    assert RegisterOperand(parts, 1) == [] && RegisterOperand(parts, 2) == [y] && ByteOperand(parts, [y]) == [] by {
      TargetOperands("LD", "ST,", y);
    }
    OpcodeOfTokens("LD", parts, [], digits, Word(0xF, Nibble(y), 0x1, 0x8), labels, position);
  }

  /** `LD F, Vy` is `Fy29`. */
  lemma EncodeLoadSprite(y: char, labels: Labels, position: u16)
    requires IsHexDigit(y)
    ensures ParseTokens(["LD", "F,", Reg(y, "")], labels, position) == Parse(Opcode(Word(0xF, Nibble(y), 0x2, 0x9)), labels)
  {
    var parts := ["LD", "F,", Reg(y, "")];
    var digits := "F" + [y] + "29";
    assert OpcodeText("LD", parts, [], [y], [], [], [], labels) == Digits(digits);
    assert ParseU16(digits, 16) == Some(Word(0xF, Nibble(y), 0x2, 0x9)) by {
      FourDigits('F', y, '2', '9');
      assert digits == ['F', y, '2', '9'];
    }
    assert RegisterOperand(parts, 1) == [] && RegisterOperand(parts, 2) == [y] && ByteOperand(parts, [y]) == [] by {
      TargetOperands("LD", "F,", y);
    }
    OpcodeOfTokens("LD", parts, [], digits, Word(0xF, Nibble(y), 0x2, 0x9), labels, position);
  }

  /** `LD B, Vy` is `Fy33`. */
  lemma EncodeLoadDecimal(y: char, labels: Labels, position: u16)
    requires IsHexDigit(y)
    ensures ParseTokens(["LD", "B,", Reg(y, "")], labels, position) == Parse(Opcode(Word(0xF, Nibble(y), 0x3, 0x3)), labels)
  {
    var parts := ["LD", "B,", Reg(y, "")];
    var digits := "F" + [y] + "33";
    assert OpcodeText("LD", parts, [], [y], [], [], [], labels) == Digits(digits);
    assert ParseU16(digits, 16) == Some(Word(0xF, Nibble(y), 0x3, 0x3)) by {
      FourDigits('F', y, '3', '3');
      assert digits == ['F', y, '3', '3'];
    }
    assert RegisterOperand(parts, 1) == [] && RegisterOperand(parts, 2) == [y] && ByteOperand(parts, [y]) == [] by {
      TargetOperands("LD", "B,", y);
    }
    OpcodeOfTokens("LD", parts, [], digits, Word(0xF, Nibble(y), 0x3, 0x3), labels, position);
  }

  /** `LD I, Vy` is `Fy55`. */
  lemma EncodeStoreRegisters(y: char, labels: Labels, position: u16)
    requires IsHexDigit(y)
    ensures ParseTokens(["LD", "I,", Reg(y, "")], labels, position) == Parse(Opcode(Word(0xF, Nibble(y), 0x5, 0x5)), labels)
  {
    var parts := ["LD", "I,", Reg(y, "")];
    var digits := "F" + [y] + "55";
    assert OpcodeText("LD", parts, [], [y], [], [], [], labels) == Digits(digits);
    assert ParseU16(digits, 16) == Some(Word(0xF, Nibble(y), 0x5, 0x5)) by {
      FourDigits('F', y, '5', '5');
      assert digits == ['F', y, '5', '5'];
    }
    assert RegisterOperand(parts, 1) == [] && RegisterOperand(parts, 2) == [y] && ByteOperand(parts, [y]) == [] by {
      TargetOperands("LD", "I,", y);
    }
    OpcodeOfTokens("LD", parts, [], digits, Word(0xF, Nibble(y), 0x5, 0x5), labels, position);
  }

  /** `ADD I, Vy` is `Fy1E`. */
  lemma EncodeAddIndex(y: char, labels: Labels, position: u16)
    requires IsHexDigit(y)
    ensures ParseTokens(["ADD", "I,", Reg(y, "")], labels, position) == Parse(Opcode(Word(0xF, Nibble(y), 0x1, 0xE)), labels)
  {
    var parts := ["ADD", "I,", Reg(y, "")];
    var digits := "F" + [y] + "1E";
    assert OpcodeText("ADD", parts, [], [y], [], [], [], labels) == Digits(digits);
    assert ParseU16(digits, 16) == Some(Word(0xF, Nibble(y), 0x1, 0xE)) by {
      FourDigits('F', y, '1', 'E');
      assert digits == ['F', y, '1', 'E'];
    }
    assert RegisterOperand(parts, 1) == [] && RegisterOperand(parts, 2) == [y] && ByteOperand(parts, [y]) == [] by {
      TargetOperands("ADD", "I,", y);
    }
    OpcodeOfTokens("ADD", parts, [], digits, Word(0xF, Nibble(y), 0x1, 0xE), labels, position);
  }

  /** `CLS` is `00E0`. */
  lemma EncodeClear(labels: Labels, position: u16)
    ensures ParseTokens(["CLS"], labels, position) == Parse(Opcode(0x00E0), labels)
  {
    FourDigits('0', '0', 'E', '0');
    OpcodeOfTokens("CLS", ["CLS"], [], "00E0", 0x00E0, labels, position);
  }

  /** `RET` is `00EE`. */
  lemma EncodeReturn(labels: Labels, position: u16)
    ensures ParseTokens(["RET"], labels, position) == Parse(Opcode(0x00EE), labels)
  {
    FourDigits('0', '0', 'E', 'E');
    OpcodeOfTokens("RET", ["RET"], [], "00EE", 0x00EE, labels, position);
  }
}

module EncodingLines {
  import opened Wrappers
  import opened Words
  import opened Text
  import opened Assembler
  import opened Encoding

  // Each lemma below takes one written form of an assembly line, its tokens
  // one space apart, and carries `ParseAsmLine` over to `ParseTokens` on
  // those tokens, where the `Encode` lemmas give the opcode.

  /** A token with no space and no comment in it. */
  predicate PlainToken(t: string)
  {
    t != [] && ' ' !in t && ';' !in t
  }

  /** A mnemonic alone, as `CLS`. */
  lemma BareLine(line: string, labels: Labels, position: u16)
    requires PlainToken(line)
    ensures ParseAsmLine(line, labels, position) == ParseTokens([line], labels, position)
  {
    assert Plain([line]);
    assert Join([line], ' ') == line;
    ParseLine([line], labels, position);
  }

  /** `<mnemonic> 0xnnn` */
  lemma AddressLine(line: string, mnemonic: string, a: char, b: char, c: char, labels: Labels, position: u16)
    requires PlainToken(mnemonic) && IsHexDigit(a) && IsHexDigit(b) && IsHexDigit(c)
    requires line == mnemonic + " 0x" + [a, b, c]
    ensures ParseAsmLine(line, labels, position) == ParseTokens([mnemonic, Hex([a, b, c])], labels, position)
  {
    var parts := [mnemonic, Hex([a, b, c])];
    assert line == Join(parts, ' ') by {
      JoinTwo(mnemonic, Hex([a, b, c]), ' ');
    }
    assert Plain(parts) by {
      HexChars([a, b, c]);
      PlainTwo(mnemonic, Hex([a, b, c]));
    }
    ParseLine(parts, labels, position);
  }

  /** `<mnemonic> 0xh` with one to three digits, as `JP 0x12`. */
  lemma ShortAddressLine(line: string, mnemonic: string, h: string, labels: Labels, position: u16)
    requires PlainToken(mnemonic) && 1 <= |h| <= 3 && forall i :: 0 <= i < |h| ==> IsHexDigit(h[i])
    requires line == mnemonic + " 0x" + h
    ensures ParseAsmLine(line, labels, position) == ParseTokens([mnemonic, Hex(h)], labels, position)
  {
    var parts := [mnemonic, Hex(h)];
    assert line == Join(parts, ' ') by {
      JoinTwo(mnemonic, Hex(h), ' ');
    }
    assert Plain(parts) by {
      HexChars(h);
      PlainTwo(mnemonic, Hex(h));
    }
    ParseLine(parts, labels, position);
  }

  /** `<mnemonic> <first> 0xnnn`, as `LD I, 0xnnn` and `JP V0, 0xnnn`. */
  lemma SecondAddressLine(line: string, mnemonic: string, first: string, a: char, b: char, c: char, labels: Labels, position: u16)
    requires PlainToken(mnemonic) && PlainToken(first) && IsHexDigit(a) && IsHexDigit(b) && IsHexDigit(c)
    requires line == mnemonic + " " + first + " 0x" + [a, b, c]
    ensures ParseAsmLine(line, labels, position) == ParseTokens([mnemonic, first, Hex([a, b, c])], labels, position)
  {
    var parts := [mnemonic, first, Hex([a, b, c])];
    assert line == Join(parts, ' ') by {
      JoinThree(mnemonic, first, Hex([a, b, c]), ' ');
    }
    assert Plain(parts) by {
      HexChars([a, b, c]);
      PlainThree(mnemonic, first, Hex([a, b, c]));
    }
    ParseLine(parts, labels, position);
  }

  /** `<mnemonic> Vx, 0xkk` (one or two digits of `kk`). */
  lemma ByteLine(line: string, mnemonic: string, x: char, k: string, labels: Labels, position: u16)
    requires PlainToken(mnemonic) && IsHexDigit(x)
    requires k != [] && forall i :: 0 <= i < |k| ==> IsHexDigit(k[i])
    requires line == mnemonic + " V" + [x] + ", 0x" + k
    ensures ParseAsmLine(line, labels, position) == ParseTokens([mnemonic, Reg(x, ","), Hex(k)], labels, position)
  {
    var parts := [mnemonic, Reg(x, ","), Hex(k)];
    assert line == Join(parts, ' ') by {
      JoinThree(mnemonic, Reg(x, ","), Hex(k), ' ');
    }
    assert Plain(parts) by {
      RegisterChars(x, ",");
      HexChars(k);
      PlainThree(mnemonic, Reg(x, ","), Hex(k));
    }
    ParseLine(parts, labels, position);
  }

  /** `<mnemonic> Vx, n` with a decimal numeral `n`, as `LD V0, 5`. */
  lemma DecimalByteLine(line: string, mnemonic: string, x: char, d: string, labels: Labels, position: u16)
    requires PlainToken(mnemonic) && IsHexDigit(x) && Decimal(d)
    requires line == mnemonic + " V" + [x] + ", " + d
    ensures ParseAsmLine(line, labels, position) == ParseTokens([mnemonic, Reg(x, ","), d], labels, position)
  {
    var parts := [mnemonic, Reg(x, ","), d];
    assert line == Join(parts, ' ') by {
      JoinThree(mnemonic, Reg(x, ","), d, ' ');
    }
    assert Plain(parts) by {
      RegisterChars(x, ",");
      assert ' ' !in d && ';' !in d by {
        forall i | 0 <= i < |d|
          ensures d[i] != ' ' && d[i] != ';'
        {
          assert '0' <= d[i] <= '9';
        }
      }
      PlainThree(mnemonic, Reg(x, ","), d);
    }
    ParseLine(parts, labels, position);
  }

  /** `<mnemonic> Vx, Vy` and `<mnemonic> Vx Vy`. */
  lemma PairLine(line: string, mnemonic: string, x: char, comma: string, y: char, labels: Labels, position: u16)
    requires PlainToken(mnemonic) && IsHexDigit(x) && IsHexDigit(y) && (comma == "" || comma == ",")
    requires line == mnemonic + " V" + [x] + comma + " V" + [y]
    ensures ParseAsmLine(line, labels, position) == ParseTokens([mnemonic, Reg(x, comma), Reg(y, "")], labels, position)
  {
    var parts := [mnemonic, Reg(x, comma), Reg(y, "")];
    assert line == Join(parts, ' ') by {
      JoinThree(mnemonic, Reg(x, comma), Reg(y, ""), ' ');
    }
    assert Plain(parts) by {
      RegisterChars(x, comma);
      RegisterChars(y, "");
      PlainThree(mnemonic, Reg(x, comma), Reg(y, ""));
    }
    ParseLine(parts, labels, position);
  }

  /** `<mnemonic> Vx` */
  lemma SingleLine(line: string, mnemonic: string, x: char, labels: Labels, position: u16)
    requires PlainToken(mnemonic) && IsHexDigit(x)
    requires line == mnemonic + " V" + [x]
    ensures ParseAsmLine(line, labels, position) == ParseTokens([mnemonic, Reg(x, "")], labels, position)
  {
    var parts := [mnemonic, Reg(x, "")];
    assert line == Join(parts, ' ') by {
      JoinTwo(mnemonic, Reg(x, ""), ' ');
    }
    assert Plain(parts) by {
      RegisterChars(x, "");
      PlainTwo(mnemonic, Reg(x, ""));
    }
    ParseLine(parts, labels, position);
  }

  /** `<mnemonic> <keyword> Vy`, as `LD DT, Vy`. */
  lemma TargetLine(line: string, mnemonic: string, keyword: string, y: char, labels: Labels, position: u16)
    requires PlainToken(mnemonic) && PlainToken(keyword) && IsHexDigit(y)
    requires line == mnemonic + " " + keyword + " V" + [y]
    ensures ParseAsmLine(line, labels, position) == ParseTokens([mnemonic, keyword, Reg(y, "")], labels, position)
  {
    var parts := [mnemonic, keyword, Reg(y, "")];
    assert line == Join(parts, ' ') by {
      JoinThree(mnemonic, keyword, Reg(y, ""), ' ');
    }
    assert Plain(parts) by {
      RegisterChars(y, "");
      PlainThree(mnemonic, keyword, Reg(y, ""));
    }
    ParseLine(parts, labels, position);
  }

  /** `LD Vx, <keyword>`, as `LD Vx, DT`. */
  lemma SourceLine(line: string, x: char, keyword: string, labels: Labels, position: u16)
    requires PlainToken(keyword) && IsHexDigit(x)
    requires line == "LD V" + [x] + ", " + keyword
    ensures ParseAsmLine(line, labels, position) == ParseTokens(["LD", Reg(x, ","), keyword], labels, position)
  {
    var parts := ["LD", Reg(x, ","), keyword];
    assert line == Join(parts, ' ') by {
      JoinThree("LD", Reg(x, ","), keyword, ' ');
    }
    assert Plain(parts) by {
      RegisterChars(x, ",");
      PlainThree("LD", Reg(x, ","), keyword);
    }
    ParseLine(parts, labels, position);
  }

  /** `DRW Vx, Vy, 0xn` */
  lemma DrawLine(line: string, x: char, y: char, n: char, labels: Labels, position: u16)
    requires IsHexDigit(x) && IsHexDigit(y) && IsHexDigit(n)
    requires line == "DRW V" + [x] + ", V" + [y] + ", 0x" + [n]
    ensures ParseAsmLine(line, labels, position) == ParseTokens(["DRW", Reg(x, ","), Reg(y, ","), Hex([n])], labels, position)
  {
    var parts := ["DRW", Reg(x, ","), Reg(y, ","), Hex([n])];
    assert line == Join(parts, ' ') by {
      JoinFour("DRW", Reg(x, ","), Reg(y, ","), Hex([n]), ' ');
    }
    assert Plain(parts) by {
      RegisterChars(x, ",");
      RegisterChars(y, ",");
      HexChars([n]);
      PlainFour("DRW", Reg(x, ","), Reg(y, ","), Hex([n]));
    }
    ParseLine(parts, labels, position);
  }
}
