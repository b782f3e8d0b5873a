# CHIP-8 assembler and interpreter, modelled in Dafny

This project models the two halves of a small CHIP-8 toolchain written in Rust:

- **The assembler** (`src/assembler.rs`). `parse_asm_line` turns one line of assembly into a 16-bit opcode. It strips the comment, splits the line into tokens, extracts the register, byte, address and nibble operands, and looks the mnemonic up in the opcode table. It also handles label definitions and forward references. `get_address` and `get_hex_str` read operands. `assemble` makes two passes: pass 1 records every line at the next even address from 0x200, and pass 2 resolves the lines left incomplete and writes each opcode as two bytes, high byte first.
- **The interpreter loop** (`run_instructions` in `src/main.rs`). It fetches two bytes at `pc` from the program, advances `pc` by 2, splits the opcode into its fields and executes the matching arm. It stops once `pc` is at or past the end of the program.

The model has these parts:

- `Wrappers`, `Words` and `Text` hold the `Result`/`Option` types, the `u8`/`u16` arithmetic and bitwise operations, and the string functions of the Rust standard library that the assembler uses (`find`, `trim_start_matches`, `trim_end_matches`, `split`, zero padding and lower-case hexadecimal in `format!`, `from_str_radix`).
- `Assembler` is `parse_asm_line`, `get_address`, `get_hex_str` and the two passes of `assemble`, as functions, with `assemble`'s loops also as methods proved against them.
  - `AssemblerProperties` states comments, spacing, labels and layout.
  - `Encoding` and `EncodingLines` give every row of the opcode table.
  - `AssemblerExamples` covers every assertion of `test_parse_asm_line`.
- `CorrectedAssembler` is `assemble` with the defect described under "Findings" repaired. Its pass 1 drops only directive lines: lines that are empty or all spaces once the comment is cut off, and lines that are one token ending in `:`. A label followed by an instruction on the same line (`loop: CLS`) is no directive: it is recorded and rejected as in the original. It is proved to give the original's result on every file the original assembles.
- `Chip8` models the interpreter in two forms:
  - a specification on values: `Extract`, `Decode`, `Execute`, `Step`, and the fuel-bounded loop `Iterate`/`Run`;
  - a class `Machine` whose arrays (memory, registers, stack) and fields (`I`, timers, `pc`, `sp`) the methods update in place. Each method is proved to do what the specification does.
- `Chip8Properties` proves what the instruction set promises (carry and borrow flags, skips, the stack, the BCD store, register block copies) and what this implementation does differently.
- `Bridge` proves that the two halves agree: for every form in the assembler's opcode table, the two bytes pass 2 writes decode in the interpreter to the arm of that mnemonic, with the same operands.
- `AssembledPrograms` carries one two-line program from assembly text all the way to the end of its run.

The model follows the code where it departs from the usual CHIP-8 description. These quirks are modelled as written:

- `pc` starts at 0 and indexes the program bytes, not memory at 0x200.
- `SHL` halves `Vx`.
- `SUB` and `SUBN` subtract without wrapping.
- `Fx55` and `Fx65` copy all sixteen registers whatever `x` is.
- `CALL` increments `sp` before storing, so it can nest only fifteen deep.
- `RET` reads `stack[sp]` and then decrements `sp`, so a `RET` with `sp` at zero panics.

A Rust panic (an index out of bounds, or an arithmetic overflow that a debug build checks) is a `Fault` or `Panic` value of the model.

## Model

| member | source | states |
|---|---|---|
| Assembler.GetAddress | src/assembler.rs:310-321 | an address is an error exactly when the text neither starts with `0x` nor names a known label; a `0x` literal gives at least three digits |
| Assembler.AddressValue | src/assembler.rs:310-321 | the digits `get_address` writes are worth the literal's own digits, or the label's position |
| Assembler.AddressLiteralText | src/assembler.rs:311-312 | the text written for a `0x` literal is its digits right-aligned in a field of three, filled with `0` on the left, or the digits as they are when there are more than three |
| Assembler.AddressLabelText | src/assembler.rs:314-316 | the text written for a known label is the one lower-case hexadecimal text of its position without a leading zero: a string is that text exactly when it is canonical and worth the position |
| Assembler.GetHexStr | src/assembler.rs:323-333 | a `0x` literal always gives digits without the prefix, no longer than the text; otherwise there is a result exactly when the text is a decimal `u16` |
| Assembler.HexStrSuffix | src/assembler.rs:324-325 | the digits of a `0x` literal are the end of its text |
| Assembler.HexStrValue | src/assembler.rs:327-328 | a decimal operand is rewritten in hexadecimal with the same value |
| Assembler.HexStrText | src/assembler.rs:327-328 | the text written for a decimal operand is the one lower-case hexadecimal text of its value without a leading zero: a string is that text exactly when it is canonical and worth the operand |
| Assembler.Tokens | src/assembler.rs:86-90 | a comment-free line always splits into at least one token |
| Assembler.OpcodeOf | src/assembler.rs:33-47 | a line's recorded opcode is present exactly when its parse gave one, and is that opcode |
| Assembler.ParseAsmLine | src/assembler.rs:70-308 | only a label definition changes the label table, and it only binds a name to the line's own position; the only panics are a malformed opcode text and a missing operand |
| Assembler.ParseTokens | src/assembler.rs:92-307 | as `ParseAsmLine`, from the tokens: the table is extended only at the given position, and only the two panics occur |
| Assembler.LineRecordParses | src/assembler.rs:31-49 | the record of line `k` holds that line, its position `2 * k` on, and the opcode it parses to under the labels the lines before it defined |
| Assembler.CompletesStep | src/assembler.rs:31-49 | pass 1 over the rest of a file completes exactly when the first line leaves room, does not panic, and the rest completes from the labels and position it leaves |
| Assembler.Pass1With | src/assembler.rs:31-49 | pass 1 with any line reader records every line in order, two bytes after the one before, with the opcode that reader gives it; it fails exactly when a line panics or the position would pass 0xFFFF |
| Assembler.LaidOutStep | src/assembler.rs:31-49 | recording one line and then laying out the rest lays out the whole file |
| Assembler.Pass1 | src/assembler.rs:31-49 | a finished pass 1 records every line in order, two bytes after the one before, with an opcode exactly when the line parses to one under the labels the lines before it defined; it fails exactly when some line panics or the position would pass 0xFFFF |
| Assembler.WrittenOutStep | src/assembler.rs:51-64 | writing one line and then the rest writes the whole list |
| Assembler.WrittenByStep | src/assembler.rs:51-64 | the same, with any way of resolving a line |
| Assembler.Resolve | src/assembler.rs:52-60 | a line with an opcode from pass 1 keeps it; a line without one is parsed again under the final table and takes the opcode found there; when that parse fails the line is `InvalidAsmLine`, and when it panics the panic is the result; resolving never changes the table |
| Assembler.Pass2 | src/assembler.rs:51-64 | a finished pass 2 appends, for every recorded line in order, the two bytes of the opcode that line resolves to, high byte first; it fails only when some line does not resolve |
| Assembler.Assemble | src/assembler.rs:21-67 | the two loops of `assemble` compute `Assembled`: pass 1 from 0x200 with no labels, then pass 2 |
| Assembler.FirstPassOver | src/assembler.rs:29-49 | the first loop over the lines computes pass 1 from the empty state |
| Assembler.SecondPassOver | src/assembler.rs:51-66 | the second loop computes pass 2 over the recorded lines into an empty buffer |
| Assembler.ResolveLine | src/assembler.rs:52-60 | a line keeps its opcode from pass 1, or is parsed again; a line with no opcode the second time panics |
| Text.Find | src/assembler.rs:76-79 | `find` gives the first index holding the character, and nothing exactly when the character is absent |
| Text.TrimStartMatches | src/assembler.rs:87 | the result is no longer than the text and no longer starts with the pattern |
| Text.TrimEndMatches | src/assembler.rs:88 | the result is no longer than the text and no longer ends with the pattern |
| Text.TrimStartSuffix | src/assembler.rs:87 | what is left after trimming the front is a suffix of the text |
| Text.TrimEndPrefix | src/assembler.rs:88 | what is left after trimming the back is a prefix of the text |
| Text.TrimStartWhole | src/assembler.rs:87 | trimming the front removes nothing but whole copies of the pattern: the text is some number of copies followed by the result |
| Text.TrimStartCopies | src/assembler.rs:87 | the text is `LeadingCopies` copies of the pattern followed by the trimmed result |
| Text.TrimEndWhole | src/assembler.rs:88 | trimming the back removes nothing but whole copies of the pattern: the text is the result followed by some number of copies |
| Text.TrimEndCopies | src/assembler.rs:88 | the text is the trimmed result followed by `TrailingCopies` copies of the pattern |
| Text.RepeatSnoc | src/assembler.rs:88 | one more copy of the pattern may as well be added at the back |
| Text.Split | src/assembler.rs:89 | splitting gives at least one piece and no piece holds the separator |
| Text.JoinSplit | src/assembler.rs:89 | joining the pieces with the separator gives the text back |
| Text.SplitJoin | src/assembler.rs:89 | splitting the join of separator-free pieces gives the pieces back |
| Text.PadLeft | src/assembler.rs:106 | two-digit zero padding right-aligns the text in the field, filling on the left |
| Text.PadLeftValue | src/assembler.rs:106 | zero padding does not change the value of the digits |
| Text.DigitValue | src/assembler.rs:290 | a digit is worth less than the radix |
| Text.DigitsValueAppend | src/assembler.rs:290 | digits written after other digits shift them up one place each |
| Text.LowerHexRoundTrip | src/assembler.rs:328 | reading back what hexadecimal formatting prints gives the number printed |
| Text.LowerHexParses | src/assembler.rs:328 | a `u16` printed in hexadecimal parses back with `from_str_radix(_, 16)` |
| Text.LowerHexThreeDigits | src/assembler.rs:316 | numbers from 0x100 to 0xFFF print as exactly three hexadecimal digits |
| Text.LowerHexLength | src/assembler.rs:316 | a 16-bit number prints as one hexadecimal digit below 0x10, two below 0x100, three below 0x1000, and four otherwise |
| Text.LowerHexCanonical | src/assembler.rs:316 | hexadecimal formatting prints lower-case digits without a leading zero |
| Text.HexDigitLower | src/assembler.rs:316 | each printed digit is lower-case, and it is `0` only for zero |
| Text.LowerHexDigitUnique | src/assembler.rs:316 | a lower-case hexadecimal digit is the digit printed for its own value |
| Text.LeadingDigitPositive | src/assembler.rs:316 | hexadecimal digits that do not start with `0` are worth at least one |
| Text.CanonicalHexUnique | src/assembler.rs:316 | lower-case hexadecimal digits without a leading zero are exactly what formatting prints for their value |
| AssemblerProperties.CommentIgnored | src/assembler.rs:75-79 | everything from the first `;` on changes nothing |
| AssemblerProperties.CommentStripped | src/assembler.rs:75-79 | the comment-free text of `text;comment` is `text` |
| AssemblerProperties.CommentOnly | src/assembler.rs:81-84 | a line that is only a comment has no opcode and keeps the labels |
| AssemblerProperties.SpacesIgnored | src/assembler.rs:86-90 | spaces before and after the tokens change nothing |
| AssemblerProperties.LabelDefinition | src/assembler.rs:129-137 | `name:` has no opcode and binds `name` to the line's position |
| AssemblerProperties.UnknownLabelIncomplete | src/assembler.rs:112-116 | a lone operand that is not a register, not a literal and not a known label gives `Incomplete`, whatever the mnemonic, with the labels kept |
| AssemblerProperties.AddressDigits | src/assembler.rs:289-290 | a hexadecimal digit worth `high` in front of a label's three hexadecimal digits parses to `high * 0x1000 + position` |
| AssemblerProperties.KnownLabelAddress | src/assembler.rs:313-317 | `JP`, `CALL` and `SYS` with a known label between 0x100 and 0xFFF assemble to the family digit followed by the label's position |
| AssemblerProperties.LabelTokens | src/assembler.rs:145-160 | the same, stated on the tokens |
| AssemblerProperties.LabelAddressText | src/assembler.rs:145-160 | the opcode text of `JP`, `CALL` and `SYS` with a label is the family digit followed by the label's digits |
| AssemblerProperties.UnknownOffsetLabel | src/assembler.rs:146-156 | `JP V0, name` with a name no label has yet is `Incomplete` and leaves the labels alone |
| AssemblerProperties.KnownOffsetLabel | src/assembler.rs:146-156 | `JP V0, name` with a known label between 0x100 and 0xFFF assembles to `0xB000` plus the label's position |
| AssemblerProperties.OffsetTokens | src/assembler.rs:146-156 | the same, stated on the tokens |
| AssemblerProperties.UnknownIndexLabel | src/assembler.rs:201-207 | `LD I, name` with a name no label has yet is `Incomplete` and leaves the labels alone |
| AssemblerProperties.KnownIndexLabel | src/assembler.rs:201-207 | `LD I, name` with a known label between 0x100 and 0xFFF assembles to `0xA000` plus the label's position |
| AssemblerProperties.IndexTokens | src/assembler.rs:201-207 | the same, stated on the tokens |
| AssemblerProperties.UnresolvedTokens | src/assembler.rs:146-207 | a three-token `JP` or `LD I,` whose last token is neither a register, a literal nor a known label is `Incomplete` |
| AssemblerProperties.SecondOperandLine | src/assembler.rs:75-90 | a line of three plain tokens separated by single spaces parses as those three tokens |
| AssemblerProperties.FirstPassLayout | src/assembler.rs:29-49 | after pass 1 from the start, line `i` is recorded at `0x200 + 2 * i`, with an opcode exactly when it parses to one there under the labels the lines before it defined, and the table is the one the last line leaves |
| AssemblerProperties.LaidOutFromStart | src/assembler.rs:29-49 | any layout from the empty state numbers the lines from 0x200 in steps of two |
| AssemblerProperties.AssembledLayout | src/assembler.rs:21-67 | the output holds two bytes per line of the file; every line resolves, and line `i`'s bytes are the high and low byte of the opcode it resolves to |
| AssemblerProperties.WrittenFromStart | src/assembler.rs:51-64 | bytes written from an empty buffer hold, at `2 * i` and `2 * i + 1`, the high and low byte of the opcode recorded line `i` resolves to, and every line resolves |
| AssemblerProperties.LabelSilent | src/assembler.rs:129-137 | a label definition never has an opcode |
| AssemblerProperties.CommentSilent | src/assembler.rs:75-84 | a comment line never has an opcode |
| AssemblerProperties.BlankSilent | src/assembler.rs:81-90 | a line of spaces never has an opcode: its only token is empty and names no instruction |
| AssemblerProperties.RecordedSilentAborts | src/assembler.rs:52-60 | a recorded line without an opcode that can never get one makes pass 2 fail, wherever it sits |
| AssemblerProperties.SilentUnresolved | src/assembler.rs:53-58 | a recorded line without an opcode that never has one does not resolve |
| AssemblerProperties.SilentLineAborts | src/assembler.rs:31-60 | a file that holds a label definition, a comment or a blank line does not assemble |
| AssemblerProperties.SilentRecorded | src/assembler.rs:31-49 | pass 1 records a line that never has an opcode at its own index, without an opcode |
| AssemblerProperties.AssembledExactly | src/assembler.rs:21-67 | a file assembles to `bytes` exactly when every line, parsed on its own at `0x200 + 2 * i` with no labels, is an opcode, and `bytes` holds those opcodes in order, high byte first |
| AssemblerProperties.AssembledLineByLine | src/assembler.rs:21-67 | the first half: a file that assembles is made of lines that each give an opcode with no labels |
| AssemblerProperties.LineByLineAssembles | src/assembler.rs:21-67 | the second half: such a file assembles to its lines' opcodes |
| AssemblerProperties.NoLabelTakesEffect | src/assembler.rs:31-64 | in a file that assembles no line defines a label, so every line is parsed with an empty table |
| AssemblerProperties.KeptLine | src/assembler.rs:31-64 | in a file that assembles no line fails with no opcode in pass 1 |
| AssemblerProperties.Pass2Writes | src/assembler.rs:51-64 | pass 2 over lines that all resolve writes exactly their opcodes' bytes in order |
| AssemblerProperties.Pass2Succeeds | src/assembler.rs:51-64 | pass 2 over lines that all resolve does not fail |
| AssemblerProperties.LabelsKept | src/assembler.rs:31-49 | when no line changes the table, the table before any line is the starting one |
| AssemblerProperties.LabelsKeptFrom | src/assembler.rs:31-49 | the same, when no line changes the starting table |
| AssemblerProperties.ParseKeepsTable | src/assembler.rs:92-137 | `parse_asm_line` changes the label table only on a line that gives no opcode |
| AssemblerProperties.NoLineWithoutOpcode | src/assembler.rs:52-60 | in a file that assembles, no line of pass 1 parses to `NoOpcode` |
| AssemblerProperties.NoLabelFromStart | src/assembler.rs:31-49 | when no line parses to `NoOpcode`, every line is parsed with the empty table |
| AssemblerProperties.LabelsKeptByOpcodes | src/assembler.rs:31-49 | when no line before `k` is without an opcode, the table before line `k` is the starting one |
| AssemblerProperties.LabelsBeforeLast | src/assembler.rs:31-49 | the table before line `k + 1` is the one line `k` leaves |
| AssemblerProperties.NoOpcodeAnyTable | src/assembler.rs:92-137 | a line with no opcode under one table and position has none under any other |
| AssemblerProperties.NoOpcodeTokens | src/assembler.rs:92-137 | the same, stated on the tokens |
| AssemblerProperties.UnmatchedAnyTable | src/assembler.rs:139-287 | a token list the opcode table does not match stays unmatched whatever the address operand and the labels |
| AssemblerProperties.ForwardLabelAborts | src/assembler.rs:21-67 | `JP name`, `name:`, `CLS` does not assemble |
| Encoding.EncodeClear | src/assembler.rs:141 | `CLS` assembles to the opcode with hexadecimal digits `00E0`, for every label table and position, with the labels kept |
| Encoding.EncodeReturn | src/assembler.rs:143 | `RET` assembles to the opcode with hexadecimal digits `00EE`, for every label table and position, with the labels kept |
| Encoding.EncodeSystem | src/assembler.rs:145 | `SYS 0xnnn` assembles to the opcode with hexadecimal digits `0nnn`, for every address, label table and position, with the labels kept |
| Encoding.EncodeJump | src/assembler.rs:149-150 | `JP 0xnnn` assembles to the opcode with hexadecimal digits `1nnn`, for every address, label table and position, with the labels kept |
| Encoding.EncodeJumpTwoDigits | src/assembler.rs:112-119 | `JP 0xnn` assembles to `10nn`: the two-digit address is zero-padded to three, for every address, label table and position, with the labels kept |
| Encoding.EncodeJumpOneDigit | src/assembler.rs:112-119 | `JP 0xn` assembles to `100n`, for every address, label table and position, with the labels kept |
| Encoding.JumpText | src/assembler.rs:149-150 | `JP` with an address of three digits `nnn` assembles to `1nnn`, with the labels kept |
| Encoding.EncodeJumpOffset | src/assembler.rs:151-156 | `JP Vx, 0xnnn`, whatever the register, assembles to the opcode with hexadecimal digits `Bnnn`, for every register, address, label table and position, with the labels kept |
| Encoding.EncodeCall | src/assembler.rs:160 | `CALL 0xnnn` assembles to the opcode with hexadecimal digits `2nnn`, for every address, label table and position, with the labels kept |
| Encoding.EncodeSkipEqualByte | src/assembler.rs:165-166 | `SE Vx, 0xkk` assembles to the opcode with hexadecimal digits `3xkk`, for every register, byte, label table and position, with the labels kept |
| Encoding.EncodeSkipEqualRegisters | src/assembler.rs:168-169 | `SE Vx, Vy` and `SE Vx Vy` assembles to the opcode with hexadecimal digits `5xy0`, for every pair of registers, label table and position, with the labels kept |
| Encoding.EncodeSkipNotEqualByte | src/assembler.rs:176-177 | `SNE Vx, 0xkk` assembles to the opcode with hexadecimal digits `4xkk`, for every register, byte, label table and position, with the labels kept |
| Encoding.EncodeSkipNotEqualRegisters | src/assembler.rs:179-180 | `SNE Vx, Vy` and `SNE Vx Vy` assembles to the opcode with hexadecimal digits `9xy0`, for every pair of registers, label table and position, with the labels kept |
| Encoding.EncodeLoadRegister | src/assembler.rs:196-197 | `LD Vx, Vy` and `LD Vx Vy` assembles to the opcode with hexadecimal digits `8xy0`, for every pair of registers, label table and position, with the labels kept |
| Encoding.EncodeStoreRegisters | src/assembler.rs:199-200 | `LD I, Vy` assembles to the opcode with hexadecimal digits `Fy55`, for every register, label table and position, with the labels kept |
| Encoding.EncodeLoadIndex | src/assembler.rs:202-207 | `LD I, 0xnnn` assembles to the opcode with hexadecimal digits `Annn`, for every address, label table and position, with the labels kept |
| Encoding.EncodeLoadFromDelay | src/assembler.rs:209-210 | `LD Vx, DT` assembles to the opcode with hexadecimal digits `Fx07`, for every register, label table and position, with the labels kept |
| Encoding.EncodeLoadKey | src/assembler.rs:212-213 | `LD Vx, K` assembles to the opcode with hexadecimal digits `Fx0A`, for every register, label table and position, with the labels kept |
| Encoding.EncodeLoadDelay | src/assembler.rs:215-216 | `LD DT, Vy` assembles to the opcode with hexadecimal digits `Fy15`, for every register, label table and position, with the labels kept |
| Encoding.EncodeLoadSound | src/assembler.rs:218-219 | `LD ST, Vy` assembles to the opcode with hexadecimal digits `Fy18`, for every register, label table and position, with the labels kept |
| Encoding.EncodeLoadSprite | src/assembler.rs:221-222 | `LD F, Vy` assembles to the opcode with hexadecimal digits `Fy29`, for every register, label table and position, with the labels kept |
| Encoding.EncodeLoadDecimal | src/assembler.rs:224-225 | `LD B, Vy` assembles to the opcode with hexadecimal digits `Fy33`, for every register, label table and position, with the labels kept |
| Encoding.EncodeLoadRegisters | src/assembler.rs:227-228 | `LD Vx, I` assembles to the opcode with hexadecimal digits `Fx65`, for every register, label table and position, with the labels kept |
| Encoding.EncodeLoadByte | src/assembler.rs:230-231 | `LD Vx, 0xkk` assembles to the opcode with hexadecimal digits `6xkk`, for every register, byte, label table and position, with the labels kept |
| Encoding.EncodeLoadShortByte | src/assembler.rs:104-111 | `LD Vx, 0xk` (one digit, zero-padded) assembles to the opcode with hexadecimal digits `6x0k`, for every register, digit, label table and position, with the labels kept |
| Encoding.EncodeLoadDecimalByte | src/assembler.rs:104-111 | `LD Vx, n` with a decimal numeral `n` below 256 assembles to `6x` followed by the two hexadecimal digits of `n`, for every register, numeral, label table and position, with the labels kept |
| Encoding.DecimalByteOperands | src/assembler.rs:104-111 | in `LD Vx, n` with a decimal byte, the register is `x`, there is no `y`, and the byte is the two hexadecimal digits of `n` |
| Encoding.LoadDecimalText | src/assembler.rs:230-231 | `LD Vx, n` with a decimal numeral falls through every other form of `LD` to `6xkk` |
| Encoding.EncodeAddByte | src/assembler.rs:241-242 | `ADD Vx, 0xkk` assembles to the opcode with hexadecimal digits `7xkk`, for every register, byte, label table and position, with the labels kept |
| Encoding.EncodeAddIndex | src/assembler.rs:244-246 | `ADD I, Vy` assembles to the opcode with hexadecimal digits `Fy1E`, for every register, label table and position, with the labels kept |
| Encoding.EncodeAddRegisters | src/assembler.rs:248-249 | `ADD Vx, Vy` and `ADD Vx Vy` assembles to the opcode with hexadecimal digits `8xy4`, for every pair of registers, label table and position, with the labels kept |
| Encoding.EncodeOr | src/assembler.rs:253 | `OR Vx, Vy` assembles to the opcode with hexadecimal digits `8xy1`, for every pair of registers, label table and position, with the labels kept |
| Encoding.EncodeAnd | src/assembler.rs:255 | `AND Vx, Vy` assembles to the opcode with hexadecimal digits `8xy2`, for every pair of registers, label table and position, with the labels kept |
| Encoding.EncodeXor | src/assembler.rs:257 | `XOR Vx, Vy` assembles to the opcode with hexadecimal digits `8xy3`, for every pair of registers, label table and position, with the labels kept |
| Encoding.EncodeSub | src/assembler.rs:259 | `SUB Vx, Vy` assembles to the opcode with hexadecimal digits `8xy5`, for every pair of registers, label table and position, with the labels kept |
| Encoding.EncodeShiftRight | src/assembler.rs:262-263 | `SHR Vx` assembles to the opcode with hexadecimal digits `8x06`, for every register, label table and position, with the labels kept |
| Encoding.EncodeShiftRightPair | src/assembler.rs:264-265 | `SHR Vx, Vy` assembles to the opcode with hexadecimal digits `8xy6`, for every pair of registers, label table and position, with the labels kept |
| Encoding.EncodeSubN | src/assembler.rs:269 | `SUBN Vx, Vy` assembles to the opcode with hexadecimal digits `8xy7`, for every pair of registers, label table and position, with the labels kept |
| Encoding.EncodeShiftLeft | src/assembler.rs:272-273 | `SHL Vx` assembles to the opcode with hexadecimal digits `8x0E`, for every register, label table and position, with the labels kept |
| Encoding.EncodeShiftLeftPair | src/assembler.rs:274-275 | `SHL Vx, Vy` assembles to the opcode with hexadecimal digits `8xyE`, for every pair of registers, label table and position, with the labels kept |
| Encoding.EncodeRandomByte | src/assembler.rs:279 | `RND Vx, 0xkk` assembles to the opcode with hexadecimal digits `Cxkk`, for every register, byte, label table and position, with the labels kept |
| Encoding.EncodeDraw | src/assembler.rs:281 | `DRW Vx, Vy, 0xn` assembles to the opcode with hexadecimal digits `Dxyn`, for every pair of registers, nibble, label table and position, with the labels kept |
| Encoding.EncodeSkipPressed | src/assembler.rs:283 | `SKP Vx` assembles to the opcode with hexadecimal digits `Ex9E`, for every register, label table and position, with the labels kept |
| Encoding.EncodeSkipNotPressed | src/assembler.rs:285 | `SKNP Vx` assembles to the opcode with hexadecimal digits `ExA1`, for every register, label table and position, with the labels kept |
| Encoding.TokensOfJoin | src/assembler.rs:86-90 | tokens joined by single spaces, without comment, tokenize back into those tokens |
| Encoding.ParseLine | src/assembler.rs:70-90 | such a line parses exactly as its tokens |
| Encoding.RegisterToken | src/assembler.rs:94-98 | `V<c>` and `V<c>,` give the register digit `c` |
| Encoding.HexLiteral | src/assembler.rs:325 | a `0x` literal loses exactly its prefix |
| Encoding.FourDigits | src/assembler.rs:290 | four hexadecimal digits parse to their value as a `u16` |
| Encoding.ByteOperands | src/assembler.rs:104-111 | in `<op> Vx, 0xkk` the register is `x`, there is no `y`, and the byte is `kk` padded to two digits |
| Encoding.PairOperands | src/assembler.rs:94-103 | in `<op> Vx, Vy` the registers are `x` and `y` and there is no byte |
| Encoding.AddressOperand | src/assembler.rs:112-119 | in `<op> 0xnnn` there are no registers and the address is `nnn` |
| Encoding.ShortAddressOperand | src/assembler.rs:112-119 | in `<op> 0xh` with one to three digits there are no registers and the address is `h` zero-padded to three |
| Encoding.DrawOperands | src/assembler.rs:120-127 | in `DRW Vx, Vy, 0xn` the registers are `x` and `y` and the nibble is `n` |
| Encoding.OpcodeOfTokens | src/assembler.rs:289-294 | where the table gives digits that parse, the tokens assemble to their value and the label table is kept |
| EncodingLines.BareLine | src/assembler.rs:86-90 | the written line a lone mnemonic parses as its tokens |
| EncodingLines.AddressLine | src/assembler.rs:86-90 | the written line `<op> 0xnnn` parses as its tokens |
| EncodingLines.ShortAddressLine | src/assembler.rs:86-90 | the written line `<op> 0xh` with one to three digits parses as its tokens |
| EncodingLines.SecondAddressLine | src/assembler.rs:86-90 | the written line `<op> <first> 0xnnn` parses as its tokens |
| EncodingLines.ByteLine | src/assembler.rs:86-90 | the written line `<op> Vx, 0xkk` parses as its tokens |
| EncodingLines.DecimalByteLine | src/assembler.rs:86-90 | the written line `<op> Vx, n` with a decimal numeral parses as its tokens |
| EncodingLines.PairLine | src/assembler.rs:86-90 | the written line `<op> Vx, Vy` parses as its tokens |
| EncodingLines.SingleLine | src/assembler.rs:86-90 | the written line `<op> Vx` parses as its tokens |
| EncodingLines.TargetLine | src/assembler.rs:86-90 | the written line `<op> <keyword> Vy` parses as its tokens |
| EncodingLines.SourceLine | src/assembler.rs:86-90 | the written line `LD Vx, <keyword>` parses as its tokens |
| EncodingLines.DrawLine | src/assembler.rs:86-90 | the written line `DRW Vx, Vy, 0xn` parses as its tokens |
| AssemblerExamples.SysLine | src/assembler.rs:341 | `SYS 0xFE9` at 0x200 assembles to `0x0FE9`, whatever labels are known, and keeps them |
| AssemblerExamples.ClsLine | src/assembler.rs:342 | `CLS` at 0x200 assembles to `0x00E0`, whatever labels are known, and keeps them |
| AssemblerExamples.RetLine | src/assembler.rs:343 | `RET` at 0x200 assembles to `0x00EE`, whatever labels are known, and keeps them |
| AssemblerExamples.JpLine | src/assembler.rs:344 | `JP 0xE13` at 0x200 assembles to `0x1E13`, whatever labels are known, and keeps them |
| AssemblerExamples.CallLine | src/assembler.rs:345 | `CALL 0x5C1` at 0x200 assembles to `0x25C1`, whatever labels are known, and keeps them |
| AssemblerExamples.SeByteLine | src/assembler.rs:346 | `SE V5, 0xFE` at 0x200 assembles to `0x35FE`, whatever labels are known, and keeps them |
| AssemblerExamples.SneByteLine | src/assembler.rs:347 | `SNE VC, 0xD1` at 0x200 assembles to `0x4CD1`, whatever labels are known, and keeps them |
| AssemblerExamples.SeRegisterLine | src/assembler.rs:348 | `SE V1, VF` at 0x200 assembles to `0x51F0`, whatever labels are known, and keeps them |
| AssemblerExamples.LdByteLine | src/assembler.rs:349 | `LD VD, 0x92` at 0x200 assembles to `0x6D92`, whatever labels are known, and keeps them |
| AssemblerExamples.AddByteLine | src/assembler.rs:350 | `ADD V0, 0xFF` at 0x200 assembles to `0x70FF`, whatever labels are known, and keeps them |
| AssemblerExamples.LdRegisterLine | src/assembler.rs:351 | `LD V0, V3` at 0x200 assembles to `0x8030`, whatever labels are known, and keeps them |
| AssemblerExamples.OrLine | src/assembler.rs:352 | `OR V1, V2` at 0x200 assembles to `0x8121`, whatever labels are known, and keeps them |
| AssemblerExamples.AndLine | src/assembler.rs:353 | `AND V5, V1` at 0x200 assembles to `0x8512`, whatever labels are known, and keeps them |
| AssemblerExamples.XorLine | src/assembler.rs:354 | `XOR V2, VA` at 0x200 assembles to `0x82A3`, whatever labels are known, and keeps them |
| AssemblerExamples.AddRegisterLine | src/assembler.rs:355 | `ADD VC, VF` at 0x200 assembles to `0x8CF4`, whatever labels are known, and keeps them |
| AssemblerExamples.SubLine | src/assembler.rs:356 | `SUB V0, V8` at 0x200 assembles to `0x8085`, whatever labels are known, and keeps them |
| AssemblerExamples.ShrLine | src/assembler.rs:357 | `SHR V1` at 0x200 assembles to `0x8106`, whatever labels are known, and keeps them |
| AssemblerExamples.ShrPairLine | src/assembler.rs:358 | `SHR V1 VC` at 0x200 assembles to `0x81C6`, whatever labels are known, and keeps them |
| AssemblerExamples.SubnLine | src/assembler.rs:359 | `SUBN VA, V6` at 0x200 assembles to `0x8A67`, whatever labels are known, and keeps them |
| AssemblerExamples.ShlLine | src/assembler.rs:360 | `SHL V2` at 0x200 assembles to `0x820E`, whatever labels are known, and keeps them |
| AssemblerExamples.ShlPairLine | src/assembler.rs:361 | `SHL V2 V1` at 0x200 assembles to `0x821E`, whatever labels are known, and keeps them |
| AssemblerExamples.SneRegisterLine | src/assembler.rs:362 | `SNE V0, VE` at 0x200 assembles to `0x90E0`, whatever labels are known, and keeps them |
| AssemblerExamples.LdIndexLine | src/assembler.rs:363 | `LD I, 0x46E` at 0x200 assembles to `0xA46E`, whatever labels are known, and keeps them |
| AssemblerExamples.JpOffsetLine | src/assembler.rs:364 | `JP V0, 0xF12` at 0x200 assembles to `0xBF12`, whatever labels are known, and keeps them |
| AssemblerExamples.RndLine | src/assembler.rs:365 | `RND V4, 0xBC` at 0x200 assembles to `0xC4BC`, whatever labels are known, and keeps them |
| AssemblerExamples.DrwLine | src/assembler.rs:366 | `DRW V5, VF, 0xC` at 0x200 assembles to `0xD5FC`, whatever labels are known, and keeps them |
| AssemblerExamples.SkpLine | src/assembler.rs:367 | `SKP V5` at 0x200 assembles to `0xE59E`, whatever labels are known, and keeps them |
| AssemblerExamples.SknpLine | src/assembler.rs:368 | `SKNP VF` at 0x200 assembles to `0xEFA1`, whatever labels are known, and keeps them |
| AssemblerExamples.LdFromDelayLine | src/assembler.rs:369 | `LD VA, DT` at 0x200 assembles to `0xFA07`, whatever labels are known, and keeps them |
| AssemblerExamples.LdKeyLine | src/assembler.rs:370 | `LD VA, K` at 0x200 assembles to `0xFA0A`, whatever labels are known, and keeps them |
| AssemblerExamples.LdDelayLine | src/assembler.rs:371 | `LD DT, V4` at 0x200 assembles to `0xF415`, whatever labels are known, and keeps them |
| AssemblerExamples.LdSoundLine | src/assembler.rs:372 | `LD ST, V4` at 0x200 assembles to `0xF418`, whatever labels are known, and keeps them |
| AssemblerExamples.AddIndexLine | src/assembler.rs:373 | `ADD I, VF` at 0x200 assembles to `0xFF1E`, whatever labels are known, and keeps them |
| AssemblerExamples.LdSpriteLine | src/assembler.rs:374 | `LD F, VC` at 0x200 assembles to `0xFC29`, whatever labels are known, and keeps them |
| AssemblerExamples.LdDecimalLine | src/assembler.rs:375 | `LD B, VB` at 0x200 assembles to `0xFB33`, whatever labels are known, and keeps them |
| AssemblerExamples.LdStoreLine | src/assembler.rs:376 | `LD I, VD` at 0x200 assembles to `0xFD55`, whatever labels are known, and keeps them |
| AssemblerExamples.LdRestoreLine | src/assembler.rs:377 | `LD VC, I` at 0x200 assembles to `0xFC65`, whatever labels are known, and keeps them |
| AssemblerExamples.LdShortByteLine | src/assembler.rs:380 | `LD VA, 0x2` at 0x200 assembles to `0x6A02`, whatever labels are known, and keeps them |
| AssemblerExamples.LdDecimalByteLine | src/assembler.rs:104-111 | `LD V0, 5` at 0x200 assembles to `0x6005`, whatever labels are known, and keeps them |
| AssemblerExamples.JpShortLine | src/assembler.rs:310-312 | `JP 0x12` at 0x200 assembles to `0x1012`, whatever labels are known, and keeps them |
| AssemblerExamples.ClsCommentLine | src/assembler.rs:381 | `CLS ; some comments` at 0x200 assembles to `0x00E0`, whatever labels are known, and keeps them |
| AssemblerExamples.ClsTrailingSpace | src/assembler.rs:381 | `CLS ` with the space left before a comment parses as the one token `CLS` |
| AssemblerExamples.CommentedOutLine | src/assembler.rs:382 | `;LD VA, 0x2` has no opcode and keeps the labels |
| AssemblerExamples.SomeLabelLine | src/assembler.rs:383 | `some_label:` has no opcode and binds `some_label` to 0x200 |
| CorrectedAssembler.FixedPass1 | src/assembler.rs:31-49 | the corrected pass 1 drops directive lines (blank, comment only, or one label definition alone), keeping the labels they define, and records every other line as the original does, in order at `0x200 + 2 * k`; it never fails with an invalid line |
| CorrectedAssembler.Pass2InvalidLine | src/assembler.rs:58 | pass 2 reports a line as invalid only if that line was recorded |
| CorrectedAssembler.DirectiveNeverInvalid | src/assembler.rs:58 | the corrected assembler never reports a directive line (label, comment or blank) as invalid |
| CorrectedAssembler.DirectiveFails | src/assembler.rs:81-137 | a directive line never has an opcode, under any table and position |
| CorrectedAssembler.DirectiveTokensFail | src/assembler.rs:92-137 | the same, stated on the tokens: an empty first token or one ending in `:` gives no opcode |
| CorrectedAssembler.KeptAppend | src/assembler.rs:31-49 | the lines kept from two pieces of a file are the lines kept from each, in order |
| CorrectedAssembler.KeptMembers | src/assembler.rs:31-49 | a line is kept exactly when it is in the file and is not dropped |
| CorrectedAssembler.KeptUndropped | src/assembler.rs:31-49 | no kept line is one that is dropped |
| CorrectedAssembler.FixedRecordPlaced | src/assembler.rs:31-49 | the `n`-th record of the corrected layout holds the `n`-th kept line at `2 * n` past the start |
| CorrectedAssembler.FixedLaidOutSkip | src/assembler.rs:31-49 | dropping a directive and laying out the rest lays out the whole file |
| CorrectedAssembler.FixedLaidOutStep | src/assembler.rs:31-49 | recording a kept line and laying out the rest lays out the whole file |
| CorrectedAssembler.FixedLayout | src/assembler.rs:29-49 | after the corrected pass 1 from the start there is one record per kept line, the `n`-th holding the `n`-th kept line at `0x200 + 2 * n`, and the table is the one all lines define |
| CorrectedAssembler.FixedLaidOutFromStart | src/assembler.rs:29-49 | any corrected layout from the empty state numbers the kept lines from 0x200 in steps of two |
| CorrectedAssembler.ParseBindsOnlyCommand | src/assembler.rs:129-137 | a line can only bind the name its command defines |
| CorrectedAssembler.FixedLabelsKeep | src/assembler.rs:129-137 | a name no line defines keeps its binding through the corrected pass 1 |
| CorrectedAssembler.FixedLabelsBind | src/assembler.rs:129-137 | a dropped line that binds a name, with no later line redefining it, leaves it bound to the position of the next kept line |
| CorrectedAssembler.LabelNamesNextLine | src/assembler.rs:129-137 | after the corrected pass 1, a label `name:` with no later redefinition names the position of the first kept line after it, and that line is recorded there |
| CorrectedAssembler.LabelBound | src/assembler.rs:129-137 | the corrected table binds such a label to `0x200` plus two bytes per kept line before it |
| CorrectedAssembler.NextKeptLine | src/assembler.rs:31-49 | the kept lines of a file are the ones before a dropped line followed by the ones after it |
| CorrectedAssembler.LabelLineDirective | src/assembler.rs:129-137 | `name:` is a directive and its own command |
| CorrectedAssembler.LabelledInstructionAborts | src/assembler.rs:112-137 | `name: op` whose operand is no register, literal or known label is no directive, and both assemblers reject it with `InvalidAsmLine` |
| CorrectedAssembler.LabelledNoDirective | src/assembler.rs:86-90 | `name: op` splits into the two tokens `name:` and `op`, so it is no directive |
| CorrectedAssembler.Pass1Recorded | src/assembler.rs:31-49 | pass 1 handles its first line by recording it and moving on by two, or by stopping with its panic |
| CorrectedAssembler.FixedPass1Recorded | src/assembler.rs:31-49 | the corrected pass 1 treats a line that is not a directive exactly as the original does |
| CorrectedAssembler.FixedPass1Agrees | src/assembler.rs:31-49 | on a file without directive lines the corrected pass 1 equals the original |
| CorrectedAssembler.FixedAssembledAgrees | src/assembler.rs:21-67 | on a file without directive lines the corrected assembler gives the same result as the original |
| CorrectedAssembler.FixedExtendsOriginal | src/assembler.rs:21-67 | on every file the original assembles, the corrected assembler gives the same bytes |
| CorrectedAssembler.FixedPass1Skips | src/assembler.rs:31-49 | the corrected pass 1 drops a directive line without an opcode, keeps the label it defines and does not move on |
| CorrectedAssembler.Pass2Resolves | src/assembler.rs:51-64 | pass 2 over a line that resolves appends its two bytes and goes on |
| CorrectedAssembler.FixedForwardJump | src/assembler.rs:21-67 | corrected, `JP name`, `name:`, `CLS` assembles to `12 02 00 E0` |
| CorrectedAssembler.ForwardJumpFirstPass | src/assembler.rs:31-49 | the corrected pass 1 over that file records the jump at 0x200 and `CLS` at 0x202, with `name` bound to 0x202 |
| CorrectedAssembler.JumpIncomplete | src/assembler.rs:112-116 | before the label is known the jump is `Incomplete` |
| CorrectedAssembler.LabelDefined | src/assembler.rs:129-137 | the label line binds the name to the current position |
| CorrectedAssembler.JumpResolves | src/assembler.rs:52-56 | once the label is known the jump resolves to `0x1000` plus its address |
| CorrectedAssembler.Pass2Two | src/assembler.rs:51-64 | pass 2 over two resolving lines writes their four bytes |
| Chip8.Initial | src/main.rs:13-34 | the state starts all zero: memory, registers, `I`, `pc`, `sp`, stack and timers |
| Chip8.Extract | src/main.rs:46-50 | `x` is the low digit of the first byte, `y` the high digit of the second, `kk` the second byte and `nnn` the low twelve bits |
| Chip8.Execute | src/main.rs:54-315 | an arm keeps the state valid, and every arm other than a jump, call, return or skip leaves `pc`, `sp` and the stack alone |
| Chip8.ExecuteMemory | src/main.rs:286-310 | `Fx33`, `Fx55` and `Fx65` change only memory and the registers |
| Chip8.ExecuteFlow | src/main.rs:63-108 | jumps, calls, returns and skips change only `pc`, `sp` and the stack |
| Chip8.ExecuteArithmetic | src/main.rs:115-187 | `7xkk` and the `8xy_` arms change only the registers |
| Chip8.Step | src/main.rs:38-315 | one iteration of the loop keeps the state valid |
| Chip8.Iterate | src/main.rs:37-320 | the loop stops with `pc` at or past the program end, or runs out of fuel with `pc` still inside it; a state is valid throughout |
| Chip8.Advance | src/main.rs:38-315 | the loop body, fed the random byte of each iteration, keeps every valid state valid |
| Chip8.Machine.Model | src/main.rs:13-34 | the arrays and fields of a valid machine hold a valid state |
| Chip8.Machine.constructor | src/main.rs:13-34 | a new machine holds the all-zero initial state |
| Chip8.Machine.RunFor | src/main.rs:37-320 | running the loop for at most `fuel` iterations leaves the machine in the state the specification `Run` reaches, and reports how it stopped |
| Chip8.Machine.Cycle | src/main.rs:38-315 | one iteration changes the machine as `Step` says, or reports the panic |
| Chip8.Machine.Dispatch | src/main.rs:54-315 | the dispatch changes the machine as `Execute` says |
| Chip8.Machine.Transfer | src/main.rs:196-278 | the arms that move values between registers, timers and `I`, and the empty arms, change the machine as `Execute` says |
| Chip8.Machine.Flow | src/main.rs:63-108 | jumps, calls, returns and skips change the machine as `ExecuteFlow` says |
| Chip8.Machine.SkipIf | src/main.rs:89-94 | a skip adds 2 to `pc` when taken, as `Skip` says |
| Chip8.Machine.Calculate | src/main.rs:115-187 | the arithmetic arms change the registers as `ExecuteArithmetic` says |
| Chip8.Machine.CalculateWithFlag | src/main.rs:142-184 | the arms that write VF change the registers as `ExecuteArithmetic` says |
| Chip8.Machine.Subtract | src/main.rs:150-174 | `SUB` and `SUBN` set VF, then subtract unchecked, as `ExecuteArithmetic` says |
| Chip8.Machine.Memory | src/main.rs:286-310 | the memory arms change memory and registers as `Execute` says |
| Chip8.Machine.StoreDigits | src/main.rs:286-292 | `Fx33` writes the three decimal digits of `Vx` as `ExecuteMemory` says |
| Chip8.Machine.StoreBlock | src/main.rs:294-301 | `Fx55` copies all sixteen registers to memory as `ExecuteMemory` says |
| Chip8.Machine.LoadBlock | src/main.rs:303-310 | `Fx65` copies sixteen bytes of memory to the registers as `ExecuteMemory` says |
| Chip8Properties.ExtractDigits | src/main.rs:46-50 | the fields of the opcode `abcd` are its digits `a`, `b`, `c`, `d`, the byte `cd` and the address `bcd` |
| Chip8Properties.FetchAdvances | src/main.rs:38-42 | a step executes the instruction whose two bytes are at `pc` in the program, with `pc` already moved on by 2 |
| Chip8Properties.FetchPastEnd | src/main.rs:38-39 | a step with fewer than two program bytes left at `pc` panics |
| Chip8Properties.CallThenReturn | src/main.rs:63-87 | a call followed by a return comes back to the instruction after the call with the stack pointer restored |
| Chip8Properties.StackBounds | src/main.rs:63-87 | a call succeeds exactly when `sp < 15` and a return exactly when `sp > 0`; the stack pointer stays below 16 |
| Chip8Properties.SixteenthCallOverflows | src/main.rs:82-87 | fifteen nested calls fill the stack and a sixteenth panics |
| Chip8Properties.Nest | src/main.rs:82-87 | nested calls keep the state valid |
| Chip8Properties.NestDepth | src/main.rs:82-87 | `depth` nested calls from `sp` leave `sp + depth` while that is below 16 |
| Chip8Properties.SkipsExactlyTwo | src/main.rs:89-108 | `3xkk`, `4xkk`, `5xy0` and `9xy0` move `pc` on by 2 exactly when their condition holds, and change nothing else |
| Chip8Properties.JumpGoesTo | src/main.rs:77-80 | `1nnn` sets `pc` to `nnn` and changes nothing else |
| Chip8Properties.JumpOffsetGoesTo | src/main.rs:201-204 | `Bnnn` sets `pc` to `nnn + V0`, which never overflows, and changes nothing else |
| Chip8Properties.LoadIndexSets | src/main.rs:196-199 | `Annn` sets `I` to `nnn` and changes nothing else |
| Chip8Properties.AddIndexOverflows | src/main.rs:275-278 | `Fx1E` panics exactly when `I + Vx` passes 0xFFFF, and otherwise changes only `I`, to `I + Vx` |
| Chip8Properties.TimerCopies | src/main.rs:254-273 | `Fx07` copies the delay timer into `Vx`, `Fx15` and `Fx18` copy `Vx` into the delay and sound timers, and nothing else changes |
| Chip8Properties.DelayRoundTrip | src/main.rs:254-268 | `LD DT, Vx` followed by `LD Vy, DT` puts `Vx` in `Vy` |
| Chip8Properties.AddCarries | src/main.rs:142-148 | `8xy4` leaves the sum modulo 256 in `Vx` and the carry in VF, so the two together hold the full sum; with `x = F` the carry wins |
| Chip8Properties.AddByteOverflows | src/main.rs:115-118 | `7xkk` panics exactly when the sum leaves a byte, and otherwise changes only `Vx` |
| Chip8Properties.SubFlags | src/main.rs:150-158 | `8xy5`: VF is 1 exactly when `Vx > Vy`, and `Vx < Vy` panics instead of wrapping |
| Chip8Properties.SubNFlags | src/main.rs:166-174 | `8xy7`: as `8xy5` with the operands swapped |
| Chip8Properties.SubFromFlag | src/main.rs:150-158 | `SUB VF, Vy` reads the flag it has just written, so it can panic where the old VF would not |
| Chip8Properties.ShiftRightHalves | src/main.rs:160-164 | `8xy6`: VF gets the bit shifted out and `Vx` the rest |
| Chip8Properties.ShiftLeftHalves | src/main.rs:176-184 | `8xyE`: VF gets bit 7, but `Vx` is halved, not doubled; only `Vx = 0` ends as a left shift would leave it |
| Chip8Properties.XorRestores | src/main.rs:137-140 | `8xy3` twice with the same `Vy` gives `Vx` back |
| Chip8Properties.RandomMasked | src/main.rs:206-209 | `Cxkk` leaves in `Vx` only bits that are set in `kk`, whatever byte is drawn |
| Chip8Properties.StoreDecimalDigits | src/main.rs:286-292 | `Fx33` writes the hundreds, tens and ones digits of `Vx` at `I`, `I + 1`, `I + 2` and nothing else, and panics when `I + 2` is past memory |
| Chip8Properties.StoreThenLoad | src/main.rs:294-310 | `Fx55` copies all sixteen registers to `memory[I..I+15]` whatever `x` is, `Fx65` reads them back, and both panic when `I + 15` is past memory |
| Chip8Properties.UnknownOpcodes | src/main.rs:185-314 | an opcode decodes to no instruction exactly when its sub-opcode in family 8, E or F has no arm |
| Chip8Properties.NoOperationAdvances | src/main.rs:211-284 | an instruction with an empty arm only advances `pc` by 2 |
| Chip8Properties.IterateSplit | src/main.rs:37-320 | running for `a + b` iterations, when `a` ran out of fuel, is running `b` more from where it stopped |
| Chip8Properties.IterateSettled | src/main.rs:37-320 | more fuel does not change a run that halted or panicked |
| Chip8Properties.RunSettled | src/main.rs:37-320 | the same for the loop of `run_instructions` |
| Chip8Properties.StepKeepsStackPointer | src/main.rs:63-87 | from a stack pointer below 16 a step keeps it below 16 |
| Chip8Properties.EmptyProgram | src/main.rs:37-39 | the loop fetches before it tests `pc`, so an empty program panics on its first fetch |
| Chip8Properties.LoadThenAdd | src/main.rs:110-118 | `60 05 70 03` halts after two steps with 8 in V0 |
| Chip8Properties.SubtractUnderflow | src/main.rs:150-158 | `60 03 61 05 80 15` panics on the subtraction |
| Bridge.Decodes | src/main.rs:38-50 | the fetch splits the two bytes pass 2 writes for the word `abcd` back into the digits `a`, `b`, `c`, `d` |
| Bridge.ClearDecodes | src/main.rs:58-61 | the engine decodes the bytes of `00E0` into the arm of `CLS`, with the same digits as operands |
| Bridge.ReturnDecodes | src/main.rs:63-67 | the engine decodes the bytes of `00EE` into the arm of `RET`, with the same digits as operands |
| Bridge.SystemDecodes | src/main.rs:69-72 | the engine decodes the bytes of `0nnn` (other than `00E0` and `00EE`) into the arm of `SYS nnn`, with the same digits as operands |
| Bridge.JumpDecodes | src/main.rs:77-80 | the engine decodes the bytes of `1nnn` into the arm of `JP nnn`, with the same digits as operands |
| Bridge.CallDecodes | src/main.rs:82-87 | the engine decodes the bytes of `2nnn` into the arm of `CALL nnn`, with the same digits as operands |
| Bridge.SkipEqualByteDecodes | src/main.rs:89-94 | the engine decodes the bytes of `3xkk` into the arm of `SE Vx, kk`, with the same digits as operands |
| Bridge.SkipNotEqualByteDecodes | src/main.rs:96-101 | the engine decodes the bytes of `4xkk` into the arm of `SNE Vx, kk`, with the same digits as operands |
| Bridge.SkipEqualDecodes | src/main.rs:103-108 | the engine decodes the bytes of `5xy0` into the arm of `SE Vx, Vy`, with the same digits as operands |
| Bridge.LoadByteDecodes | src/main.rs:110-113 | the engine decodes the bytes of `6xkk` into the arm of `LD Vx, kk`, with the same digits as operands |
| Bridge.AddByteDecodes | src/main.rs:115-118 | the engine decodes the bytes of `7xkk` into the arm of `ADD Vx, kk`, with the same digits as operands |
| Bridge.LoadDecodes | src/main.rs:122-125 | the engine decodes the bytes of `8xy0` into the arm of `LD Vx, Vy`, with the same digits as operands |
| Bridge.BitOrDecodes | src/main.rs:127-130 | the engine decodes the bytes of `8xy1` into the arm of `OR Vx, Vy`, with the same digits as operands |
| Bridge.BitAndDecodes | src/main.rs:132-135 | the engine decodes the bytes of `8xy2` into the arm of `AND Vx, Vy`, with the same digits as operands |
| Bridge.BitXorDecodes | src/main.rs:137-140 | the engine decodes the bytes of `8xy3` into the arm of `XOR Vx, Vy`, with the same digits as operands |
| Bridge.AddDecodes | src/main.rs:142-148 | the engine decodes the bytes of `8xy4` into the arm of `ADD Vx, Vy`, with the same digits as operands |
| Bridge.SubDecodes | src/main.rs:150-158 | the engine decodes the bytes of `8xy5` into the arm of `SUB Vx, Vy`, with the same digits as operands |
| Bridge.ShiftRightDecodes | src/main.rs:160-164 | the engine decodes the bytes of `8xy6` into the arm of `SHR Vx, Vy`, with the same digits as operands |
| Bridge.SubNDecodes | src/main.rs:166-174 | the engine decodes the bytes of `8xy7` into the arm of `SUBN Vx, Vy`, with the same digits as operands |
| Bridge.ShiftLeftDecodes | src/main.rs:176-184 | the engine decodes the bytes of `8xyE` into the arm of `SHL Vx, Vy`, with the same digits as operands |
| Bridge.SkipNotEqualDecodes | src/main.rs:189-194 | the engine decodes the bytes of `9xy0` into the arm of `SNE Vx, Vy`, with the same digits as operands |
| Bridge.LoadIndexDecodes | src/main.rs:196-199 | the engine decodes the bytes of `Annn` into the arm of `LD I, nnn`, with the same digits as operands |
| Bridge.JumpOffsetDecodes | src/main.rs:201-204 | the engine decodes the bytes of `Bnnn` into the arm of `JP V0, nnn`, with the same digits as operands |
| Bridge.RandomDecodes | src/main.rs:206-209 | the engine decodes the bytes of `Cxkk` into the arm of `RND Vx, kk`, with the same digits as operands |
| Bridge.DrawDecodes | src/main.rs:211-225 | the engine decodes the bytes of `Dxyn` into the arm of `DRW Vx, Vy, n`, with the same digits as operands |
| Bridge.SkipPressedDecodes | src/main.rs:229-237 | the engine decodes the bytes of `Ex9E` into the arm of `SKP Vx`, with the same digits as operands |
| Bridge.SkipNotPressedDecodes | src/main.rs:239-247 | the engine decodes the bytes of `ExA1` into the arm of `SKNP Vx`, with the same digits as operands |
| Bridge.LoadFromDelayDecodes | src/main.rs:254-257 | the engine decodes the bytes of `Fx07` into the arm of `LD Vx, DT`, with the same digits as operands |
| Bridge.WaitKeyDecodes | src/main.rs:259-263 | the engine decodes the bytes of `Fx0A` into the arm of `LD Vx, K`, with the same digits as operands |
| Bridge.LoadDelayDecodes | src/main.rs:265-268 | the engine decodes the bytes of `Fx15` into the arm of `LD DT, Vx`, with the same digits as operands |
| Bridge.LoadSoundDecodes | src/main.rs:270-273 | the engine decodes the bytes of `Fx18` into the arm of `LD ST, Vx`, with the same digits as operands |
| Bridge.AddIndexDecodes | src/main.rs:275-278 | the engine decodes the bytes of `Fx1E` into the arm of `ADD I, Vx`, with the same digits as operands |
| Bridge.LoadFontDecodes | src/main.rs:280-284 | the engine decodes the bytes of `Fx29` into the arm of `LD F, Vx`, with the same digits as operands |
| Bridge.StoreDecimalDecodes | src/main.rs:286-292 | the engine decodes the bytes of `Fx33` into the arm of `LD B, Vx`, with the same digits as operands |
| Bridge.StoreRegistersDecodes | src/main.rs:294-301 | the engine decodes the bytes of `Fx55` into the arm of `LD [I], Vx`, with the same digits as operands |
| Bridge.LoadRegistersDecodes | src/main.rs:303-310 | the engine decodes the bytes of `Fx65` into the arm of `LD Vx, [I]`, with the same digits as operands |
| Bridge.ParsedRuns | src/assembler.rs:289-294 | tokens that assemble to an opcode the engine decodes into an instruction run as that instruction |
| Bridge.ClearRuns | src/assembler.rs:141 | `CLS` assembles to an opcode that the engine decodes into the clear, with the registers, byte or address written |
| Bridge.ReturnRuns | src/assembler.rs:143 | `RET` assembles to an opcode that the engine decodes into the return, with the registers, byte or address written |
| Bridge.SystemRuns | src/assembler.rs:145 | `SYS 0xnnn` assembles to an opcode that the engine decodes into the system call to `nnn`, with the registers, byte or address written |
| Bridge.JumpRuns | src/assembler.rs:149-150 | `JP 0xnnn` assembles to an opcode that the engine decodes into the jump to `nnn`, with the registers, byte or address written |
| Bridge.JumpOffsetRuns | src/assembler.rs:151-156 | `JP Vx, 0xnnn` assembles to an opcode that the engine decodes into the jump to `nnn` plus V0 (the register written is dropped), with the registers, byte or address written |
| Bridge.CallRuns | src/assembler.rs:160 | `CALL 0xnnn` assembles to an opcode that the engine decodes into the call of `nnn`, with the registers, byte or address written |
| Bridge.SkipEqualByteRuns | src/assembler.rs:165-166 | `SE Vx, 0xkk` assembles to an opcode that the engine decodes into the skip if `Vx == kk`, with the registers, byte or address written |
| Bridge.SkipEqualRuns | src/assembler.rs:168-169 | `SE Vx, Vy` assembles to an opcode that the engine decodes into the skip if `Vx == Vy`, with the registers, byte or address written |
| Bridge.SkipNotEqualByteRuns | src/assembler.rs:176-177 | `SNE Vx, 0xkk` assembles to an opcode that the engine decodes into the skip if `Vx != kk`, with the registers, byte or address written |
| Bridge.SkipNotEqualRuns | src/assembler.rs:179-180 | `SNE Vx, Vy` assembles to an opcode that the engine decodes into the skip if `Vx != Vy`, with the registers, byte or address written |
| Bridge.LoadRuns | src/assembler.rs:196-197 | `LD Vx, Vy` assembles to an opcode that the engine decodes into the register copy, with the registers, byte or address written |
| Bridge.StoreRegistersRuns | src/assembler.rs:199-200 | `LD I, Vx` assembles to an opcode that the engine decodes into the register store `Fx55`, with the registers, byte or address written |
| Bridge.LoadIndexRuns | src/assembler.rs:202-207 | `LD I, 0xnnn` assembles to an opcode that the engine decodes into the load of `I`, with the registers, byte or address written |
| Bridge.LoadFromDelayRuns | src/assembler.rs:209-210 | `LD Vx, DT` assembles to an opcode that the engine decodes into the read of the delay timer, with the registers, byte or address written |
| Bridge.WaitKeyRuns | src/assembler.rs:212-213 | `LD Vx, K` assembles to an opcode that the engine decodes into the key wait, with the registers, byte or address written |
| Bridge.LoadDelayRuns | src/assembler.rs:215-216 | `LD DT, Vx` assembles to an opcode that the engine decodes into the delay timer load, with the registers, byte or address written |
| Bridge.LoadSoundRuns | src/assembler.rs:218-219 | `LD ST, Vx` assembles to an opcode that the engine decodes into the sound timer load, with the registers, byte or address written |
| Bridge.LoadFontRuns | src/assembler.rs:221-222 | `LD F, Vx` assembles to an opcode that the engine decodes into the font address load, with the registers, byte or address written |
| Bridge.StoreDecimalRuns | src/assembler.rs:224-225 | `LD B, Vx` assembles to an opcode that the engine decodes into the decimal store, with the registers, byte or address written |
| Bridge.LoadRegistersRuns | src/assembler.rs:227-228 | `LD Vx, I` assembles to an opcode that the engine decodes into the register load `Fx65`, with the registers, byte or address written |
| Bridge.LoadByteRuns | src/assembler.rs:230-231 | `LD Vx, 0xkk` assembles to an opcode that the engine decodes into the byte load, with the registers, byte or address written |
| Bridge.LoadShortByteRuns | src/assembler.rs:104-111 | `LD Vx, 0xk` assembles to an opcode that the engine decodes into the byte load of `0k`, with the registers, byte or address written |
| Bridge.AddByteRuns | src/assembler.rs:241-242 | `ADD Vx, 0xkk` assembles to an opcode that the engine decodes into the byte add, with the registers, byte or address written |
| Bridge.AddIndexRuns | src/assembler.rs:244-246 | `ADD I, Vx` assembles to an opcode that the engine decodes into the add to `I`, with the registers, byte or address written |
| Bridge.AddRuns | src/assembler.rs:248-249 | `ADD Vx, Vy` assembles to an opcode that the engine decodes into the add with carry, with the registers, byte or address written |
| Bridge.OrRuns | src/assembler.rs:253 | `OR Vx, Vy` assembles to an opcode that the engine decodes into the or, with the registers, byte or address written |
| Bridge.AndRuns | src/assembler.rs:255 | `AND Vx, Vy` assembles to an opcode that the engine decodes into the and, with the registers, byte or address written |
| Bridge.XorRuns | src/assembler.rs:257 | `XOR Vx, Vy` assembles to an opcode that the engine decodes into the exclusive or, with the registers, byte or address written |
| Bridge.SubRuns | src/assembler.rs:259 | `SUB Vx, Vy` assembles to an opcode that the engine decodes into the subtraction, with the registers, byte or address written |
| Bridge.ShiftRightRuns | src/assembler.rs:262-263 | `SHR Vx` assembles to an opcode that the engine decodes into the right shift with `y = 0`, with the registers, byte or address written |
| Bridge.ShiftRightPairRuns | src/assembler.rs:264-265 | `SHR Vx, Vy` assembles to an opcode that the engine decodes into the right shift, with the registers, byte or address written |
| Bridge.SubNRuns | src/assembler.rs:269 | `SUBN Vx, Vy` assembles to an opcode that the engine decodes into the reverse subtraction, with the registers, byte or address written |
| Bridge.ShiftLeftRuns | src/assembler.rs:272-273 | `SHL Vx` assembles to an opcode that the engine decodes into the left shift with `y = 0`, with the registers, byte or address written |
| Bridge.ShiftLeftPairRuns | src/assembler.rs:274-275 | `SHL Vx, Vy` assembles to an opcode that the engine decodes into the left shift, with the registers, byte or address written |
| Bridge.RandomRuns | src/assembler.rs:279 | `RND Vx, 0xkk` assembles to an opcode that the engine decodes into the masked random byte, with the registers, byte or address written |
| Bridge.DrawRuns | src/assembler.rs:281 | `DRW Vx, Vy, 0xn` assembles to an opcode that the engine decodes into the draw, with the registers, byte or address written |
| Bridge.SkipPressedRuns | src/assembler.rs:283 | `SKP Vx` assembles to an opcode that the engine decodes into the skip if pressed, with the registers, byte or address written |
| Bridge.SkipNotPressedRuns | src/assembler.rs:285 | `SKNP Vx` assembles to an opcode that the engine decodes into the skip if not pressed, with the registers, byte or address written |
| AssembledPrograms.LoadFive | src/assembler.rs:230-231 | `LD V0, 0x05` assembles to `0x6005` at any position |
| AssembledPrograms.AddThree | src/assembler.rs:241-242 | `ADD V0, 0x03` assembles to `0x7003` at any position |
| AssembledPrograms.TwoLinesLaidOut | src/assembler.rs:31-49 | two lines that each assemble on their own are recorded with their opcodes at 0x200 and 0x202 |
| AssembledPrograms.TwoLinesAssemble | src/assembler.rs:21-67 | such a file assembles to the two opcodes, each high byte first |
| AssembledPrograms.LoadAddBytes | src/assembler.rs:51-64 | lines assembling to `0x6005` and `0x7003` give the bytes `60 05 70 03` |
| AssembledPrograms.LoadAddAssembles | src/assembler.rs:21-67 | the file `LD V0, 0x05`, `ADD V0, 0x03` assembles to `60 05 70 03` |
| AssembledPrograms.AssembleThenRun | src/main.rs:37-320 | that file, assembled and then run, halts after two steps with 8 in V0 and no carry in VF |

## Left out

- Assembler.GetAddress: its own contract states only when it fails and that a `0x` literal gives at least three digits. The text it writes is stated by `AddressLiteralText` and `AddressLabelText`. Those clauses are kept off the function because every opcode-table proof reads its contract.
- Assembler.GetHexStr: its own contract states when it gives a result and what a `0x` literal gives. The text written for a decimal operand is stated by `HexStrText`, for the same reason.
- File I/O in `assemble` (opening and reading the file) is left out. The model takes the lines of the file as a sequence of strings, and a line that fails to read is not modelled.
- The `println!` debugging output (`DEBUG` is `false`) and the `main` function are left out. So are the tests' call signatures: the tests pass `String` and expect `Option`, while the function takes `&String` and returns `Result`. The examples state each test line's result in the function's own terms.
- `rand::random` in `Cxkk` is a parameter: `Step` takes the drawn byte, and a run takes a function from the iteration number to the byte.
- `Dxyn`, `Fx0A` and `Fx29` are unfinished in the source (their arms only hold a TODO). They are modelled as they stand: they only advance `pc`. Display, keyboard, font data, the ticking of the two timers and sound are not part of the source's loop, and not of the model.
- The state of the locals after a panic is not kept. A panic ends the run with a `Fault`, and writes done before the panic in the same arm (the first bytes of an `Fx55` that runs off memory) are not observable.
- Chip8.Iterate: the loop of `run_instructions` has no bound. The model runs it for at most `fuel` iterations and reports `OutOfFuel` when the bound is reached, so a program that never ends is described only up to each finite bound.
- Chip8.Machine.RunFor: the same fuel bound as `Iterate`.
- Arithmetic overflow is modelled as a debug build checks it. The `u16` additions on `pc`, `I` and `memory_position` and the `u8` additions and subtractions panic; the `+=` and `-=` on `sp` panic below zero. A release build would wrap instead, and that is not modelled.
- Assembler.ParseAsmLine: a panic is a `Panicked` result rather than the end of the process, and the text printed before `panic!()` is not modelled. The panics are a malformed opcode text (`WrongOpcodeFormat`) and an operand indexed past the end of the tokens (`OperandMissing`): `JP` alone (src/assembler.rs:152), `LD` alone (src/assembler.rs:199), `LD Vx` with no second operand (src/assembler.rs:209), and `LD I,` with no third token when `I,` is itself a known label (src/assembler.rs:203; otherwise the unknown operand makes the line `Incomplete` first, src/assembler.rs:112-116).
- CorrectedAssembler.FixedPass1: what counts as a line "without an instruction" is a choice. The correction drops only directive lines (empty or all spaces once the comment is cut off, or a single token ending in `:`). Any other line without an opcode, such as an unknown mnemonic or a label followed by an instruction on the same line, is recorded and still aborts pass 2 as in the original.

## Findings

| source | as written | input that shows it | evidently intended | confidence | as-written member | corrected member |
|---|---|---|---|---|---|---|
| src/assembler.rs:31-60 | pass 1 gives every line, including a label definition, a comment line or a blank line, an `AsmLine` with no opcode and two bytes of room; pass 2 then parses such a line again, finds no opcode and panics with "Invalid asm line" | the file `JP name`, `name:`, `CLS` (or any file holding a label line, a comment line or a blank line) | lines without an instruction take no room and are not written, and a label names the instruction after it, so the file assembles to `12 02 00 E0` | not executed | AssemblerProperties.ForwardLabelAborts | CorrectedAssembler.FixedForwardJump |
| src/assembler.rs:31-60 | any label, comment or blank line aborts the whole assembly | a file with one `;` comment line among instructions | such a directive line is skipped; the corrected assembler never reports it as invalid, and gives the original's bytes on every file the original assembles; other lines without an opcode, including a label followed by an instruction on the same line, still abort | not executed | AssemblerProperties.SilentLineAborts | CorrectedAssembler.DirectiveNeverInvalid |
