/**
 * `assemble` as its label syntax intends it. As written, pass 1 of
 * `src/assembler.rs` (lines 31-49) gives every line two bytes, so a label
 * definition, a comment or a blank line takes a slot and pass 2 (line 58)
 * panics on it. Here pass 1 drops a directive line (one that is empty or only
 * spaces once its comment is gone, or whose first token defines a label): it
 * takes no room, and a label it defines names the instruction after it. Every
 * other line is handled as the original handles it.
 */
module CorrectedAssembler {
  import opened Wrappers
  import opened Words
  import opened Text
  import opened Assembler
  import opened Encoding
  import opened EncodingLines
  import opened AssemblerProperties

  // ---------------------------------------------------------------------------
  // Directive lines
  // ---------------------------------------------------------------------------

  /**
   * A line with nothing to lay out: empty or only spaces once its comment is
   * gone, or a single token ending in `:` that only defines a label. A label
   * followed by an instruction on the same line is no directive.
   */
  predicate Directive(line: string)
  {
    |Tokens(StripComment(line))| == 1 && (Command(line) == "" || EndsWith(Command(line), ":"))
  }

  /** The lines of a file that `drop` does not hold of, in order: with `Directive`, the ones that take room in memory. */
  function Kept(drop: string -> bool, lines: seq<string>): (r: seq<string>)
    ensures |r| <= |lines|
  {
    if lines == [] then []
    else (if drop(lines[0]) then [] else [lines[0]]) + Kept(drop, lines[1..])
  }

  /** Keeping the lines of two pieces of a file keeps the lines of the whole. */
  lemma {:induction false} KeptAppend(drop: string -> bool, a: seq<string>, b: seq<string>)
    ensures Kept(drop, a + b) == Kept(drop, a) + Kept(drop, b)
    decreases |a|
  {
    if a == [] {
      assert a + b == b;
    } else {
      assert (a + b)[0] == a[0] && (a + b)[1..] == a[1..] + b;
      KeptAppend(drop, a[1..], b);
    }
  }

  /** A line is kept exactly when it is in the file and not dropped. */
  lemma {:induction false} KeptMembers(drop: string -> bool, lines: seq<string>, line: string)
    ensures line in Kept(drop, lines) <==> line in lines && !drop(line)
    decreases |lines|
  {
    if lines != [] {
      KeptMembers(drop, lines[1..], line);
      assert lines == [lines[0]] + lines[1..];
    }
  }

  /**
   * A directive never has an opcode and never panics: an empty mnemonic
   * matches no form, and a label definition returns before the opcode table.
   */
  lemma DirectiveFails(line: string, labels: Labels, position: u16)
    requires Directive(line)
    ensures ParseAsmLine(line, labels, position).result.Failed?
  {
    var text := StripComment(line);
    if text != "" {
      DirectiveTokensFail(Tokens(text), labels, position);
    }
  }

  lemma DirectiveTokensFail(parts: seq<string>, labels: Labels, position: u16)
    requires |parts| >= 1 && (parts[0] == "" || EndsWith(parts[0], ":"))
    ensures ParseTokens(parts, labels, position).result.Failed?
  {
  }

  // ---------------------------------------------------------------------------
  // The corrected pass 1
  // ---------------------------------------------------------------------------

  /**
   * The label table after `lines`, read by `parse` from `labels` at `position`;
   * a line that `drop` holds of is read at the position of the next kept line.
   */
  function FixedLabels(parse: LineParser, drop: string -> bool, lines: seq<string>, labels: Labels, position: u16): Labels
    requires position + 2 * |Kept(drop, lines)| <= 0xFFFF
    decreases |lines|
  {
    if lines == [] then labels
    else
      var p := parse(lines[0], labels, position);
      FixedLabels(parse, drop, lines[1..], p.labels, if drop(lines[0]) then position else position + 2)
  }

  /** The entry recorded for kept line `n` of `lines`, read the same way. */
  function FixedRecord(parse: LineParser, drop: string -> bool, lines: seq<string>, labels: Labels, position: u16, n: nat): AsmLine
    requires n < |Kept(drop, lines)| && position + 2 * |Kept(drop, lines)| <= 0xFFFF
    decreases |lines|
  {
    var p := parse(lines[0], labels, position);
    if drop(lines[0]) then FixedRecord(parse, drop, lines[1..], p.labels, position, n)
    else if n == 0 then AsmLine(lines[0], OpcodeOf(p.result), position)
    else FixedRecord(parse, drop, lines[1..], p.labels, position + 2, n - 1)
  }

  /** Kept line `n` is recorded as itself, `2 * n` bytes after the start. */
  lemma {:induction false} FixedRecordPlaced(parse: LineParser, drop: string -> bool, lines: seq<string>, labels: Labels, position: u16, n: nat)
    requires n < |Kept(drop, lines)| && position + 2 * |Kept(drop, lines)| <= 0xFFFF
    ensures FixedRecord(parse, drop, lines, labels, position, n).line == Kept(drop, lines)[n]
    ensures FixedRecord(parse, drop, lines, labels, position, n).memoryPosition == position + 2 * n
    decreases |lines|
  {
    var p := parse(lines[0], labels, position);
    if drop(lines[0]) {
      FixedRecordPlaced(parse, drop, lines[1..], p.labels, position, n);
    } else if n > 0 {
      FixedRecordPlaced(parse, drop, lines[1..], p.labels, position + 2, n - 1);
    }
  }

  /** No kept line is one that `drop` holds of. */
  lemma {:induction false} KeptUndropped(drop: string -> bool, lines: seq<string>, n: nat)
    requires n < |Kept(drop, lines)|
    ensures !drop(Kept(drop, lines)[n])
    decreases |lines|
  {
    if drop(lines[0]) {
      KeptUndropped(drop, lines[1..], n);
    } else if n > 0 {
      KeptUndropped(drop, lines[1..], n - 1);
    }
  }

  /**
   * `r` holds the lines of `st` followed by the entry of each kept line of
   * `lines`, in order, two bytes apart; `r`'s table is the one the last line
   * leaves.
   */
  ghost predicate FixedLaidOut(parse: LineParser, drop: string -> bool, lines: seq<string>, st: FirstPass, r: FirstPass)
  {
    |r.asmLines| == |st.asmLines| + |Kept(drop, lines)| &&
    r.asmLines[..|st.asmLines|] == st.asmLines &&
    r.memoryPosition == st.memoryPosition + 2 * |Kept(drop, lines)| &&
    r.labels == FixedLabels(parse, drop, lines, st.labels, st.memoryPosition) &&
    forall n :: |st.asmLines| <= n < |r.asmLines| ==>
      r.asmLines[n] == FixedRecord(parse, drop, lines, st.labels, st.memoryPosition, n - |st.asmLines|)
  }

  /** Dropping a line and then laying out the rest lays out all of them. */
  lemma FixedLaidOutSkip(parse: LineParser, drop: string -> bool, lines: seq<string>, st: FirstPass, next: FirstPass, r: FirstPass)
    requires lines != [] && drop(lines[0])
    requires next == FirstPass(st.asmLines, parse(lines[0], st.labels, st.memoryPosition).labels, st.memoryPosition)
    requires FixedLaidOut(parse, drop, lines[1..], next, r)
    ensures FixedLaidOut(parse, drop, lines, st, r)
  {
  }

  /** Recording a kept line and then laying out the rest lays out all of them. */
  lemma FixedLaidOutStep(parse: LineParser, drop: string -> bool, lines: seq<string>, st: FirstPass, next: FirstPass, r: FirstPass)
    requires lines != [] && !drop(lines[0]) && st.memoryPosition + 2 <= 0xFFFF
    requires var p := parse(lines[0], st.labels, st.memoryPosition);
      next == FirstPass(st.asmLines + [AsmLine(lines[0], OpcodeOf(p.result), st.memoryPosition)], p.labels, st.memoryPosition + 2)
    requires FixedLaidOut(parse, drop, lines[1..], next, r)
    ensures FixedLaidOut(parse, drop, lines, st, r)
  {
    var s := |st.asmLines|;
    assert r.asmLines[..s] == st.asmLines by {
      assert r.asmLines[..s + 1][..s] == r.asmLines[..s];
    }
    assert r.asmLines[s] == next.asmLines[s] by {
      assert r.asmLines[..s + 1][s] == r.asmLines[s];
    }
  }

  /**
   * Pass 1 with directive lines dropped: a directive is not recorded and takes
   * no room, and its label, if it defines one, is kept; every other line is
   * recorded as the original records it.
   */
  function FixedPass1(lines: seq<string>, st: FirstPass): (r: Result<FirstPass, Panic>)
    ensures r.Ok? ==> FixedLaidOut(ParseAsmLine, Directive, lines, st, r.value)
    ensures r.Err? ==> !r.error.InvalidAsmLine?
    decreases |lines|
  {
    if lines == [] then
      assert st.asmLines[..|st.asmLines|] == st.asmLines;
      Ok(st)
    else
      var p := ParseAsmLine(lines[0], st.labels, st.memoryPosition);
      if p.result.Panicked? then Err(p.result.panic)
      else if Directive(lines[0]) then
        var next := FirstPass(st.asmLines, p.labels, st.memoryPosition);
        var r := FixedPass1(lines[1..], next);
        if r.Ok? then
          FixedLaidOutSkip(ParseAsmLine, Directive, lines, st, next, r.value);
          r
        else r
      else
        var opcode := if p.result.Opcode? then Some(p.result.value) else None;
        var recorded := st.asmLines + [AsmLine(lines[0], opcode, st.memoryPosition)];
        if st.memoryPosition + 2 > 0xFFFF then Err(PositionOverflow)
        else
          var next := FirstPass(recorded, p.labels, st.memoryPosition + 2);
          var r := FixedPass1(lines[1..], next);
          if r.Ok? then
            FixedLaidOutStep(ParseAsmLine, Directive, lines, st, next, r.value);
            r
          else r
  }

  /** The corrected `assemble`: the fixed pass 1, then pass 2 unchanged. */
  function FixedAssembled(lines: seq<string>): Result<seq<u8>, Panic>
  {
    match FixedPass1(lines, FirstPass([], map[], ProgramStart))
    case Err(k) => Err(k)
    case Ok(st) => Pass2(st.asmLines, st.labels, [])
  }

  /**
   * The corrected pass 1 from the start records kept line `n` of the file,
   * itself, at `0x200 + 2 * n`, and nothing else.
   */
  lemma FixedLayout(lines: seq<string>, st: FirstPass)
    requires FixedPass1(lines, FirstPass([], map[], ProgramStart)) == Ok(st)
    ensures |st.asmLines| == |Kept(Directive, lines)| && ProgramStart + 2 * |Kept(Directive, lines)| <= 0xFFFF
    ensures st.labels == FixedLabels(ParseAsmLine, Directive, lines, map[], ProgramStart)
    ensures forall n :: 0 <= n < |st.asmLines| ==>
      st.asmLines[n].line == Kept(Directive, lines)[n] && st.asmLines[n].memoryPosition == ProgramStart + 2 * n
  {
    FixedLaidOutFromStart(ParseAsmLine, Directive, lines, st);
  }

  /** A layout after the empty state holds kept line `n`, itself, at index `n` and `0x200 + 2 * n`. */
  lemma FixedLaidOutFromStart(parse: LineParser, drop: string -> bool, lines: seq<string>, r: FirstPass)
    requires FixedLaidOut(parse, drop, lines, FirstPass([], map[], ProgramStart), r)
    ensures |r.asmLines| == |Kept(drop, lines)| && ProgramStart + 2 * |Kept(drop, lines)| <= 0xFFFF
    ensures forall n :: 0 <= n < |r.asmLines| ==>
      r.asmLines[n].line == Kept(drop, lines)[n] && r.asmLines[n].memoryPosition == ProgramStart + 2 * n
  {
    forall n | 0 <= n < |r.asmLines|
      ensures r.asmLines[n].line == Kept(drop, lines)[n] && r.asmLines[n].memoryPosition == ProgramStart + 2 * n
    {
      assert r.asmLines[n] == FixedRecord(parse, drop, lines, map[], ProgramStart, n - 0);
      FixedRecordPlaced(parse, drop, lines, map[], ProgramStart, n);
    }
  }

  // ---------------------------------------------------------------------------
  // Where a label points
  // ---------------------------------------------------------------------------

  /** `parse` changes the table only by binding the label that the line's first token defines. */
  ghost predicate BindsOnlyCommand(parse: LineParser)
  {
    forall line, labels, position ::
      parse(line, labels, position).labels == labels ||
      DefinesLabel(Command(line), labels, position, parse(line, labels, position).labels)
  }

  /** `parse_asm_line` changes the table only through the first token (lines 130-137). */
  lemma ParseBindsOnlyCommand()
    ensures BindsOnlyCommand(ParseAsmLine)
  {
    forall line, labels, position
      ensures ParseAsmLine(line, labels, position).labels == labels ||
        DefinesLabel(Command(line), labels, position, ParseAsmLine(line, labels, position).labels)
    {
    }
  }

  /** Lines none of which defines `name` leave what the table says of `name` alone. */
  lemma {:induction false} FixedLabelsKeep(parse: LineParser, drop: string -> bool, lines: seq<string>, labels: Labels, position: u16, name: string)
    requires position + 2 * |Kept(drop, lines)| <= 0xFFFF && BindsOnlyCommand(parse)
    requires forall i :: 0 <= i < |lines| ==> Command(lines[i]) != name + ":"
    ensures name in FixedLabels(parse, drop, lines, labels, position) <==> name in labels
    ensures name in labels ==> FixedLabels(parse, drop, lines, labels, position)[name] == labels[name]
    decreases |lines|
  {
    if lines != [] {
      var p := parse(lines[0], labels, position);
      var c := Command(lines[0]);
      if p.labels != labels {
        assert DefinesLabel(c, labels, position, p.labels);
        assert c == c[..|c| - 1] + ":" by {
          assert c[|c| - 1..] == ":";
        }
        assert c[..|c| - 1] != name;
      }
      forall i | 0 <= i < |lines[1..]|
        ensures Command(lines[1..][i]) != name + ":"
      {
        assert lines[1..][i] == lines[i + 1];
      }
      FixedLabelsKeep(parse, drop, lines[1..], p.labels, if drop(lines[0]) then position else position + 2, name);
    }
  }

  /**
   * A dropped line `j` that binds `name` wherever it sits, with no later line
   * defining `name` again, leaves `name` naming the position after the kept
   * lines before it.
   */
  lemma {:induction false} FixedLabelsBind(parse: LineParser, drop: string -> bool, lines: seq<string>, labels: Labels, position: u16,
                                           j: nat, name: string)
    requires position + 2 * |Kept(drop, lines)| <= 0xFFFF && j < |lines| && BindsOnlyCommand(parse)
    requires drop(lines[j])
    requires forall table: Labels, q: u16 :: parse(lines[j], table, q).labels == table[name := q]
    requires forall i :: j < i < |lines| ==> Command(lines[i]) != name + ":"
    ensures name in FixedLabels(parse, drop, lines, labels, position)
    ensures FixedLabels(parse, drop, lines, labels, position)[name] == position + 2 * |Kept(drop, lines[..j])|
    decreases j
  {
    var p := parse(lines[0], labels, position);
    forall i | 0 <= i < |lines[1..]| && j - 1 < i
      ensures Command(lines[1..][i]) != name + ":"
    {
      assert lines[1..][i] == lines[i + 1];
    }
    if j == 0 {
      assert p.labels == labels[name := position];
      FixedLabelsKeep(parse, drop, lines[1..], p.labels, position, name);
    } else {
      assert lines[1..][j - 1] == lines[j];
      assert lines[..j][0] == lines[0] && lines[..j][1..] == lines[1..][..j - 1];
      FixedLabelsBind(parse, drop, lines[1..], p.labels, if drop(lines[0]) then position else position + 2, j - 1, name);
    }
  }

  /**
   * A label defined on a line of its own, and not again later, names the
   * position of the next kept line, two bytes per kept line before it; when
   * that line exists, it is recorded there.
   */
  lemma LabelNamesNextLine(lines: seq<string>, st: FirstPass, j: nat, name: string)
    requires FixedPass1(lines, FirstPass([], map[], ProgramStart)) == Ok(st)
    requires j < |lines| && lines[j] == name + ":" && ' ' !in name && ';' !in name
    requires forall i :: j < i < |lines| ==> Command(lines[i]) != name + ":"
    ensures name in st.labels && st.labels[name] == ProgramStart + 2 * |Kept(Directive, lines[..j])|
    ensures Kept(Directive, lines[j + 1..]) != [] ==>
      var n := |Kept(Directive, lines[..j])|;
      n < |st.asmLines| && st.asmLines[n].line == Kept(Directive, lines[j + 1..])[0] &&
      st.asmLines[n].memoryPosition == st.labels[name]
  {
    LabelLineDirective(name, lines[j]);
    FixedLayout(lines, st);
    LabelBound(lines, j, name);
    NextKeptLine(Directive, lines, j);
  }

  /** After the corrected pass 1 from the start, the label of line `j` names the position after the kept lines before it. */
  lemma LabelBound(lines: seq<string>, j: nat, name: string)
    requires j < |lines| && lines[j] == name + ":" && ' ' !in name && ';' !in name && Directive(lines[j])
    requires ProgramStart + 2 * |Kept(Directive, lines)| <= 0xFFFF
    requires forall i :: j < i < |lines| ==> Command(lines[i]) != name + ":"
    ensures name in FixedLabels(ParseAsmLine, Directive, lines, map[], ProgramStart)
    ensures FixedLabels(ParseAsmLine, Directive, lines, map[], ProgramStart)[name] == ProgramStart + 2 * |Kept(Directive, lines[..j])|
  {
    ParseBindsOnlyCommand();
    forall table: Labels, q: u16
      ensures ParseAsmLine(lines[j], table, q).labels == table[name := q]
    {
      LabelDefinition(name, table, q);
    }
    FixedLabelsBind(ParseAsmLine, Directive, lines, map[], ProgramStart, j, name);
  }

  /** The kept lines after a dropped line `j` come right after the kept lines before it. */
  lemma NextKeptLine(drop: string -> bool, lines: seq<string>, j: nat)
    requires j < |lines| && drop(lines[j])
    ensures Kept(drop, lines) == Kept(drop, lines[..j]) + Kept(drop, lines[j + 1..])
  {
    var before, line, after := lines[..j], [lines[j]], lines[j + 1..];
    assert lines == before + (line + after);
    assert Kept(drop, line) == [] by {
      assert line[1..] == [];
    }
    KeptAppend(drop, line, after);
    assert Kept(drop, line + after) == Kept(drop, after);
    KeptAppend(drop, before, line + after);
  }

  /**
   * A label followed by an instruction on the same line is no directive. When
   * the instruction's operand is not a register, a literal or a known label,
   * the line is `Incomplete` (lines 112-116 come before the label check at
   * 129-137), so the label is never bound and both assemblers reject the line.
   */
  lemma LabelledInstructionAborts(name: string, op: string, line: string)
    requires ' ' !in name && ';' !in name
    requires op != [] && ' ' !in op && ';' !in op && op[0] != 'V' && !StartsWith(op, "0x")
    requires line == name + ":" + " " + op
    ensures !Directive(line)
    ensures FixedAssembled([line]) == Assembled([line]) == Err(InvalidAsmLine(line))
  {
    var head := name + ":";
    LabelledNoDirective(head, op, line);
    UnknownLabelIncomplete(head, op, map[], ProgramStart);
    FixedAssembledAgrees([line]);
    var init := FirstPass([], map[], ProgramStart);
    var recorded := AsmLine(line, None, ProgramStart);
    var st := FirstPass([recorded], map[], ProgramStart + 2);
    assert Recorded(line, init) == Ok(st) by {
      assert [] + [recorded] == [recorded];
    }
    Pass1Recorded([line], init);
    assert [line][1..] == [];
    assert Pass1([line], init) == Ok(st);
    assert Resolve(recorded, map[]) == Err(InvalidAsmLine(line));
  }

  /** Two plain tokens on a line are two tokens, so the line is no directive. */
  lemma LabelledNoDirective(head: string, op: string, line: string)
    requires head != [] && ' ' !in head && ';' !in head
    requires op != [] && ' ' !in op && ';' !in op
    requires line == head + " " + op
    ensures StripComment(line) == line && Tokens(line) == [head, op] && !Directive(line)
  {
    PlainTwo(head, op);
    JoinTwo(head, op, ' ');
    TokensOfJoin([head, op]);
  }

  /** A line that is one label definition is a directive. */
  lemma LabelLineDirective(name: string, line: string)
    requires line == name + ":" && ' ' !in name && ';' !in name
    ensures Directive(line) && Command(line) == line
  {
    assert Plain([line]) && Join([line], ' ') == line;
    TokensOfJoin([line]);
    assert EndsWith(line, ":") by {
      assert line[|line| - 1..] == ":";
    }
  }

  // ---------------------------------------------------------------------------
  // The correction against the original
  // ---------------------------------------------------------------------------

  /** Pass 2 reports a line as invalid only if that line was recorded (line 58). */
  lemma {:induction false} Pass2InvalidLine(asmLines: seq<AsmLine>, labels: Labels, out: seq<u8>, line: string)
    ensures Pass2(asmLines, labels, out) == Err(InvalidAsmLine(line)) ==>
      exists i :: 0 <= i < |asmLines| && asmLines[i].line == line
    decreases |asmLines|
  {
    if asmLines != [] {
      var a := asmLines[0];
      if Resolve(a, labels).Ok? {
        var resolved := Resolve(a, labels).value;
        Pass2InvalidLine(asmLines[1..], resolved.1, out + Bytes(resolved.0), line);
        if Pass2(asmLines, labels, out) == Err(InvalidAsmLine(line)) {
          var i :| 0 <= i < |asmLines[1..]| && asmLines[1..][i].line == line;
          assert asmLines[i + 1].line == line;
        }
      }
    }
  }

  /**
   * The corrected assembler never panics on a directive line: such a line is
   * not recorded, so pass 2 never sees it.
   */
  lemma DirectiveNeverInvalid(lines: seq<string>, line: string)
    requires Directive(line)
    ensures FixedAssembled(lines) != Err(InvalidAsmLine(line))
  {
    var init := FirstPass([], map[], ProgramStart);
    if FixedPass1(lines, init).Ok? {
      var st := FixedPass1(lines, init).value;
      Pass2InvalidLine(st.asmLines, st.labels, [], line);
      FixedLayout(lines, st);
      forall i | 0 <= i < |st.asmLines|
        ensures st.asmLines[i].line != line
      {
        KeptUndropped(Directive, lines, i);
      }
    }
  }

  /** What pass 1 does with one line that is no directive. */
  function Recorded(line: string, st: FirstPass): Result<FirstPass, Panic>
  {
    var p := ParseAsmLine(line, st.labels, st.memoryPosition);
    if p.result.Panicked? then Err(p.result.panic)
    else if st.memoryPosition + 2 > 0xFFFF then Err(PositionOverflow)
    else
      Ok(FirstPass(st.asmLines + [AsmLine(line, OpcodeOf(p.result), st.memoryPosition)], p.labels, st.memoryPosition + 2))
  }

  /** One step of the pass 1 as written. */
  lemma Pass1Recorded(lines: seq<string>, st: FirstPass)
    requires lines != []
    ensures Pass1(lines, st) ==
      match Recorded(lines[0], st)
      case Err(k) => Err(k)
      case Ok(next) => Pass1(lines[1..], next)
  {
  }

  /** One step of the corrected pass 1 over a line that is no directive. */
  lemma FixedPass1Recorded(lines: seq<string>, st: FirstPass)
    requires lines != [] && !Directive(lines[0])
    ensures FixedPass1(lines, st) ==
      match Recorded(lines[0], st)
      case Err(k) => Err(k)
      case Ok(next) => FixedPass1(lines[1..], next)
  {
  }

  /** On a file without directive lines the correction changes nothing. */
  lemma {:induction false} FixedPass1Agrees(lines: seq<string>, st: FirstPass)
    requires forall i :: 0 <= i < |lines| ==> !Directive(lines[i])
    ensures FixedPass1(lines, st) == Pass1(lines, st)
    decreases |lines|
  {
    if lines != [] {
      Pass1Recorded(lines, st);
      FixedPass1Recorded(lines, st);
      if Recorded(lines[0], st).Ok? {
        forall i | 0 <= i < |lines[1..]|
          ensures !Directive(lines[1..][i])
        {
          assert lines[1..][i] == lines[i + 1];
        }
        FixedPass1Agrees(lines[1..], Recorded(lines[0], st).value);
      }
    }
  }

  /** `FixedAssembled` and `Assembled` agree on files without directive lines. */
  lemma FixedAssembledAgrees(lines: seq<string>)
    requires forall i :: 0 <= i < |lines| ==> !Directive(lines[i])
    ensures FixedAssembled(lines) == Assembled(lines)
  {
    FixedPass1Agrees(lines, FirstPass([], map[], ProgramStart));
  }

  /**
   * Wherever the original assembles a file, the correction assembles it to the
   * same bytes: such a file has no directive line (`AssembledExactly`).
   */
  lemma FixedExtendsOriginal(lines: seq<string>)
    requires Assembled(lines).Ok?
    ensures FixedAssembled(lines) == Assembled(lines)
  {
    AssembledLineByLine(lines, Assembled(lines).value);
    forall i | 0 <= i < |lines|
      ensures !Directive(lines[i])
    {
      if Directive(lines[i]) {
        DirectiveFails(lines[i], map[], ProgramStart + 2 * i);
        assert false;
      }
    }
    FixedAssembledAgrees(lines);
  }

  /** One step of the corrected pass 1 over a directive: it is dropped and its label kept. */
  lemma FixedPass1Skips(lines: seq<string>, st: FirstPass, labels: Labels)
    requires lines != [] && Directive(lines[0])
    requires ParseAsmLine(lines[0], st.labels, st.memoryPosition) == Parse(Failed(NoOpcode), labels)
    ensures FixedPass1(lines, st) == FixedPass1(lines[1..], FirstPass(st.asmLines, labels, st.memoryPosition))
  {
  }

  /** One step of pass 2 over a line that resolves. */
  lemma Pass2Resolves(asmLines: seq<AsmLine>, labels: Labels, out: seq<u8>, opcode: u16, labels': Labels)
    requires asmLines != [] && Resolve(asmLines[0], labels) == Ok((opcode, labels'))
    ensures Pass2(asmLines, labels, out) == Pass2(asmLines[1..], labels', out + Bytes(opcode))
  {
  }

  /**
   * A jump to a label defined on a line of its own, the file the original
   * cannot assemble (`ForwardLabelAborts`): corrected, the label names `CLS`
   * at 0x202 and the jump is `0x1202`.
   */
  lemma FixedForwardJump(name: string)
    requires name != [] && ' ' !in name && ';' !in name
    requires name[0] != 'V' && !StartsWith(name, "0x")
    ensures FixedAssembled(["JP" + " " + name, name + ":", "CLS"]) == Ok([0x12, 0x02, 0x00, 0xE0])
  {
    var lines := ["JP" + " " + name, name + ":", "CLS"];
    var init := FirstPass([], map[], ProgramStart);
    var jump := AsmLine(lines[0], None, 0x200);
    var clear := AsmLine("CLS", Some(0x00E0), 0x202);
    var st := FirstPass([jump, clear], map[name := 0x202], 0x204);
    ForwardJumpFirstPass(name, lines, init, st);
    assert st.asmLines[0].line == "JP" + " " + name;
    JumpResolves(name, st.asmLines[0], st.labels, 0x202);
    Pass2Two(st.asmLines[0], st.asmLines[1], st.labels, 0x1000 + 0x202, 0x00E0);
    assert Bytes(0x1202) + Bytes(0x00E0) == [0x12, 0x02, 0x00, 0xE0];
  }

  /** The corrected pass 1 over the forward jump: the label line is dropped. */
  lemma ForwardJumpFirstPass(name: string, lines: seq<string>, init: FirstPass, st: FirstPass)
    requires name != [] && ' ' !in name && ';' !in name
    requires name[0] != 'V' && !StartsWith(name, "0x")
    requires |lines| == 3 && lines[0] == "JP" + " " + name && lines[1] == name + ":" && lines[2] == "CLS"
    requires init == FirstPass([], map[], ProgramStart)
    requires st == FirstPass([AsmLine(lines[0], None, 0x200), AsmLine("CLS", Some(0x00E0), 0x202)], map[name := 0x202], 0x204)
    ensures FixedPass1(lines, init) == Ok(st)
  {
    var jump := AsmLine(lines[0], None, 0x200);
    var st1 := FirstPass([jump], map[], 0x202);
    var st2 := FirstPass([jump], map[name := 0x202], 0x202);
    var rest, last := lines[1..], lines[2..];
    assert rest[0] == name + ":" && rest[1..] == last && last == ["CLS"];
    JumpStep(name, lines, init, st1);
    LabelStep(name, rest, st1, st2);
    ClearStep(last, st2, st);
  }

  /** The jump is recorded without an opcode at 0x200. */
  lemma JumpStep(name: string, lines: seq<string>, init: FirstPass, st1: FirstPass)
    requires name != [] && ' ' !in name && ';' !in name
    requires name[0] != 'V' && !StartsWith(name, "0x")
    requires |lines| >= 1 && lines[0] == "JP" + " " + name && init == FirstPass([], map[], ProgramStart)
    requires st1 == FirstPass([AsmLine(lines[0], None, 0x200)], map[], 0x202)
    ensures FixedPass1(lines, init) == FixedPass1(lines[1..], st1)
  {
    JumpIncomplete(name, lines[0], init);
    JumpNoDirective(name, lines[0]);
    RecordsLine(lines, init, Failed(Incomplete));
    assert [] + [AsmLine(lines[0], None, 0x200)] == st1.asmLines;
  }

  /** `JP name` is no directive: its command is `JP`. */
  lemma JumpNoDirective(name: string, line: string)
    requires name != [] && ' ' !in name && ';' !in name
    requires line == "JP" + " " + name
    ensures Command(line) == "JP" && !Directive(line)
  {
    PlainTwo("JP", name);
    JoinTwo("JP", name, ' ');
    TokensOfJoin(["JP", name]);
  }

  /** The label line is dropped, binding the name to 0x202. */
  lemma LabelStep(name: string, lines: seq<string>, st1: FirstPass, st2: FirstPass)
    requires ' ' !in name && ';' !in name
    requires |lines| >= 1 && lines[0] == name + ":"
    requires st1.labels == map[] && st1.memoryPosition == 0x202
    requires st2 == FirstPass(st1.asmLines, map[name := 0x202], 0x202)
    ensures FixedPass1(lines, st1) == FixedPass1(lines[1..], st2)
  {
    LabelDefined(name, lines[0], st1);
    LabelLineDirective(name, lines[0]);
    assert st1.labels[name := st1.memoryPosition] == map[name := 0x202];
    FixedPass1Skips(lines, st1, map[name := 0x202]);
  }

  /** `CLS` is recorded at 0x202 and pass 1 ends. */
  lemma ClearStep(lines: seq<string>, st2: FirstPass, st: FirstPass)
    requires lines == ["CLS"] && st2.memoryPosition == 0x202
    requires st == FirstPass(st2.asmLines + [AsmLine("CLS", Some(0x00E0), 0x202)], st2.labels, 0x204)
    ensures FixedPass1(lines, st2) == Ok(st)
  {
    ClearParsed(lines[0], st2);
    assert Command(lines[0]) == "CLS" by {
      assert Plain([lines[0]]) && Join([lines[0]], ' ') == lines[0];
      TokensOfJoin([lines[0]]);
    }
    RecordsLine(lines, st2, Opcode(0x00E0));
    assert lines[1..] == [];
  }

  /** One step of the corrected pass 1 over a line it records. */
  lemma RecordsLine(lines: seq<string>, st: FirstPass, result: LineResult)
    requires lines != [] && !Directive(lines[0]) && st.memoryPosition + 2 <= 0xFFFF
    requires ParseAsmLine(lines[0], st.labels, st.memoryPosition) == Parse(result, st.labels)
    requires result.Opcode? || result == Failed(Incomplete)
    ensures FixedPass1(lines, st) == FixedPass1(lines[1..], FirstPass(
      st.asmLines + [AsmLine(lines[0], if result.Opcode? then Some(result.value) else None, st.memoryPosition)],
      st.labels, st.memoryPosition + 2))
  {
  }

  /** Before the label is known the jump is incomplete. */
  lemma JumpIncomplete(name: string, line: string, st: FirstPass)
    requires name != [] && ' ' !in name && ';' !in name
    requires name[0] != 'V' && !StartsWith(name, "0x")
    requires line == "JP" + " " + name && st.labels == map[]
    ensures ParseAsmLine(line, st.labels, st.memoryPosition) == Parse(Failed(Incomplete), st.labels)
  {
    UnknownLabelIncomplete("JP", name, st.labels, st.memoryPosition);
  }

  /** The label line binds the name to the current position. */
  lemma LabelDefined(name: string, line: string, st: FirstPass)
    requires ' ' !in name && ';' !in name
    requires line == name + ":"
    ensures ParseAsmLine(line, st.labels, st.memoryPosition) == Parse(Failed(NoOpcode), st.labels[name := st.memoryPosition])
  {
    LabelDefinition(name, st.labels, st.memoryPosition);
  }

  /** `CLS` is `0x00E0` wherever it sits. */
  lemma ClearParsed(line: string, st: FirstPass)
    requires line == "CLS"
    ensures ParseAsmLine(line, st.labels, st.memoryPosition) == Parse(Opcode(0x00E0), st.labels)
  {
    BareLine(line, st.labels, st.memoryPosition);
    EncodeClear(st.labels, st.memoryPosition);
  }

  /** Once the label is known, the jump is `0x1000` plus its address. */
  lemma JumpResolves(name: string, jump: AsmLine, labels: Labels, address: u16)
    requires name != [] && ' ' !in name && ';' !in name
    requires name[0] != 'V' && !StartsWith(name, "0x")
    requires labels == map[name := address] && 0x100 <= address < 0x1000
    requires jump.line == "JP" + " " + name && jump.opcode == None
    ensures Resolve(jump, labels) == Ok((0x1000 + address, labels))
  {
    KnownLabelAddress("JP", 1, name, labels, jump.memoryPosition);
  }

  /** Pass 2 over two lines that resolve without changing the table. */
  lemma Pass2Two(a: AsmLine, b: AsmLine, labels: Labels, first: u16, second: u16)
    requires Resolve(a, labels) == Ok((first, labels)) && Resolve(b, labels) == Ok((second, labels))
    ensures Pass2([a, b], labels, []) == Ok(Bytes(first) + Bytes(second))
  {
    Pass2Resolves([a, b], labels, [], first, labels);
    assert [a, b][1..] == [b] && [] + Bytes(first) == Bytes(first);
    Pass2Resolves([b], labels, Bytes(first), second, labels);
    assert [b][1..] == [];
  }
}
