/**
 * The pieces of Rust's `str` API that the assembler relies on, over `string`
 * (`seq<char>`): prefix and suffix tests, `find`, `trim_start_matches`,
 * `trim_end_matches`, `split`, right-aligned zero padding, lower-case
 * hexadecimal formatting and `u16::from_str_radix`.
 */
module Text {
  import opened Wrappers
  import opened Words

  predicate StartsWith(s: string, prefix: string)
  {
    |prefix| <= |s| && s[..|prefix|] == prefix
  }

  predicate EndsWith(s: string, suffix: string)
  {
    |suffix| <= |s| && s[|s| - |suffix|..] == suffix
  }

  /** `str::find` for one character: the index of its first occurrence, if any. */
  function Find(s: string, c: char): (r: Option<nat>)
    ensures r.Some? ==> r.value < |s| && s[r.value] == c && c !in s[..r.value]
    ensures r.None? <==> c !in s
    decreases |s|
  {
    if s == [] then None
    else if s[0] == c then Some(0)
    else match Find(s[1..], c)
      case None => None
      case Some(i) =>
        assert s[..i + 1] == [s[0]] + s[1..][..i];
        Some(i + 1)
  }

  /** `str::trim_start_matches(pattern)`: drops the pattern from the front as often as it occurs there. */
  function TrimStartMatches(s: string, pattern: string): (r: string)
    requires pattern != []
    ensures |r| <= |s|
    ensures !StartsWith(r, pattern)
    decreases |s|
  {
    if StartsWith(s, pattern) then TrimStartMatches(s[|pattern|..], pattern) else s
  }

  /** `str::trim_end_matches(pattern)`: drops the pattern from the back as often as it occurs there. */
  function TrimEndMatches(s: string, pattern: string): (r: string)
    requires pattern != []
    ensures |r| <= |s|
    ensures !EndsWith(r, pattern)
    decreases |s|
  {
    if EndsWith(s, pattern) then TrimEndMatches(s[..|s| - |pattern|], pattern) else s
  }

  /** What `TrimStartMatches` leaves is a suffix of the string. */
  lemma {:induction false} TrimStartSuffix(s: string, pattern: string)
    requires pattern != []
    ensures var r := TrimStartMatches(s, pattern); r == s[|s| - |r|..]
    decreases |s|
  {
    if StartsWith(s, pattern) {
      TrimStartSuffix(s[|pattern|..], pattern);
      var r := TrimStartMatches(s, pattern);
      assert s[|pattern|..][|s| - |pattern| - |r|..] == s[|s| - |r|..];
    }
  }

  /** What `TrimEndMatches` leaves is a prefix of the string. */
  lemma {:induction false} TrimEndPrefix(s: string, pattern: string)
    requires pattern != []
    ensures var r := TrimEndMatches(s, pattern); r == s[..|r|]
    decreases |s|
  {
    if EndsWith(s, pattern) {
      TrimEndPrefix(s[..|s| - |pattern|], pattern);
      var r := TrimEndMatches(s, pattern);
      assert s[..|s| - |pattern|][..|r|] == s[..|r|];
    }
  }

  /** `k` copies of `pattern`, one after the other. */
  function Repeat(pattern: string, k: nat): string
  {
    if k == 0 then [] else pattern + Repeat(pattern, k - 1)
  }

  /** One more copy may as well go at the back. */
  lemma {:induction false} RepeatSnoc(pattern: string, k: nat)
    ensures Repeat(pattern, k + 1) == Repeat(pattern, k) + pattern
  {
    if k > 0 {
      RepeatSnoc(pattern, k - 1);
      assert Repeat(pattern, k + 1) == pattern + (Repeat(pattern, k - 1) + pattern);
    }
  }

  /** How many copies of `pattern` `trim_start_matches` takes off the front of `s`. */
  function LeadingCopies(s: string, pattern: string): nat
    requires pattern != []
    decreases |s|
  {
    if StartsWith(s, pattern) then 1 + LeadingCopies(s[|pattern|..], pattern) else 0
  }

  /** How many copies of `pattern` `trim_end_matches` takes off the back of `s`. */
  function TrailingCopies(s: string, pattern: string): nat
    requires pattern != []
    decreases |s|
  {
    if EndsWith(s, pattern) then 1 + TrailingCopies(s[..|s| - |pattern|], pattern) else 0
  }

  /** `trim_start_matches` removes only whole copies of the pattern from the front. */
  lemma TrimStartWhole(s: string, pattern: string)
    requires pattern != []
    ensures exists k: nat :: s == Repeat(pattern, k) + TrimStartMatches(s, pattern)
  {
    TrimStartCopies(s, pattern);
  }

  lemma {:induction false} TrimStartCopies(s: string, pattern: string)
    requires pattern != []
    ensures s == Repeat(pattern, LeadingCopies(s, pattern)) + TrimStartMatches(s, pattern)
    decreases |s|
  {
    if StartsWith(s, pattern) {
      var rest := s[|pattern|..];
      TrimStartCopies(rest, pattern);
      var k := LeadingCopies(rest, pattern);
      var r := TrimStartMatches(rest, pattern);
      calc {
        Repeat(pattern, k + 1) + r;
        (pattern + Repeat(pattern, k)) + r;
        pattern + (Repeat(pattern, k) + r);
        pattern + rest;
        { assert s[..|pattern|] == pattern; }
        s;
      }
    }
  }

  /** `trim_end_matches` removes only whole copies of the pattern from the back. */
  lemma TrimEndWhole(s: string, pattern: string)
    requires pattern != []
    ensures exists k: nat :: s == TrimEndMatches(s, pattern) + Repeat(pattern, k)
  {
    TrimEndCopies(s, pattern);
  }

  lemma {:induction false} TrimEndCopies(s: string, pattern: string)
    requires pattern != []
    ensures s == TrimEndMatches(s, pattern) + Repeat(pattern, TrailingCopies(s, pattern))
    decreases |s|
  {
    if EndsWith(s, pattern) {
      var rest := s[..|s| - |pattern|];
      TrimEndCopies(rest, pattern);
      var k := TrailingCopies(rest, pattern);
      var r := TrimEndMatches(rest, pattern);
      RepeatSnoc(pattern, k);
      calc {
        r + Repeat(pattern, k + 1);
        r + (Repeat(pattern, k) + pattern);
        (r + Repeat(pattern, k)) + pattern;
        rest + pattern;
        { assert s[|s| - |pattern|..] == pattern; }
        s;
      }
    }
  }

  /**
   * `str::split(separator)`: the pieces between the occurrences of the separator,
   * empty pieces included; a string with n separators gives n + 1 pieces.
   */
  function Split(s: string, separator: char): (parts: seq<string>)
    ensures |parts| >= 1
    ensures forall i :: 0 <= i < |parts| ==> separator !in parts[i]
    decreases |s|
  {
    if s == [] then [[]]
    else
      var rest := Split(s[1..], separator);
      if s[0] == separator then [[]] + rest
      else [[s[0]] + rest[0]] + rest[1..]
  }

  /** The pieces put back together with the separator between them; the inverse of `Split`. */
  function Join(parts: seq<string>, separator: char): string
    requires |parts| >= 1
    decreases |parts|
  {
    if |parts| == 1 then parts[0] else parts[0] + [separator] + Join(parts[1..], separator)
  }

  /** Splitting loses nothing: joining the pieces gives the string back. */
  lemma {:induction false} JoinSplit(s: string, separator: char)
    ensures Join(Split(s, separator), separator) == s
    decreases |s|
  {
    if s != [] {
      JoinSplit(s[1..], separator);
      var rest := Split(s[1..], separator);
      if s[0] == separator {
        assert ([[]] + rest)[1..] == rest;
      } else if |rest| > 1 {
        assert ([[s[0]] + rest[0]] + rest[1..])[1..] == rest[1..];
        assert Join(rest, separator) == rest[0] + [separator] + Join(rest[1..], separator);
        assert [s[0]] + s[1..] == s;
      } else {
        assert [s[0]] + s[1..] == s;
      }
    }
  }

  /** A piece free of the separator, then the separator, is split off as the first piece. */
  lemma {:induction false} SplitAt(a: string, b: string, separator: char)
    requires separator !in a
    ensures Split(a + [separator] + b, separator) == [a] + Split(b, separator)
    decreases |a|
  {
    var s := a + [separator] + b;
    if a == [] {
      assert s[1..] == b;
    } else {
      assert s[1..] == a[1..] + [separator] + b;
      SplitAt(a[1..], b, separator);
      assert [a[0]] + a[1..] == a;
    }
  }

  /** A string without the separator is one piece. */
  lemma {:induction false} SplitWhole(a: string, separator: char)
    requires separator !in a
    ensures Split(a, separator) == [a]
    decreases |a|
  {
    if a != [] {
      SplitWhole(a[1..], separator);
      assert [a[0]] + a[1..] == a;
    }
  }

  /** Pieces free of the separator are recovered by splitting their join. */
  lemma {:induction false} SplitJoin(parts: seq<string>, separator: char)
    requires |parts| >= 1
    requires forall i :: 0 <= i < |parts| ==> separator !in parts[i]
    ensures Split(Join(parts, separator), separator) == parts
    decreases |parts|
  {
    if |parts| == 1 {
      SplitWhole(parts[0], separator);
    } else {
      SplitJoin(parts[1..], separator);
      SplitAt(parts[0], Join(parts[1..], separator), separator);
      assert [parts[0]] + parts[1..] == parts;
    }
  }

  /** A character that is neither the separator nor in any piece is not in their join. */
  lemma {:induction false} JoinExcludes(parts: seq<string>, separator: char, c: char)
    requires |parts| >= 1 && c != separator
    requires forall i :: 0 <= i < |parts| ==> c !in parts[i]
    ensures c !in Join(parts, separator)
    decreases |parts|
  {
    if |parts| > 1 {
      JoinExcludes(parts[1..], separator, c);
    }
  }

  /** The join starts with the first piece. */
  lemma {:induction false} JoinStarts(parts: seq<string>, separator: char)
    requires |parts| >= 1
    ensures StartsWith(Join(parts, separator), parts[0])
  {
    if |parts| > 1 {
      var j := Join(parts, separator);
      assert j == parts[0] + ([separator] + Join(parts[1..], separator));
      assert j[..|parts[0]|] == parts[0];
    }
  }

  /** The join ends with the last piece. */
  lemma {:induction false} JoinEnds(parts: seq<string>, separator: char)
    requires |parts| >= 1
    ensures EndsWith(Join(parts, separator), parts[|parts| - 1])
    decreases |parts|
  {
    if |parts| > 1 {
      var last := parts[|parts| - 1];
      var rest := Join(parts[1..], separator);
      JoinEnds(parts[1..], separator);
      assert parts[1..][|parts| - 2] == last;
      assert EndsWith(rest, last);
      var j := Join(parts, separator);
      assert j == (parts[0] + [separator]) + rest;
      assert j[|j| - |last|..] == rest[|rest| - |last|..];
    }
  }

  /** Strings whose first characters differ do not prefix one another. */
  lemma HeadDiffers(s: string, p: string)
    requires s != [] && p != [] && s[0] != p[0]
    ensures !StartsWith(s, p)
  {
    if |p| <= |s| {
      assert s[..|p|][0] == s[0];
    }
  }

  /** Strings whose last characters differ do not suffix one another. */
  lemma LastDiffers(s: string, p: string)
    requires s != [] && p != [] && s[|s| - 1] != p[|p| - 1]
    ensures !EndsWith(s, p)
  {
    if |p| <= |s| {
      assert s[|s| - |p|..][|p| - 1] == s[|s| - 1];
    }
  }

  /** One occurrence of the pattern in front of a string that does not start with it is trimmed. */
  lemma TrimStartOnce(p: string, t: string)
    requires p != [] && !StartsWith(t, p)
    ensures TrimStartMatches(p + t, p) == t
  {
    assert StartsWith(p + t, p);
    assert (p + t)[|p|..] == t;
  }

  /** One occurrence of the pattern behind a string that does not end with it is trimmed. */
  lemma TrimEndOnce(t: string, p: string)
    requires p != [] && !EndsWith(t, p)
    ensures TrimEndMatches(t + p, p) == t
  {
    assert EndsWith(t + p, p);
    assert (t + p)[..|t|] == t;
  }

  /** A run of one character in front of a string that does not start with it is trimmed away. */
  lemma {:induction false} TrimStartRun(k: nat, c: char, t: string)
    requires t == [] || t[0] != c
    ensures TrimStartMatches(seq(k, _ => c) + t, [c]) == t
    decreases k
  {
    var s := seq(k, _ => c) + t;
    if k == 0 {
      assert s == t;
      if t != [] {
        HeadDiffers(t, [c]);
      }
    } else {
      assert s[..1] == [c];
      assert s[1..] == seq(k - 1, _ => c) + t;
      TrimStartRun(k - 1, c, t);
    }
  }

  /** A run of one character behind a string that does not end with it is trimmed away. */
  lemma {:induction false} TrimEndRun(t: string, k: nat, c: char)
    requires t == [] || t[|t| - 1] != c
    ensures TrimEndMatches(t + seq(k, _ => c), [c]) == t
    decreases k
  {
    if k == 0 {
      assert t + seq(k, _ => c) == t;
      if t != [] {
        LastDiffers(t, [c]);
      }
    } else {
      var shorter := t + seq(k - 1, _ => c);
      assert t + seq(k, _ => c) == shorter + [c];
      assert EndsWith(shorter + [c], [c]) by {
        assert (shorter + [c])[|shorter|..] == [c];
      }
      assert (shorter + [c])[..|shorter|] == shorter;
      TrimEndRun(t, k - 1, c);
    }
  }

  /** Zero padding in `format!` (the `0>` fill and alignment), with `fill` for `0`: `s` right-aligned in a field of `width` characters. */
  function PadLeft(s: string, width: nat, fill: char): (r: string)
    ensures |r| == if |s| < width then width else |s|
    ensures forall i :: 0 <= i < |r| ==> r[i] == if i < |r| - |s| then fill else s[i - (|r| - |s|)]
  {
    if |s| < width then seq(width - |s|, _ => fill) + s else s
  }

  /** `char::to_digit(radix)`: `0`-`9`, then letters of either case from 10 upwards. */
  function DigitValue(c: char, radix: nat): (d: Option<nat>)
    requires 2 <= radix <= 36
    ensures d.Some? ==> d.value < radix
  {
    var v :=
      if '0' <= c <= '9' then c as int - '0' as int
      else if 'a' <= c <= 'z' then c as int - 'a' as int + 10
      else if 'A' <= c <= 'Z' then c as int - 'A' as int + 10
      else 36; // a digit in no radix
    if v < radix then Some(v) else None
  }

  /** The value of a run of digits, most significant first; `None` if one character is not a digit. */
  function DigitsValue(s: string, radix: nat): Option<nat>
    requires 2 <= radix <= 36
    decreases |s|
  {
    if s == [] then Some(0)
    else match DigitsValue(s[..|s| - 1], radix)
      case None => None
      case Some(v) =>
        match DigitValue(s[|s| - 1], radix)
        case None => None
        case Some(d) => Some(v * radix + d)
  }

  /**
   * `u16::from_str_radix(s, radix)`: one optional leading `+`, then at least one
   * digit, with a value that fits in 16 bits.
   */
  function ParseU16(s: string, radix: nat): Option<u16>
    requires 2 <= radix <= 36
  {
    if s == [] || s == "+" then None
    else match DigitsValue(if s[0] == '+' then s[1..] else s, radix)
      case Some(v) => if v <= 0xFFFF then Some(v) else None
      case None => None
  }

  function Pow(radix: nat, k: nat): nat
  {
    if k == 0 then 1 else radix * Pow(radix, k - 1)
  }

  /** Digits written after other digits shift them up by one place each. */
  lemma {:induction false} DigitsValueAppend(p: string, s: string, radix: nat)
    requires 2 <= radix <= 36
    ensures DigitsValue(p + s, radix).Some? <==> DigitsValue(p, radix).Some? && DigitsValue(s, radix).Some?
    ensures DigitsValue(p + s, radix).Some? ==>
      DigitsValue(p + s, radix).value == DigitsValue(p, radix).value * Pow(radix, |s|) + DigitsValue(s, radix).value
    decreases |s|
  {
    if s == [] {
      assert p + s == p;
    } else {
      var s' := s[..|s| - 1];
      var ps := p + s;
      assert ps[..|ps| - 1] == p + s';
      assert ps[|ps| - 1] == s[|s| - 1];
      DigitsValueAppend(p, s', radix);
      if DigitsValue(ps, radix).Some? {
        var a, b', d := DigitsValue(p, radix).value, DigitsValue(s', radix).value, DigitValue(s[|s| - 1], radix).value;
        ShiftPlace(a, b', d, radix, Pow(radix, |s'|));
      }
    }
  }

  lemma ShiftPlace(a: nat, b: nat, d: nat, radix: nat, place: nat)
    ensures (a * place + b) * radix + d == a * (radix * place) + (b * radix + d)
  {
    calc {
      (a * place + b) * radix + d;
      a * place * radix + b * radix + d;
      { assert a * place * radix == a * (radix * place); }
      a * (radix * place) + (b * radix + d);
    }
  }

  /** Any number of `0` characters is worth zero. */
  lemma {:induction false} ZerosValue(k: nat, radix: nat)
    requires 2 <= radix <= 36
    ensures DigitsValue(seq(k, _ => '0'), radix) == Some(0)
    decreases k
  {
    if k > 0 {
      var z := seq(k, _ => '0');
      assert z[..k - 1] == seq(k - 1, _ => '0');
      ZerosValue(k - 1, radix);
    }
  }

  /** Zero padding on the left does not change the value of a run of digits. */
  lemma PadLeftValue(s: string, width: nat, radix: nat)
    requires 2 <= radix <= 36
    ensures DigitsValue(PadLeft(s, width, '0'), radix) == DigitsValue(s, radix)
  {
    if |s| < width {
      ZerosValue(width - |s|, radix);
      DigitsValueAppend(seq(width - |s|, _ => '0'), s, radix);
      assert PadLeft(s, width, '0') == seq(width - |s|, _ => '0') + s;
    }
  }

  /** `0`-`9` and `a`-`f`: the digits `{:x}` prints. */
  predicate IsLowerHexDigit(c: char)
  {
    '0' <= c <= '9' || 'a' <= c <= 'f'
  }

  /**
   * What `format!("{:x}", n)` can print: lower-case hexadecimal digits, at
   * least one, and no leading zero unless the number is zero.
   */
  predicate CanonicalHex(s: string)
  {
    s != [] && (|s| == 1 || s[0] != '0') && forall i :: 0 <= i < |s| ==> IsLowerHexDigit(s[i])
  }

  /** The lower-case hexadecimal digit for `d`; it reads back as `d`. */
  function HexDigit(d: nat): (c: char)
    requires d < 16
    ensures DigitValue(c, 16) == Some(d)
    ensures c != '+'
  {
    if d < 10 then ('0' as int + d) as char else ('a' as int + d - 10) as char
  }

  /** `format!` with the `x` format: lower-case hexadecimal, no prefix, no leading zeros. */
  function LowerHex(n: nat): (r: string)
    ensures r != []
    decreases n
  {
    if n < 16 then [HexDigit(n)] else LowerHex(n / 16) + [HexDigit(n % 16)]
  }

  /** One more digit on the right multiplies the value so far by the radix and adds the digit. */
  lemma DigitsValueSnoc(s: string, c: char, radix: nat)
    requires 2 <= radix <= 36
    ensures DigitsValue(s + [c], radix) ==
      if DigitsValue(s, radix).Some? && DigitValue(c, radix).Some?
      then Some(DigitsValue(s, radix).value * radix + DigitValue(c, radix).value)
      else None
  {
    var t := s + [c];
    assert t[..|t| - 1] == s;
    assert t[|t| - 1] == c;
  }

  /** Reading back what `LowerHex` prints gives the number printed. */
  lemma {:induction false} LowerHexRoundTrip(n: nat)
    ensures DigitsValue(LowerHex(n), 16) == Some(n)
    decreases n
  {
    var h := LowerHex(n);
    if n < 16 {
      DigitsValueSnoc([], HexDigit(n), 16);
      assert h == [] + [HexDigit(n)];
    } else {
      var q, d := n / 16, n % 16;
      LowerHexRoundTrip(q);
      DigitsValueSnoc(LowerHex(q), HexDigit(d), 16);
      assert h == LowerHex(q) + [HexDigit(d)];
      assert DigitsValue(h, 16) == Some(q * 16 + d);
    }
  }

  /** `LowerHex` never starts with a sign. */
  lemma {:induction false} LowerHexUnsigned(n: nat)
    ensures LowerHex(n)[0] != '+'
    decreases n
  {
    if n >= 16 {
      LowerHexUnsigned(n / 16);
    }
  }

  /** A 16-bit value printed in hexadecimal parses back with `from_str_radix(_, 16)`. */
  lemma LowerHexParses(n: u16)
    ensures ParseU16(LowerHex(n), 16) == Some(n)
  {
    LowerHexRoundTrip(n);
    LowerHexUnsigned(n);
  }

  /** `HexDigit` prints a lower-case digit, and `0` only for zero. */
  lemma HexDigitLower(d: nat)
    requires d < 16
    ensures IsLowerHexDigit(HexDigit(d)) && (HexDigit(d) == '0' <==> d == 0)
  {
  }

  /** What `LowerHex` prints is canonical: lower-case digits without a leading zero. */
  lemma {:induction false} LowerHexCanonical(n: nat)
    ensures CanonicalHex(LowerHex(n))
    decreases n
  {
    if n < 16 {
      HexDigitLower(n);
    } else {
      var q := n / 16;
      LowerHexCanonical(q);
      HexDigitLower(n % 16);
      var h := LowerHex(q) + [HexDigit(n % 16)];
      assert LowerHex(n) == h;
      assert h[0] == LowerHex(q)[0];
      if |LowerHex(q)| == 1 {
        assert LowerHex(q) == [HexDigit(q)];
        HexDigitLower(q);
      }
      forall i | 0 <= i < |h|
        ensures IsLowerHexDigit(h[i])
      {
        if i < |h| - 1 {
          assert h[i] == LowerHex(q)[i];
        }
      }
    }
  }

  /** A lower-case digit is the `HexDigit` of its own value. */
  lemma LowerHexDigitUnique(c: char)
    requires IsLowerHexDigit(c)
    ensures DigitValue(c, 16).Some? && c == HexDigit(DigitValue(c, 16).value)
  {
  }

  /** Digits with a leading digit other than `0` are worth at least one. */
  lemma {:induction false} LeadingDigitPositive(s: string)
    requires s != [] && s[0] != '0' && forall i :: 0 <= i < |s| ==> IsLowerHexDigit(s[i])
    ensures DigitsValue(s, 16).Some? && DigitsValue(s, 16).value >= 1
    decreases |s|
  {
    var s' := s[..|s| - 1];
    if s' == [] {
      DigitsValueSnoc(s', s[0], 16);
      assert s == s' + [s[0]];
    } else {
      LeadingDigitPositive(s');
      DigitsValueSnoc(s', s[|s| - 1], 16);
      assert s == s' + [s[|s| - 1]];
    }
  }

  /**
   * A canonical hexadecimal text is determined by its value: it is what
   * `LowerHex` prints for that value.
   */
  lemma {:induction false} CanonicalHexUnique(s: string, n: nat)
    requires CanonicalHex(s) && DigitsValue(s, 16) == Some(n)
    ensures s == LowerHex(n)
    decreases |s|
  {
    var c := s[|s| - 1];
    var s' := s[..|s| - 1];
    assert s == s' + [c];
    DigitsValueSnoc(s', c, 16);
    LowerHexDigitUnique(c);
    var d := DigitValue(c, 16).value;
    if s' == [] {
      assert n == d;
    } else {
      var v := DigitsValue(s', 16).value;
      assert n == v * 16 + d;
      assert s'[0] == s[0];
      LeadingDigitPositive(s');
      assert CanonicalHex(s') by {
        forall i | 0 <= i < |s'|
          ensures IsLowerHexDigit(s'[i])
        {
          assert s'[i] == s[i];
        }
      }
      CanonicalHexUnique(s', v);
      assert n / 16 == v && n % 16 == d;
    }
  }

  /** How many digits `LowerHex` prints for a 16-bit number. */
  lemma LowerHexLength(n: nat)
    requires n < 0x10000
    ensures |LowerHex(n)| == if n < 0x10 then 1 else if n < 0x100 then 2 else if n < 0x1000 then 3 else 4
  {
    if n >= 0x10 {
      var m := n / 16;
      if m >= 0x10 {
        var l := m / 16;
        assert l / 16 == n / 0x1000;
        if l >= 0x10 {
          assert |LowerHex(l / 16)| == 1;
        }
        assert |LowerHex(l)| == if l < 0x10 then 1 else 2;
      }
      assert |LowerHex(m)| == if m < 0x10 then 1 else if m < 0x100 then 2 else 3;
    }
  }

  /** Numbers from 0x100 to 0xFFF print as exactly three hexadecimal digits. */
  lemma LowerHexThreeDigits(n: nat)
    requires 0x100 <= n < 0x1000
    ensures |LowerHex(n)| == 3
  {
    var m := n / 16;
    assert 16 <= m < 0x100 && m / 16 == n / 0x100;
    assert |LowerHex(m / 16)| == 1;
    assert |LowerHex(m)| == 2;
  }
}
