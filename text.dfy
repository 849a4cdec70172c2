/**
 * The text layer of the cache files: Python's `readlines`/`writelines`,
 * `str.split()`, `int()` on a token and `str()` of an integer.
 */
module Text {
  import opened Wrappers

  // ---------------------------------------------------------------- lines

  /** Python's `readline`: length of the first line of `s`, its newline included. */
  function LineLength(s: string): (n: nat)
    requires s != []
    ensures 0 < n <= |s|
    ensures forall i :: 0 <= i < n - 1 ==> s[i] != '\n'
    ensures n < |s| ==> s[n - 1] == '\n'
  {
    if s[0] == '\n' || |s| == 1 then 1 else 1 + LineLength(s[1..])
  }

  /** Python's `f.readlines()`: the file cut after every newline. */
  function ReadLines(s: string): seq<string>
    decreases |s|
  {
    if s == [] then [] else var n := LineLength(s); [s[..n]] + ReadLines(s[n..])
  }

  /** Python's `f.writelines(lines)`: the lines written one after another. */
  function Concat(lines: seq<string>): string
  {
    if lines == [] then "" else lines[0] + Concat(lines[1..])
  }

  /** A non-empty line with no newline except possibly as its last character. */
  predicate IsLine(l: string)
  {
    |l| > 0 && forall i :: 0 <= i < |l| - 1 ==> l[i] != '\n'
  }

  predicate EndsWithNewline(s: string)
  {
    |s| > 0 && s[|s| - 1] == '\n'
  }

  /** A line as `readlines` returns it when it is not the file's last line. */
  predicate IsTerminatedLine(l: string)
  {
    IsLine(l) && EndsWithNewline(l)
  }

  /** What `readlines` can return: lines, each but the last newline-terminated. */
  predicate IsLineSeq(lines: seq<string>)
  {
    && (forall i :: 0 <= i < |lines| ==> IsLine(lines[i]))
    && (forall i :: 0 <= i < |lines| - 1 ==> EndsWithNewline(lines[i]))
  }

  /** A file that is empty or ends with a newline: every line of it is terminated. */
  predicate IsTerminatedText(s: string)
  {
    s == [] || EndsWithNewline(s)
  }

  /** Writing back what was read reproduces the file byte for byte. */
  lemma {:induction false} ConcatReadLines(s: string)
    ensures Concat(ReadLines(s)) == s
    decreases |s|
  {
    if s != [] {
      var n := LineLength(s);
      ConcatReadLines(s[n..]);
      assert s[..n] + s[n..] == s;
    }
  }

  /** `readlines` returns a line sequence, all of it terminated when the file ends with a newline. */
  lemma {:induction false} ReadLinesShape(s: string)
    ensures IsLineSeq(ReadLines(s))
    ensures IsTerminatedText(s) ==> forall i :: 0 <= i < |ReadLines(s)| ==> IsTerminatedLine(ReadLines(s)[i])
    decreases |s|
  {
    if s != [] {
      var n := LineLength(s);
      ReadLinesShape(s[n..]);
      var rest := ReadLines(s[n..]);
      assert ReadLines(s) == [s[..n]] + rest;
      if n == |s| {
        assert s[n..] == [];
      } else {
        assert s[n..] != [];
        assert rest != [];
        assert EndsWithNewline(s[..n]);
        assert IsTerminatedText(s) ==> IsTerminatedText(s[n..]);
      }
    }
  }

  /** The first line of a terminated line followed by more text is that line. */
  lemma LineLengthOfLine(l: string, rest: string)
    requires IsTerminatedLine(l)
    ensures LineLength(l + rest) == |l|
  {
    var s := l + rest;
    assert forall i :: 0 <= i < |l| ==> s[i] == l[i];
  }

  /** Reading back what was written gives the same lines. */
  lemma {:induction false} ReadLinesConcat(lines: seq<string>)
    requires IsLineSeq(lines)
    ensures ReadLines(Concat(lines)) == lines
  {
    if lines != [] {
      var l, rest := lines[0], lines[1..];
      var s := Concat(lines);
      assert s == l + Concat(rest);
      assert IsLineSeq(rest) by {
        assert forall i :: 0 <= i < |rest| ==> rest[i] == lines[i + 1];
      }
      ReadLinesConcat(rest);
      assert LineLength(s) == |l| by {
        if rest == [] {
          assert s == l;
        } else {
          assert IsTerminatedLine(l);
          LineLengthOfLine(l, Concat(rest));
        }
      }
      assert s[..|l|] == l;
      assert s[|l|..] == Concat(rest);
      assert lines == [l] + rest;
    }
  }

  /** Every line ends with a newline. */
  predicate AllTerminated(lines: seq<string>)
  {
    forall i :: 0 <= i < |lines| ==> IsTerminatedLine(lines[i])
  }

  /** Lines that each end with a newline are read back as they were written. */
  lemma TerminatedAreLines(lines: seq<string>)
    requires AllTerminated(lines)
    ensures ReadLines(Concat(lines)) == lines
  {
    assert IsLineSeq(lines);
    ReadLinesConcat(lines);
  }

  // --------------------------------------------------------------- fields

  /** The separators of Python's argument-less `str.split()` (`str.isspace`). */
  predicate IsSpace(c: char)
  {
    || c == ' ' || c == '\t' || c == '\n' || c == '\r' || c == '\U{000B}' || c == '\U{000C}'
    || '\U{001C}' <= c <= '\U{001F}' || c == '\U{0085}' || c == '\U{00A0}' || c == '\U{1680}'
    || '\U{2000}' <= c <= '\U{200A}' || c == '\U{2028}' || c == '\U{2029}' || c == '\U{202F}'
    || c == '\U{205F}' || c == '\U{3000}'
  }

  /** What `str.split()` can return as one field: non-empty, no separator. */
  predicate IsToken(s: string)
  {
    |s| > 0 && forall i :: 0 <= i < |s| ==> !IsSpace(s[i])
  }

  /** Length of the leading run of non-separators. */
  function TokenLength(s: string): (n: nat)
    ensures n <= |s|
    ensures forall i :: 0 <= i < n ==> !IsSpace(s[i])
    ensures n < |s| ==> IsSpace(s[n])
  {
    if s == [] || IsSpace(s[0]) then 0 else 1 + TokenLength(s[1..])
  }

  /** Python's `s.split()`: the maximal runs of non-separators, in order. */
  function Fields(s: string): (r: seq<string>)
    ensures forall i :: 0 <= i < |r| ==> |r[i]| > 0
    decreases |s|
  {
    if s == [] then []
    else if IsSpace(s[0]) then Fields(s[1..])
    else var n := TokenLength(s); [s[..n]] + Fields(s[n..])
  }

  /** Fields joined by single spaces, as the cache writer composes a record. */
  function Unwords(fs: seq<string>): string
  {
    if |fs| == 0 then "" else if |fs| == 1 then fs[0] else fs[0] + " " + Unwords(fs[1..])
  }

  lemma FieldsOfTokenThen(t: string, rest: string)
    requires IsToken(t)
    requires rest == [] || IsSpace(rest[0])
    ensures Fields(t + rest) == [t] + Fields(rest)
  {
    var s := t + rest;
    var n := TokenLength(s);
    assert forall i :: 0 <= i < |t| ==> s[i] == t[i];
    assert rest != [] ==> s[|t|] == rest[0];
    assert n == |t|;
    assert s[..n] == t;
    assert s[n..] == rest;
  }

  lemma FieldsOfSpaceThen(rest: string)
    ensures Fields(" " + rest) == Fields(rest)
  {
    assert (" " + rest)[1..] == rest;
  }

  /** Splitting a joined record gives back its fields: `split` inverts the writer. */
  lemma {:induction false} FieldsOfUnwords(fs: seq<string>, tail: string)
    requires forall i :: 0 <= i < |fs| ==> IsToken(fs[i])
    requires tail == [] || IsSpace(tail[0])
    ensures Fields(Unwords(fs) + tail) == fs + Fields(tail)
  {
    if |fs| == 0 {
      assert Unwords(fs) + tail == tail;
    } else if |fs| == 1 {
      FieldsOfTokenThen(fs[0], tail);
    } else {
      FieldsOfUnwords(fs[1..], tail);
      FieldsOfUnwordsStep(fs, tail);
    }
  }

  /** The inductive step: the first token is split off, then the rest as before. */
  lemma FieldsOfUnwordsStep(fs: seq<string>, tail: string)
    requires |fs| >= 2 && IsToken(fs[0])
    requires Fields(Unwords(fs[1..]) + tail) == fs[1..] + Fields(tail)
    ensures Fields(Unwords(fs) + tail) == fs + Fields(tail)
  {
    var rest := Unwords(fs[1..]) + tail;
    UnwordsCons(fs, tail);
    FieldsOfTokenSpace(fs[0], rest);
    ConsAppend(fs, Fields(tail));
  }

  lemma ConsAppend(fs: seq<string>, more: seq<string>)
    requires |fs| > 0
    ensures [fs[0]] + (fs[1..] + more) == fs + more
  {
    assert fs == [fs[0]] + fs[1..];
  }

  lemma UnwordsCons(fs: seq<string>, tail: string)
    requires |fs| >= 2
    ensures Unwords(fs) + tail == fs[0] + (" " + (Unwords(fs[1..]) + tail))
  {
  }

  /** A token, a space and more text split into the token and the fields of the rest. */
  lemma FieldsOfTokenSpace(t: string, rest: string)
    requires IsToken(t)
    ensures Fields(t + (" " + rest)) == [t] + Fields(rest)
  {
    FieldsOfTokenThen(t, " " + rest);
    FieldsOfSpaceThen(rest);
  }

  // -------------------------------------------------------------- numbers

  predicate IsDigit(c: char)
  {
    '0' as int <= c as int <= '9' as int
  }

  /** Python's `str.isdigit()`, for ASCII digits. */
  predicate IsDigits(s: string)
  {
    |s| > 0 && forall i :: 0 <= i < |s| ==> IsDigit(s[i])
  }

  function DigitChar(d: nat): (c: char)
    requires d < 10
    ensures IsDigit(c)
  {
    ('0' as int + d) as char
  }

  /** The decimal value of a run of digits. */
  function DigitsValue(s: string): nat
    requires forall i :: 0 <= i < |s| ==> IsDigit(s[i])
  {
    if s == [] then 0
    else
      assert IsDigit(s[|s| - 1]);
      DigitsValue(s[..|s| - 1]) * 10 + (s[|s| - 1] as int - '0' as int)
  }

  /** Python's `str(n)` for `n >= 0`. */
  function NatStr(n: nat): string
  {
    if n < 10 then [DigitChar(n)] else NatStr(n / 10) + [DigitChar(n % 10)]
  }

  /** Python's `str(n)` on an `int`. */
  function Str(n: int): string
  {
    if n < 0 then "-" + NatStr(-n) else NatStr(n)
  }

  /** Python's `int(tok)` on a field: an optional sign and ASCII digits; `None` is its ValueError. */
  function ParseInt(tok: string): Option<int>
  {
    if |tok| > 0 && (tok[0] == '-' || tok[0] == '+') then
      if IsDigits(tok[1..]) then
        var magnitude: int := DigitsValue(tok[1..]);
        Some(if tok[0] == '-' then -magnitude else magnitude)
      else None
    else if IsDigits(tok) then Some(DigitsValue(tok))
    else None
  }

  lemma {:induction false} NatStrDigits(n: nat)
    ensures IsDigits(NatStr(n)) && DigitsValue(NatStr(n)) == n
  {
    if n >= 10 {
      NatStrDigits(n / 10);
      var s := NatStr(n);
      assert s[..|s| - 1] == NatStr(n / 10);
    }
  }

  /** `int(str(n)) == n`: every number the cache writes reads back as itself. */
  lemma ParseStr(n: int)
    ensures IsToken(Str(n))
    ensures ParseInt(Str(n)) == Some(n)
  {
    var m: nat := if n < 0 then -n else n;
    NatStrDigits(m);
    DigitsAreToken(NatStr(m));
    if n < 0 {
      assert Str(n) == "-" + NatStr(m);
      assert Str(n)[1..] == NatStr(m);
      assert !IsSpace('-');
    }
  }

  lemma DigitsAreToken(s: string)
    requires IsDigits(s)
    ensures IsToken(s)
  {
    forall i | 0 <= i < |s|
      ensures !IsSpace(s[i])
    {
      assert IsDigit(s[i]);
    }
  }

  /** `str(n).isdigit()` holds exactly for the non-negative numbers. */
  lemma StrIsDigits(n: int)
    ensures IsDigits(Str(n)) <==> n >= 0
  {
    if n < 0 {
      assert !IsDigit(Str(n)[0]);
    } else {
      NatStrDigits(n);
    }
  }
}
