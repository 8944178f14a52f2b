/**
 * The two pieces of .NET string handling the parser depends on:
 * `String.Split(string)` and the integer text format read by `int.TryParse`
 * and written by `{0}` formatting of an `int`.
 */
module Text {
  import opened Wrappers

  // ---------------------------------------------------------------------------
  // Splitting on a separator string
  // ---------------------------------------------------------------------------

  /** `s.Split(sep)`: cut `s` at every occurrence of `sep`, scanning left to
      right, occurrences never overlapping; empty pieces are kept. */
  function Split(s: string, sep: string): (parts: seq<string>)
    requires |sep| > 0
    ensures |parts| >= 1
    decreases |s|
  {
    if |s| < |sep| then [s]
    else if s[..|sep|] == sep then [""] + Split(s[|sep|..], sep)
    else
      var rest := Split(s[1..], sep);
      [[s[0]] + rest[0]] + rest[1..]
  }

  /** `String.Join(sep, parts)`: the inverse of `Split`. */
  function Join(parts: seq<string>, sep: string): string
  {
    if |parts| == 0 then ""
    else if |parts| == 1 then parts[0]
    else parts[0] + sep + Join(parts[1..], sep)
  }

  /** Joining a first piece in front of a non-empty rest. */
  lemma JoinCons(first: string, rest: seq<string>, sep: string)
    requires |rest| >= 1
    ensures Join([first] + rest, sep) == first + sep + Join(rest, sep)
  {
    assert ([first] + rest)[1..] == rest;
  }

  /** Joining a non-empty list with one more piece at the end. */
  lemma {:induction false} JoinSnoc(parts: seq<string>, last: string, sep: string)
    requires |parts| >= 1
    ensures Join(parts + [last], sep) == Join(parts, sep) + sep + last
    decreases |parts|
  {
    if |parts| == 1 {
      assert parts + [last] == [parts[0]] + [last];
      assert ([parts[0]] + [last])[1..] == [last];
    } else {
      JoinSnoc(parts[1..], last, sep);
      assert (parts + [last])[1..] == parts[1..] + [last];
    }
  }

  /** Splitting loses nothing: joining the pieces back gives the input. */
  lemma {:induction false} JoinSplit(s: string, sep: string)
    requires |sep| > 0
    ensures Join(Split(s, sep), sep) == s
    decreases |s|
  {
    if |s| < |sep| {
    } else if s[..|sep|] == sep {
      var rest := Split(s[|sep|..], sep);
      JoinSplit(s[|sep|..], sep);
      assert Split(s, sep) == [""] + rest;
      assert Join([""] + rest, sep) == "" + sep + Join(rest, sep) by {
        assert ([""] + rest)[1..] == rest;
      }
      assert s == sep + s[|sep|..];
    } else {
      var rest := Split(s[1..], sep);
      JoinSplit(s[1..], sep);
      var parts := [[s[0]] + rest[0]] + rest[1..];
      assert Split(s, sep) == parts;
      if |rest| == 1 {
        assert Join(parts, sep) == [s[0]] + rest[0];
        assert [s[0]] + s[1..] == s;
      } else {
        assert parts[1..] == rest[1..];
        assert Join(rest, sep) == rest[0] + sep + Join(rest[1..], sep);
        assert Join(parts, sep) == [s[0]] + rest[0] + sep + Join(rest[1..], sep);
        assert [s[0]] + s[1..] == s;
      }
    }
  }

  /** A string in which the separator's first character never occurs is not cut. */
  lemma {:induction false} SplitWithoutSeparator(s: string, sep: string)
    requires |sep| > 0 && sep[0] !in s
    ensures Split(s, sep) == [s]
    decreases |s|
  {
    if |s| < |sep| {
    } else {
      assert s[..|sep|][0] == s[0] != sep[0];
      SplitWithoutSeparator(s[1..], sep);
      assert [s[0]] + s[1..] == s;
    }
  }

  /** Cutting at the first separator: when the separator's first character does
      not occur in `a`, the first piece of `a + sep + b` is exactly `a`. */
  lemma {:induction false} SplitAtFirst(a: string, sep: string, b: string)
    requires |sep| > 0 && sep[0] !in a
    ensures Split(a + sep + b, sep) == [a] + Split(b, sep)
    decreases |a|
  {
    var s := a + sep + b;
    if |a| == 0 {
      assert s[..|sep|] == sep && s[|sep|..] == b;
    } else {
      assert s[..|sep|][0] == a[0] != sep[0];
      assert s[1..] == a[1..] + sep + b;
      SplitAtFirst(a[1..], sep, b);
      assert [a[0]] + a[1..] == a;
    }
  }

  /** A piece count above one means the separator's first character occurs. */
  lemma SplitPiecesNeedSeparator(s: string, sep: string)
    requires |sep| > 0 && |Split(s, sep)| >= 2
    ensures sep[0] in s
  {
    if sep[0] !in s {
      SplitWithoutSeparator(s, sep);
    }
  }

  /** Splitting undoes joining, provided no piece holds the separator's first
      character. */
  lemma {:induction false} SplitJoin(parts: seq<string>, sep: string)
    requires |sep| > 0 && |parts| >= 1
    requires forall k :: 0 <= k < |parts| ==> sep[0] !in parts[k]
    ensures Split(Join(parts, sep), sep) == parts
    decreases |parts|
  {
    if |parts| == 1 {
      SplitWithoutSeparator(parts[0], sep);
    } else {
      SplitJoin(parts[1..], sep);
      SplitAtFirst(parts[0], sep, Join(parts[1..], sep));
      assert [parts[0]] + parts[1..] == parts;
    }
  }

  // ---------------------------------------------------------------------------
  // Integer tokens
  // ---------------------------------------------------------------------------

  predicate IsDigit(c: char) { '0' <= c <= '9' }

  predicate AllDigits(s: string) { forall k :: 0 <= k < |s| ==> IsDigit(s[k]) }

  /** What `int.TryParse` accepts here: an optional sign and at least one digit. */
  predicate IsIntToken(s: string)
  {
    |s| > 0 &&
    if s[0] == '-' || s[0] == '+' then |s| > 1 && AllDigits(s[1..]) else AllDigits(s)
  }

  function DigitsValue(s: string): nat
    requires AllDigits(s)
  {
    if s == [] then 0
    else DigitsValue(s[..|s| - 1]) * 10 + (s[|s| - 1] as int - '0' as int)
  }

  /** `int.TryParse` followed by `int.Parse`: the value, or None when rejected. */
  function ParseInt(s: string): Option<int>
  {
    if !IsIntToken(s) then None
    else if s[0] == '-' then Some(-(DigitsValue(s[1..]) as int))
    else if s[0] == '+' then Some(DigitsValue(s[1..]))
    else Some(DigitsValue(s))
  }

  function DigitChar(d: nat): char
    requires d < 10
  {
    ('0' as int + d) as char
  }

  function NatToString(n: nat): (s: string)
    ensures |s| > 0 && AllDigits(s)
  {
    if n < 10 then [DigitChar(n)] else NatToString(n / 10) + [DigitChar(n % 10)]
  }

  /** `{0}` formatting of an int: decimal digits, a leading '-' when negative. */
  function IntToString(i: int): (s: string)
  {
    if i < 0 then "-" + NatToString(-i) else NatToString(i)
  }

  lemma {:induction false} DigitsValueOfNat(n: nat)
    ensures DigitsValue(NatToString(n)) == n
  {
    if n >= 10 {
      var s := NatToString(n);
      assert s[..|s| - 1] == NatToString(n / 10);
      DigitsValueOfNat(n / 10);
    }
  }

  /** The integer format round-trips: what is written is read back. */
  lemma ParseIntOfIntToString(i: int)
    ensures IsIntToken(IntToString(i))
    ensures ParseInt(IntToString(i)) == Some(i)
  {
    var s := IntToString(i);
    if i < 0 {
      assert s[1..] == NatToString(-i);
      DigitsValueOfNat(-i);
    } else {
      DigitsValueOfNat(i);
    }
  }

  /** An integer token holds none of the separators the writers and the face
      grammars use, and no line break. */
  lemma IntTokenHasNoSeparator(s: string)
    requires IsIntToken(s)
    ensures '/' !in s && ' ' !in s && ',' !in s
    ensures NoLineBreak(s)
  {
    forall k | 0 <= k < |s|
      ensures s[k] != '/' && s[k] != ' ' && s[k] != ',' && s[k] != '\n' && s[k] != '\r'
    {
      if k > 0 && (s[0] == '-' || s[0] == '+') {
        assert s[1..][k - 1] == s[k];
      }
    }
  }

  // ---------------------------------------------------------------------------
  // Lines in a text file
  // ---------------------------------------------------------------------------

  /** A string holding neither of the characters that end a line. */
  predicate NoLineBreak(s: string)
  {
    '\n' !in s && '\r' !in s
  }

  /** The two values `Environment.NewLine` takes: `\n` and `\r\n`. */
  predicate IsNewLine(nl: string)
  {
    nl == "\n" || nl == "\r\n"
  }

  /** The file a `StreamWriter` leaves after one `WriteLine` per line: every
      line followed by the newline `nl`. */
  function FileText(lines: seq<string>, nl: string): string
  {
    if lines == [] then "" else lines[0] + nl + FileText(lines[1..], nl)
  }

  /** `StreamReader.ReadLine` on a non-empty text: the characters up to the
      first `\n`, `\r` or `\r\n`, and the text after that break (or after
      the end when there is none). */
  function NextLine(s: string): (r: (string, string))
    requires |s| > 0
    ensures |r.1| < |s|
  {
    if s[0] == '\n' then ("", s[1..])
    else if s[0] == '\r' then (if |s| > 1 && s[1] == '\n' then ("", s[2..]) else ("", s[1..]))
    else if |s| == 1 then (s, "")
    else
      var next := NextLine(s[1..]);
      ([s[0]] + next.0, next.1)
  }

  /** `File.ReadLines`: the lines of a text, a final line break ending the last
      line rather than starting an empty one. */
  function ReadLines(s: string): seq<string>
    decreases |s|
  {
    if s == [] then [] else [NextLine(s).0] + ReadLines(NextLine(s).1)
  }

  /** A line without breaks followed by a newline is read as that line. */
  lemma {:induction false} NextLineOf(line: string, nl: string, rest: string)
    requires NoLineBreak(line) && IsNewLine(nl)
    ensures NextLine(line + nl + rest) == (line, rest)
    decreases |line|
  {
    var s := line + nl + rest;
    if line == [] {
      assert s == nl + rest;
      if nl == "\n" {
        assert s[1..] == rest;
      } else {
        assert s[2..] == rest;
      }
    } else {
      assert s[0] == line[0];
      assert s[1..] == line[1..] + nl + rest;
      NextLineOf(line[1..], nl, rest);
      assert [line[0]] + line[1..] == line;
    }
  }

  /** Reading back the file written line by line gives the same lines, as
      long as no line holds a line break. */
  lemma {:induction false} ReadLinesOfFileText(lines: seq<string>, nl: string)
    requires IsNewLine(nl)
    requires forall k :: 0 <= k < |lines| ==> NoLineBreak(lines[k])
    ensures ReadLines(FileText(lines, nl)) == lines
    decreases |lines|
  {
    if lines != [] {
      NextLineOf(lines[0], nl, FileText(lines[1..], nl));
      ReadLinesOfFileText(lines[1..], nl);
      assert [lines[0]] + lines[1..] == lines;
    }
  }

  /** A line break written inside a line splits it in two when the file is
      read back. */
  lemma BrokenLineExample()
    ensures ReadLines(FileText(["o a\nb"], "\n")) == ["o a", "b"]
  {
    var text := FileText(["o a\nb"], "\n");
    assert ["o a\nb"][1..] == [];
    assert text == "o a" + "\n" + "b\n";
    NextLineOf("o a", "\n", "b\n");
    assert ReadLines(text) == ["o a"] + ReadLines("b\n");
    NextLineOf("b", "\n", "");
    assert "b\n" == "b" + "\n" + "";
    assert ReadLines("b\n") == ["b"] + ReadLines("");
  }
}
