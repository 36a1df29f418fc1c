/** The string operations of the Rust standard library that the parser and the
    exporters rely on: `str::split` with a character pattern, `str::lines`, and
    the decimal `Display` of an unsigned integer. */
module Text {

  /** `s.split(sep)`: the pieces between separators, empty pieces included; a string
      without the separator, the empty string among them, is a single piece. */
  function Split(s: string, sep: char): (parts: seq<string>)
    ensures |parts| >= 1
    ensures forall i :: 0 <= i < |parts| ==> sep !in parts[i]
    decreases |s|
  {
    if |s| == 0 then [""]
    else
      var rest := Split(s[1..], sep);
      if s[0] == sep then [""] + rest
      else [[s[0]] + rest[0]] + rest[1..]
  }

  /** The pieces with one separator between consecutive ones (the inverse of `Split`). */
  function Join(parts: seq<string>, sep: char): string
    decreases |parts|
  {
    if |parts| == 0 then ""
    else if |parts| == 1 then parts[0]
    else parts[0] + [sep] + Join(parts[1..], sep)
  }

  /** The strings one after another. */
  function Concat(ss: seq<string>): string
    decreases |ss|
  {
    if |ss| == 0 then "" else ss[0] + Concat(ss[1..])
  }

  /** `line` without one trailing carriage return. */
  function StripCarriageReturn(line: string): string {
    if |line| > 0 && line[|line| - 1] == '\r' then line[..|line| - 1] else line
  }

  /** `s.lines()`: the pieces between line feeds, with no empty piece after a final
      line feed and nothing at all for the empty string; a line ended by a line
      feed also loses one carriage return before it. */
  function Lines(s: string): (lines: seq<string>)
    ensures forall i :: 0 <= i < |lines| ==> '\n' !in lines[i]
  {
    if |s| == 0 then [] else LinesOfPieces(Split(s, '\n'))
  }

  /** The lines of a text from its pieces between line feeds: every piece but the last
      was ended by a line feed and loses a carriage return before it; the last piece
      is a line only when it is not empty. */
  function LinesOfPieces(parts: seq<string>): (lines: seq<string>)
    requires |parts| > 0
    requires forall i :: 0 <= i < |parts| ==> '\n' !in parts[i]
    ensures forall i :: 0 <= i < |lines| ==> '\n' !in lines[i]
  {
    var last := parts[|parts| - 1];
    StripAll(parts[..|parts| - 1]) + (if last == "" then [] else [last])
  }

  /** Every piece without its trailing carriage return. */
  function StripAll(parts: seq<string>): (r: seq<string>)
    requires forall i :: 0 <= i < |parts| ==> '\n' !in parts[i]
    ensures |r| == |parts|
    ensures forall i :: 0 <= i < |r| ==> '\n' !in r[i]
  {
    seq(|parts|, i requires 0 <= i < |parts| => StripCarriageReturn(parts[i]))
  }

  /** A non-empty text without a line feed is one line, kept whole (a carriage return
      at its end is kept too: no line feed follows it). */
  lemma LinesOfLine(a: string)
    requires |a| > 0 && '\n' !in a
    ensures Lines(a) == [a]
  {
    SplitNoSeparator(a, '\n');
  }

  /** A line ended by a line feed is the first line, without one carriage return
      before the line feed; the lines of the rest follow. With `Lines("") == []` and
      `LinesOfLine`, this determines `Lines` on every text. */
  lemma LinesAfterLine(a: string, t: string)
    requires '\n' !in a
    ensures Lines(a + ['\n'] + t) == [StripCarriageReturn(a)] + Lines(t)
  {
    SplitAfterPiece(a, '\n', t);
    var rest := Split(t, '\n');
    LinesOfPiecesCons(a, rest);
    if |t| == 0 {
      assert rest == [""];
    }
  }

  /** A first piece before further pieces is a line of its own, stripped. */
  lemma LinesOfPiecesCons(a: string, rest: seq<string>)
    requires |rest| > 0 && '\n' !in a
    requires forall i :: 0 <= i < |rest| ==> '\n' !in rest[i]
    ensures LinesOfPieces([a] + rest) == [StripCarriageReturn(a)] + LinesOfPieces(rest)
  {
    var parts := [a] + rest;
    assert parts[|parts| - 1] == rest[|rest| - 1];
    assert parts[..|parts| - 1] == [a] + rest[..|rest| - 1];
    StripAllCons(a, rest[..|rest| - 1]);
  }

  lemma StripAllCons(a: string, rest: seq<string>)
    requires '\n' !in a && forall i :: 0 <= i < |rest| ==> '\n' !in rest[i]
    ensures StripAll([a] + rest) == [StripCarriageReturn(a)] + StripAll(rest)
  {
  }

  /** Only the empty text has no lines. */
  lemma LinesEmpty(s: string)
    ensures Lines(s) == [] <==> s == ""
  {
    if |s| > 0 {
      var parts := Split(s, '\n');
      if |parts| == 1 && parts[0] == "" {
        JoinSplit(s, '\n');
        assert false;
      }
    }
  }

  /** Joining a first piece onto further pieces puts one separator between them. */
  lemma JoinCons(a: string, rest: seq<string>, sep: char)
    requires |rest| > 0
    ensures Join([a] + rest, sep) == a + [sep] + Join(rest, sep)
  {
    assert ([a] + rest)[1..] == rest;
  }

  /** For a text without carriage returns, the lines rejoined with line feeds give
      back the text, up to the line feed that may end it. */
  lemma {:induction false} LinesJoin(s: string)
    requires '\r' !in s
    ensures Join(Lines(s), '\n') + (if |s| > 0 && s[|s| - 1] == '\n' then "\n" else "") == s
    decreases |s|
  {
    if |s| > 0 {
      var parts := Split(s, '\n');
      JoinSplit(s, '\n');
      if |parts| == 1 {
        assert s == parts[0];
        LinesOfLine(s);
      } else {
        var a := parts[0];
        var t := Join(parts[1..], '\n');
        JoinCons(a, parts[1..], '\n');
        assert [a] + parts[1..] == parts;
        assert s == a + ['\n'] + t;
        assert '\r' !in a && '\r' !in t;
        LinesJoin(t);
        LinesJoinAfter(a, t);
      }
    }
  }

  /** The round trip of `LinesJoin` carries over from `t` to a first line `a`, its line
      feed, then `t`. */
  lemma LinesJoinAfter(a: string, t: string)
    requires '\n' !in a && '\r' !in a
    requires Join(Lines(t), '\n') + (if |t| > 0 && t[|t| - 1] == '\n' then "\n" else "") == t
    ensures var s := a + ['\n'] + t;
      Join(Lines(s), '\n') + (if |s| > 0 && s[|s| - 1] == '\n' then "\n" else "") == s
  {
    var s := a + ['\n'] + t;
    LinesAfterLine(a, t);
    assert StripCarriageReturn(a) == a;
    LinesEmpty(t);
    if |t| == 0 {
      assert Lines(s) == [a];
    } else {
      JoinCons(a, Lines(t), '\n');
      assert s[|s| - 1] == t[|t| - 1];
    }
  }

  /** The decimal digit character for `d`. */
  function DigitChar(d: nat): (c: char)
    requires d < 10
    ensures '0' <= c <= '9'
  {
    (48 + d) as char
  }

  /** The value of a decimal digit character. */
  function DigitValue(c: char): (d: nat)
    requires '0' <= c <= '9'
    ensures d < 10
  {
    c as int - 48
  }

  predicate IsDigits(s: string) {
    forall i :: 0 <= i < |s| ==> '0' <= s[i] <= '9'
  }

  /** `format!("{}", n)` for an unsigned integer: decimal, no leading zeros. */
  function NatToString(n: nat): (s: string)
    ensures |s| > 0 && IsDigits(s)
    decreases n
  {
    if n < 10 then [DigitChar(n)] else NatToString(n / 10) + [DigitChar(n % 10)]
  }

  /** The number a non-empty string of decimal digits denotes. */
  function ParseNat(s: string): nat
    requires |s| > 0 && IsDigits(s)
    decreases |s|
  {
    if |s| == 1 then DigitValue(s[0])
    else ParseNat(s[..|s| - 1]) * 10 + DigitValue(s[|s| - 1])
  }

  /** Reading back the decimal rendering of `n` gives `n`. */
  lemma {:induction false} ParseNatToString(n: nat)
    ensures ParseNat(NatToString(n)) == n
    decreases n
  {
    if n >= 10 {
      var s := NatToString(n);
      assert s[..|s| - 1] == NatToString(n / 10);
      ParseNatToString(n / 10);
    }
  }

  /** Distinct numbers render as distinct strings. */
  lemma NatToStringInjective(a: nat, b: nat)
    ensures NatToString(a) == NatToString(b) ==> a == b
  {
    ParseNatToString(a);
    ParseNatToString(b);
  }

  /** Joining the pieces of `s` restores `s`. */
  lemma {:induction false} JoinSplit(s: string, sep: char)
    ensures Join(Split(s, sep), sep) == s
    decreases |s|
  {
    if |s| > 0 {
      var rest := Split(s[1..], sep);
      JoinSplit(s[1..], sep);
      if s[0] == sep {
        JoinAfterEmpty(rest, sep);
      } else {
        JoinExtendFirst(s[0], rest, sep);
      }
      assert [s[0]] + s[1..] == s;
    }
  }

  /** An empty first piece contributes only the separator after it. */
  lemma JoinAfterEmpty(rest: seq<string>, sep: char)
    requires |rest| > 0
    ensures Join([""] + rest, sep) == [sep] + Join(rest, sep)
  {
    assert ([""] + rest)[1..] == rest;
  }

  /** Prefixing the first piece with a character prefixes the join with it. */
  lemma JoinExtendFirst(c: char, rest: seq<string>, sep: char)
    requires |rest| > 0
    ensures Join([[c] + rest[0]] + rest[1..], sep) == [c] + Join(rest, sep)
  {
    var parts := [[c] + rest[0]] + rest[1..];
    if |rest| > 1 {
      assert parts[1..] == rest[1..];
    }
  }

  /** A piece without the separator, a separator, and the rest split as the piece
      followed by the pieces of the rest. */
  lemma {:induction false} SplitAfterPiece(a: string, sep: char, t: string)
    requires sep !in a
    ensures Split(a + [sep] + t, sep) == [a] + Split(t, sep)
    decreases |a|
  {
    if |a| == 0 {
      assert a + [sep] + t == [sep] + t;
      assert ([sep] + t)[1..] == t;
    } else {
      var s := a + [sep] + t;
      assert s[1..] == a[1..] + [sep] + t;
      SplitAfterPiece(a[1..], sep, t);
      assert [a[0]] + a[1..] == a;
    }
  }

  /** A string without the separator is a single piece. */
  lemma {:induction false} SplitNoSeparator(a: string, sep: char)
    requires sep !in a
    ensures Split(a, sep) == [a]
    decreases |a|
  {
    if |a| > 0 {
      SplitNoSeparator(a[1..], sep);
      assert [a[0]] + a[1..] == a;
    }
  }

  /** Splitting the join of separator-free pieces gives the pieces back. */
  lemma {:induction false} SplitJoin(parts: seq<string>, sep: char)
    requires |parts| >= 1
    requires forall i :: 0 <= i < |parts| ==> sep !in parts[i]
    ensures Split(Join(parts, sep), sep) == parts
    decreases |parts|
  {
    if |parts| == 1 {
      SplitNoSeparator(parts[0], sep);
    } else {
      SplitJoin(parts[1..], sep);
      SplitAfterPiece(parts[0], sep, Join(parts[1..], sep));
      assert [parts[0]] + parts[1..] == parts;
    }
  }

  /** Appending one string at the end of a concatenation. */
  lemma {:induction false} ConcatAppend(ss: seq<string>, s: string)
    ensures Concat(ss + [s]) == Concat(ss) + s
    decreases |ss|
  {
    if |ss| == 0 {
      assert ss + [s] == [s];
    } else {
      assert (ss + [s])[1..] == ss[1..] + [s];
      ConcatAppend(ss[1..], s);
    }
  }
}
