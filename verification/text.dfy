/** The Python string operations the system relies on, over `string`
    (a sequence of Unicode scalar values): `strip`, `startswith`,
    `endswith`, `in`, `lower`, `split`, `join`, and integer formatting with
    and without the `{:,}` thousands separator. */
module Text {

  // ---------------------------------------------------------------- whitespace

  /** What `str.strip()` removes: the ASCII whitespace characters and the four
      information separators U+001C..U+001F, which Python also counts as
      whitespace. */
  predicate IsSpace(c: char) {
    c == ' ' || c == '\t' || c == '\n' || c == '\r' || c == '\U{000B}' || c == '\U{000C}'
    || ('\U{001C}' <= c <= '\U{001F}')
  }

  /** `s.strip()` is empty, i.e. `s` is falsy once stripped. */
  predicate IsBlank(s: string) {
    forall i | 0 <= i < |s| :: IsSpace(s[i])
  }

  function TrimStart(s: string): (r: string)
    ensures |r| <= |s| && r == s[|s| - |r|..]
    ensures IsBlank(s[..|s| - |r|])
    ensures r == [] || !IsSpace(r[0])
    decreases |s|
  {
    if |s| > 0 && IsSpace(s[0]) then
      var r := TrimStart(s[1..]);
      TrimStartStep(s, r);
      r
    else
      assert s[..0] == [];
      s
  }

  function TrimEnd(s: string): (r: string)
    ensures |r| <= |s| && r == s[..|r|]
    ensures IsBlank(s[|r|..])
    ensures r == [] || !IsSpace(r[|r| - 1])
    decreases |s|
  {
    if |s| > 0 && IsSpace(s[|s| - 1]) then
      var r := TrimEnd(s[..|s| - 1]);
      TrimEndStep(s, r);
      r
    else
      assert s[|s|..] == [];
      s
  }

  /** A whitespace character before a trimmed suffix is trimmed with it. */
  lemma TrimStartStep(s: string, r: string)
    requires |s| > 0 && IsSpace(s[0])
    requires |r| <= |s| - 1 && r == s[1..][|s| - 1 - |r|..] && IsBlank(s[1..][..|s| - 1 - |r|])
    ensures r == s[|s| - |r|..] && IsBlank(s[..|s| - |r|])
  {
    assert s[..|s| - |r|] == [s[0]] + s[1..][..|s| - 1 - |r|];
  }

  /** A whitespace character after a trimmed prefix is trimmed with it. */
  lemma TrimEndStep(s: string, r: string)
    requires |s| > 0 && IsSpace(s[|s| - 1])
    requires |r| <= |s| - 1 && r == s[..|s| - 1][..|r|] && IsBlank(s[..|s| - 1][|r|..])
    ensures r == s[..|r|] && IsBlank(s[|r|..])
  {
    assert s[|r|..] == s[..|s| - 1][|r|..] + [s[|s| - 1]];
  }

  /** `s.strip()`: `s` with its leading and trailing whitespace removed;
      what remains starts and ends with a non-space character. */
  function Strip(s: string): (r: string)
    ensures |r| <= |s|
    ensures r != [] ==> !IsSpace(r[0]) && !IsSpace(r[|r| - 1])
  {
    TrimEnd(TrimStart(s))
  }

  /** A line is falsy once stripped exactly when it is blank. */
  lemma StripEmptyIffBlank(s: string)
    ensures Strip(s) == [] <==> IsBlank(s)
  {
    var t := TrimStart(s);
    assert s == s[..|s| - |t|] + t;
    if TrimEnd(t) == [] {
      assert t == t[|TrimEnd(t)|..];
    }
  }

  /** `r` sits in `s` at `lead`, with nothing but whitespace on either side. */
  predicate BlankAround(s: string, lead: nat, r: string) {
    && lead + |r| <= |s|
    && s[lead..lead + |r|] == r
    && IsBlank(s[..lead]) && IsBlank(s[lead + |r|..])
  }

  /** `Strip` removes only whitespace: what it returns is a contiguous slice
      of `s` with nothing but whitespace on either side. */
  lemma StripIsSlice(s: string)
    ensures BlankAround(s, |s| - |TrimStart(s)|, Strip(s))
  {
    var t := TrimStart(s);
    var r := Strip(s);
    assert |t| <= |s| && t == s[|s| - |t|..] && IsBlank(s[..|s| - |t|]);
    assert |r| <= |t| && r == t[..|r|] && IsBlank(t[|r|..]) by {
      assert r == TrimEnd(t);
    }
    SliceBetweenBlanks(s, t, r);
  }

  /** A prefix `r` of a suffix `t` of `s`, with blanks before `t` and after
      `r` in it, sits in `s` between blanks. */
  lemma SliceBetweenBlanks(s: string, t: string, r: string)
    requires |t| <= |s| && t == s[|s| - |t|..] && IsBlank(s[..|s| - |t|])
    requires |r| <= |t| && r == t[..|r|] && IsBlank(t[|r|..])
    ensures BlankAround(s, |s| - |t|, r)
  {
    SliceOfSuffix(s, |s| - |t|, |r|);
  }

  lemma SliceOfSuffix(s: string, lead: nat, n: nat)
    requires lead + n <= |s|
    ensures s[lead..][..n] == s[lead..lead + n]
    ensures s[lead..][n..] == s[lead + n..]
  {
  }

  /** Stripping twice is stripping once. */
  lemma StripIdempotent(s: string)
    ensures Strip(Strip(s)) == Strip(s)
  {
    var r := Strip(s);
    if r != [] {
      assert TrimStart(r) == r;
      assert TrimEnd(r) == r;
    }
  }

  // ---------------------------------------------------------------- matching

  /** `s.startswith(p)` */
  predicate StartsWith(s: string, p: string) {
    |p| <= |s| && s[..|p|] == p
  }

  /** `s.endswith(p)` */
  predicate EndsWith(s: string, p: string) {
    |p| <= |s| && s[|s| - |p|..] == p
  }

  /** `p in s`: `p` occurs in `s` as a contiguous block. */
  predicate Contains(s: string, p: string)
    decreases |s|
  {
    StartsWith(s, p) || (|s| > 0 && Contains(s[1..], p))
  }

  lemma {:induction false} ContainsSelf(p: string)
    ensures Contains(p, p)
  {
    assert p[..|p|] == p;
  }

  /** An occurrence in `b` is an occurrence in `a + b`. */
  lemma {:induction false} ContainsRight(a: string, b: string, p: string)
    requires Contains(b, p)
    ensures Contains(a + b, p)
    decreases |a|
  {
    if |a| == 0 {
      assert a + b == b;
    } else {
      assert (a + b)[1..] == a[1..] + b;
      ContainsRight(a[1..], b, p);
    }
  }

  /** An occurrence in `a` is an occurrence in `a + b`. */
  lemma {:induction false} ContainsLeft(a: string, b: string, p: string)
    requires Contains(a, p)
    ensures Contains(a + b, p)
    decreases |a|
  {
    if StartsWith(a, p) {
      assert (a + b)[..|p|] == a[..|p|];
    } else {
      assert (a + b)[1..] == a[1..] + b;
      ContainsLeft(a[1..], b, p);
    }
  }

  /** A nonempty pattern without spaces occurs in `a + " " + b` exactly when
      it occurs in `a` or in `b`: no occurrence can straddle the space. */
  lemma {:induction false} ContainsAcrossSpace(a: string, b: string, p: string)
    requires |p| > 0 && ' ' !in p
    ensures Contains(a + " " + b, p) <==> Contains(a, p) || Contains(b, p)
    decreases |a|
  {
    var s := a + " " + b;
    if |a| == 0 {
      assert s[1..] == b;
      assert s[0] == ' ' && p[0] != ' ';
      assert !StartsWith(s, p);
      assert !StartsWith(a, p);
      assert Contains(s, p) <==> Contains(b, p);
    } else {
      assert s[1..] == a[1..] + " " + b;
      ContainsAcrossSpace(a[1..], b, p);
      assert StartsWith(s, p) <==> StartsWith(a, p) by {
        if |p| <= |a| {
          assert s[..|p|] == a[..|p|];
        } else {
          assert s[|a|] == ' ' && p[|a|] != ' ';
        }
      }
      assert Contains(s, p) <==> StartsWith(s, p) || Contains(s[1..], p);
      assert Contains(a, p) <==> StartsWith(a, p) || Contains(a[1..], p);
    }
  }

  // ---------------------------------------------------------------- case

  /** `str.lower()` on one character, for ASCII letters and the basic
      Cyrillic block (U+0400..U+042F). */
  function LowerChar(c: char): char {
    if 'A' <= c <= 'Z' then (c as int + 32) as char
    else if '\U{0410}' <= c <= '\U{042F}' then (c as int + 32) as char
    else if '\U{0400}' <= c <= '\U{040F}' then (c as int + 80) as char
    else c
  }

  /** `s.lower()`, character by character. */
  function Lower(s: string): (r: string)
    ensures |r| == |s|
    ensures forall i | 0 <= i < |s| :: r[i] == LowerChar(s[i])
  {
    seq(|s|, i requires 0 <= i < |s| => LowerChar(s[i]))
  }

  // ---------------------------------------------------------------- split / join

  /** `s.split(sep)`: the maximal `sep`-free pieces of `s`; always at least
      one piece, and one more piece than `s` has separators. */
  function Split(s: string, sep: char): (r: seq<string>)
    ensures |r| >= 1
    ensures forall k | 0 <= k < |r| :: sep !in r[k]
    decreases |s|
  {
    if |s| == 0 then [""]
    else
      var rest := Split(s[1..], sep);
      if s[0] == sep then [""] + rest
      else [[s[0]] + rest[0]] + rest[1..]
  }

  /** `sep.join(parts)` */
  function Join(parts: seq<string>, sep: char): string
    decreases |parts|
  {
    if |parts| == 0 then ""
    else if |parts| == 1 then parts[0]
    else parts[0] + [sep] + Join(parts[1..], sep)
  }

  /** Joining the pieces of a split gives back the original text. */
  lemma {:induction false} JoinSplit(s: string, sep: char)
    ensures Join(Split(s, sep), sep) == s
    decreases |s|
  {
    if |s| > 0 {
      var rest := Split(s[1..], sep);
      JoinSplit(s[1..], sep);
      if s[0] == sep {
        assert Split(s, sep) == [""] + rest;
        assert ([""] + rest)[1..] == rest;
        assert s == [sep] + s[1..];
      } else {
        var parts := Split(s, sep);
        assert parts == [[s[0]] + rest[0]] + rest[1..];
        if |rest| == 1 {
          assert s == [s[0]] + s[1..];
        } else {
          assert parts[1..] == rest[1..];
          assert Join(rest, sep) == rest[0] + [sep] + Join(rest[1..], sep);
          assert s == [s[0]] + s[1..];
        }
      }
    }
  }

  /** Splitting a separator-free piece followed by a separator peels that
      piece off. */
  lemma {:induction false} SplitPiece(a: string, t: string, sep: char)
    requires sep !in a
    ensures Split(a + [sep] + t, sep) == [a] + Split(t, sep)
    decreases |a|
  {
    var s := a + [sep] + t;
    if |a| == 0 {
      assert s == [sep] + t;
      assert s[1..] == t;
    } else {
      assert s[1..] == a[1..] + [sep] + t;
      SplitPiece(a[1..], t, sep);
      assert a == [a[0]] + a[1..];
    }
  }

  lemma {:induction false} SplitNoSeparator(a: string, sep: char)
    requires sep !in a
    ensures Split(a, sep) == [a]
    decreases |a|
  {
    if |a| > 0 {
      SplitNoSeparator(a[1..], sep);
      assert a == [a[0]] + a[1..];
    }
  }

  /** Splitting a join of separator-free pieces gives back the pieces. */
  lemma {:induction false} SplitJoin(parts: seq<string>, sep: char)
    requires |parts| >= 1
    requires forall k | 0 <= k < |parts| :: sep !in parts[k]
    ensures Split(Join(parts, sep), sep) == parts
    decreases |parts|
  {
    if |parts| == 1 {
      SplitNoSeparator(parts[0], sep);
    } else {
      SplitJoin(parts[1..], sep);
      SplitPiece(parts[0], Join(parts[1..], sep), sep);
      assert parts == [parts[0]] + parts[1..];
    }
  }

  /** A text built as `a + sep + b` from separator-free `a` and `b` splits
      back into `a` and `b` only one way. */
  lemma {:induction false} SeparatorSplitsUniquely(a: string, b: string, c: string, d: string, sep: char)
    requires a + [sep] + b == c + [sep] + d
    requires sep !in c && sep !in d
    ensures a == c && b == d
  {
    var s := a + [sep] + b;
    assert s[|a|] == sep;
    assert a == s[..|a|] && c == s[..|c|];
    assert b == s[|a| + 1..] && d == s[|c| + 1..];
  }

  /** The last piece of a split is what follows the last separator. */
  lemma {:induction false} SplitLast(a: string, b: string, sep: char)
    requires sep !in b
    ensures |Split(a + [sep] + b, sep)| >= 2
    ensures Split(a + [sep] + b, sep)[|Split(a + [sep] + b, sep)| - 1] == b
    decreases |a|
  {
    var s := a + [sep] + b;
    if |a| == 0 {
      assert s == [sep] + b && s[1..] == b;
      SplitNoSeparator(b, sep);
    } else {
      assert s[1..] == a[1..] + [sep] + b;
      SplitLast(a[1..], b, sep);
    }
  }

  /** Lowercasing commutes with joining on a space. */
  lemma {:induction false} LowerJoin(parts: seq<string>)
    ensures Lower(Join(parts, ' ')) == Join(seq(|parts|, i requires 0 <= i < |parts| => Lower(parts[i])), ' ')
    decreases |parts|
  {
    var lowered := seq(|parts|, i requires 0 <= i < |parts| => Lower(parts[i]));
    if |parts| > 1 {
      LowerJoin(parts[1..]);
      assert lowered[1..] == seq(|parts[1..]|, i requires 0 <= i < |parts[1..]| => Lower(parts[1..][i]));
      assert Lower(parts[0] + [' '] + Join(parts[1..], ' '))
          == Lower(parts[0]) + [' '] + Lower(Join(parts[1..], ' '));
    }
  }

  /** A nonempty pattern without spaces occurs in the space-join of `parts`
      exactly when it occurs in one of the parts. */
  lemma {:induction false} ContainsInJoin(parts: seq<string>, p: string)
    requires |p| > 0 && ' ' !in p
    ensures Contains(Join(parts, ' '), p) <==> exists k | 0 <= k < |parts| :: Contains(parts[k], p)
    decreases |parts|
  {
    if |parts| == 0 {
      assert !Contains("", p);
    } else if |parts| > 1 {
      ContainsInJoin(parts[1..], p);
      ContainsAcrossSpace(parts[0], Join(parts[1..], ' '), p);
      assert parts[0] + [' '] + Join(parts[1..], ' ') == parts[0] + " " + Join(parts[1..], ' ');
      if Contains(Join(parts[1..], ' '), p) {
        var k :| 0 <= k < |parts[1..]| && Contains(parts[1..][k], p);
        assert Contains(parts[k + 1], p);
      }
      if exists k | 0 <= k < |parts| :: Contains(parts[k], p) {
        var k :| 0 <= k < |parts| && Contains(parts[k], p);
        if k > 0 {
          assert Contains(parts[1..][k - 1], p);
        }
      }
    }
  }

  // ---------------------------------------------------------------- numbers

  predicate IsDigit(c: char) {
    '0' <= c <= '9'
  }

  function DigitChar(d: nat): (c: char)
    requires d < 10
    ensures IsDigit(c)
  {
    ('0' as int + d) as char
  }

  /** The number a string of decimal digits denotes. */
  function DigitsValue(s: string): nat
    requires forall i | 0 <= i < |s| :: IsDigit(s[i])
    decreases |s|
  {
    if |s| == 0 then 0
    else
      assert IsDigit(s[|s| - 1]);
      DigitsValue(s[..|s| - 1]) * 10 + (s[|s| - 1] as int - '0' as int)
  }

  /** `str(n)` for a natural number `n`: its decimal digits, most significant
      first, with no leading zero. */
  function NatToString(n: nat): (r: string)
    ensures |r| >= 1
    ensures forall i | 0 <= i < |r| :: IsDigit(r[i])
    ensures |r| > 1 ==> r[0] != '0'
    decreases n
  {
    if n < 10 then [DigitChar(n)] else NatToString(n / 10) + [DigitChar(n % 10)]
  }

  /** Reading the decimal rendering back gives the number. */
  lemma {:induction false} NatToStringValue(n: nat)
    ensures DigitsValue(NatToString(n)) == n
    decreases n
  {
    if n >= 10 {
      NatToStringValue(n / 10);
      var s := NatToString(n);
      assert s[..|s| - 1] == NatToString(n / 10);
    }
  }

  /** Three decimal digits, zero-padded on the left. */
  function Pad3(n: nat): (r: string)
    requires n < 1000
    ensures |r| == 3
    ensures forall i | 0 <= i < 3 :: IsDigit(r[i])
  {
    [DigitChar(n / 100), DigitChar(n / 10 % 10), DigitChar(n % 10)]
  }

  /** `f"{n:,}"`: the decimal digits of `n` in groups of three separated by
      commas. */
  function Grouped(n: nat): (r: string)
    ensures |r| >= 1
    ensures forall i | 0 <= i < |r| :: IsDigit(r[i]) || r[i] == ','
    decreases n
  {
    if n < 1000 then NatToString(n) else Grouped(n / 1000) + "," + Pad3(n % 1000)
  }

  /** The digits of `s`, with every comma removed. */
  function DropCommas(s: string): string
  {
    if |s| == 0 then "" else (if s[0] == ',' then "" else [s[0]]) + DropCommas(s[1..])
  }

  lemma {:induction false} DropCommasConcat(a: string, b: string)
    ensures DropCommas(a + b) == DropCommas(a) + DropCommas(b)
    decreases |a|
  {
    if |a| == 0 {
      assert a + b == b;
    } else {
      assert (a + b)[0] == a[0];
      assert (a + b)[1..] == a[1..] + b;
      DropCommasConcat(a[1..], b);
    }
  }

  lemma {:induction false} DropCommasDigits(s: string)
    requires forall i | 0 <= i < |s| :: IsDigit(s[i])
    ensures DropCommas(s) == s
    decreases |s|
  {
    if |s| > 0 {
      DropCommasDigits(s[1..]);
      assert s == [s[0]] + s[1..];
    }
  }

  lemma {:induction false} DigitsValueConcat(a: string, b: string)
    requires forall i | 0 <= i < |a| :: IsDigit(a[i])
    requires forall i | 0 <= i < |b| :: IsDigit(b[i])
    ensures DigitsValue(a + b) == DigitsValue(a) * Pow10(|b|) + DigitsValue(b)
    decreases |b|
  {
    if |b| == 0 {
      assert a + b == a;
    } else {
      var ab, init := a + b, b[..|b| - 1];
      var d := b[|b| - 1] as int - '0' as int;
      assert ab[..|ab| - 1] == a + init;
      assert ab[|ab| - 1] == b[|b| - 1];
      DigitsValueConcat(a, init);
      assert DigitsValue(ab) == DigitsValue(a + init) * 10 + d;
      assert DigitsValue(b) == DigitsValue(init) * 10 + d;
      ShiftDigit(DigitsValue(a), Pow10(|b| - 1), DigitsValue(init), d);
    }
  }

  /** Appending one digit to `x * p + y`. */
  lemma ShiftDigit(x: int, p: int, y: int, d: int)
    ensures (x * p + y) * 10 + d == x * (p * 10) + (y * 10 + d)
  {
  }

  function Pow10(k: nat): nat {
    if k == 0 then 1 else Pow10(k - 1) * 10
  }

  /** `s` reads as the number `n`: once its thousands separators are
      dropped, it is all digits and denotes `n`. */
  predicate ReadsAs(s: string, n: nat) {
    && (forall i | 0 <= i < |DropCommas(s)| :: IsDigit(DropCommas(s)[i]))
    && DigitsValue(DropCommas(s)) == n
  }

  /** A plain decimal rendering reads back as the number rendered. */
  lemma DecimalReads(n: nat)
    ensures ReadsAs(NatToString(n), n)
  {
    DropCommasDigits(NatToString(n));
    NatToStringValue(n);
  }

  /** The `{:,}` rendering denotes `n` once its separators are dropped. */
  lemma {:induction false} GroupedValue(n: nat)
    ensures forall i | 0 <= i < |DropCommas(Grouped(n))| :: IsDigit(DropCommas(Grouped(n))[i])
    ensures DigitsValue(DropCommas(Grouped(n))) == n
    decreases n
  {
    if n < 1000 {
      DropCommasDigits(NatToString(n));
      NatToStringValue(n);
    } else {
      GroupedValue(n / 1000);
      var hi := DropCommas(Grouped(n / 1000));
      var lo := Pad3(n % 1000);
      GroupedDigits(n);
      DigitsValueConcat(hi, lo);
      Pad3Value(n % 1000);
      GroupedArithmetic(n, DigitsValue(hi), DigitsValue(lo), Pow10(|lo|));
    }
  }

  /** Dropping the separators of a grouped number of four or more digits
      leaves the leading groups' digits followed by the last three. */
  lemma GroupedDigits(n: nat)
    requires n >= 1000
    ensures DropCommas(Grouped(n)) == DropCommas(Grouped(n / 1000)) + Pad3(n % 1000)
  {
    var lo := Pad3(n % 1000);
    DropCommasConcat(Grouped(n / 1000) + ",", lo);
    DropCommasConcat(Grouped(n / 1000), ",");
    DropCommasDigits(lo);
    assert DropCommas(",") == "";
  }

  lemma GroupedArithmetic(n: nat, hi: int, lo: int, p: int)
    requires hi == n / 1000 && lo == n % 1000 && p == Pow10(3)
    ensures hi * p + lo == n
  {
    assert p == 1000;
  }

  lemma Pad3Value(m: nat)
    requires m < 1000
    ensures DigitsValue(Pad3(m)) == m
  {
    var lo := Pad3(m);
    var a, b, c := m / 100, m / 10 % 10, m % 10;
    assert lo[..2] == [DigitChar(a), DigitChar(b)];
    assert lo[..2][..1] == [DigitChar(a)];
    assert lo[..2][..1][..0] == [];
    assert DigitsValue(lo[..2][..1]) == a;
    assert DigitsValue(lo[..2]) == a * 10 + b;
    assert DigitsValue(lo) == (a * 10 + b) * 10 + c;
    Decimal3(m);
  }

  /** A number below 1000 is its hundreds, tens and units. */
  lemma Decimal3(m: nat)
    requires m < 1000
    ensures ((m / 100) * 10 + m / 10 % 10) * 10 + m % 10 == m
  {
  }
}
