/**
 * Text helpers shared by both logger variants: substring occurrence,
 * splitting on a separator (Foundation's `componentsSeparatedByString`),
 * decimal rendering of an `Int` (Swift's `Int.description`), and counting
 * occurrences in a sequence.
 */
module Text {

  /** `x` occurs as a contiguous block of `s` (Nimble's `contain` matcher on strings). */
  ghost predicate IsInfix(x: string, s: string)
  {
    exists i :: InfixAt(x, s, i)
  }

  /** `x` occurs in `s` starting at index `i`. */
  ghost predicate InfixAt(x: string, s: string, i: int)
  {
    0 <= i <= |s| - |x| && s[i..i + |x|] == x
  }

  /** Whatever surrounds `x`, `x` occurs in the result. */
  lemma InfixOf(a: string, x: string, b: string)
    ensures IsInfix(x, a + x + b)
  {
    var s := a + x + b;
    assert s[|a|..|a| + |x|] == x;
    assert InfixAt(x, s, |a|);
  }

  /** An occurrence survives appending text on either side. */
  lemma InfixExtend(x: string, a: string, s: string, b: string)
    requires IsInfix(x, s)
    ensures IsInfix(x, a + s + b)
  {
    var i :| InfixAt(x, s, i);
    var t := a + s + b;
    assert t[|a| + i..|a| + i + |x|] == s[i..i + |x|];
    assert InfixAt(x, t, |a| + i);
  }

  /** An occurrence survives appending text after it. */
  lemma InfixAppend(x: string, s: string, t: string)
    requires IsInfix(x, s)
    ensures IsInfix(x, s + t)
  {
    InfixExtend(x, "", s, t);
    assert "" + s + t == s + t;
  }

  /** A line appended as "\n" + line + "\n" occurs in the result and ends it. */
  lemma LastLine(s: string, line: string)
    ensures var r := s + ("\n" + line + "\n");
      IsInfix(line, r) && |r| >= |line| + 2 && r[|r| - |line| - 2..] == "\n" + line + "\n"
  {
    var r := s + ("\n" + line + "\n");
    assert r == (s + "\n") + line + "\n";
    InfixOf(s + "\n", line, "\n");
  }

  /** The pieces glued together, in order. */
  function Concat(parts: seq<string>): string
  {
    if parts == [] then "" else parts[0] + Concat(parts[1..])
  }

  /** Every piece occurs in the concatenation of the pieces. */
  lemma {:induction false} ConcatInfix(parts: seq<string>, k: nat)
    requires k < |parts|
    ensures IsInfix(parts[k], Concat(parts))
  {
    if k == 0 {
      InfixOf("", parts[0], Concat(parts[1..]));
      assert "" + parts[0] + Concat(parts[1..]) == Concat(parts);
    } else {
      ConcatInfix(parts[1..], k - 1);
      InfixExtend(parts[k], parts[0], Concat(parts[1..]), "");
      assert parts[0] + Concat(parts[1..]) + "" == Concat(parts);
    }
  }

  /** Number of occurrences of `x` in `s`. */
  function Count<T(==)>(s: seq<T>, x: T): (n: nat)
    ensures n <= |s|
    ensures n == 0 <==> x !in s
  {
    if s == [] then 0 else (if s[0] == x then 1 else 0) + Count(s[1..], x)
  }

  lemma {:induction false} CountAppend<T>(a: seq<T>, b: seq<T>, x: T)
    ensures Count(a + b, x) == Count(a, x) + Count(b, x)
  {
    if a == [] {
      assert a + b == b;
    } else {
      assert (a + b)[1..] == a[1..] + b;
      CountAppend(a[1..], b, x);
    }
  }

  // ---------------------------------------------------------------------
  // Splitting on a separator

  /**
   * The components of `s` between occurrences of `sep`, as Foundation's
   * `componentsSeparatedByString` returns them: never empty, an empty
   * component at each end when `s` starts or ends with `sep`, and `[""]`
   * for the empty string.
   */
  function Split(s: string, sep: char): (parts: seq<string>)
    ensures |parts| >= 1
    ensures forall i :: 0 <= i < |parts| ==> sep !in parts[i]
  {
    if s == [] then [""]
    else
      var rest := Split(s[1..], sep);
      if s[0] == sep then [""] + rest
      else [[s[0]] + rest[0]] + rest[1..]
  }

  /** The components glued back together with `sep` between them. */
  function Join(parts: seq<string>, sep: char): string
  {
    if parts == [] then ""
    else if |parts| == 1 then parts[0]
    else parts[0] + [sep] + Join(parts[1..], sep)
  }

  /** Splitting loses nothing: joining the components gives back the input. */
  lemma {:induction false} JoinSplit(s: string, sep: char)
    ensures Join(Split(s, sep), sep) == s
  {
    if s != [] {
      var rest := Split(s[1..], sep);
      JoinSplit(s[1..], sep);
      if s[0] == sep {
        assert ([""] + rest)[1..] == rest;
      } else if |rest| > 1 {
        assert Join(rest, sep) == rest[0] + [sep] + Join(rest[1..], sep);
      }
    }
  }

  /** A string free of `sep` is a single component. */
  lemma {:induction false} SplitSingle(x: string, sep: char)
    requires sep !in x
    ensures Split(x, sep) == [x]
  {
    if x != [] {
      SplitSingle(x[1..], sep);
      assert [x[0]] + x[1..] == x;
    }
  }

  /** A `sep`-free prefix followed by `sep` is split off as the first component. */
  lemma {:induction false} SplitAfterSeparator(x: string, y: string, sep: char)
    requires sep !in x
    ensures Split(x + [sep] + y, sep) == [x] + Split(y, sep)
  {
    var s := x + [sep] + y;
    if x == [] {
      assert s[1..] == y;
    } else {
      assert s[0] == x[0] && s[1..] == x[1..] + [sep] + y;
      SplitAfterSeparator(x[1..], y, sep);
      assert [x[0]] + x[1..] == x;
    }
  }

  /** Splitting is also a left inverse of joining, for separator-free components. */
  lemma {:induction false} SplitJoin(parts: seq<string>, sep: char)
    requires |parts| >= 1
    requires forall i :: 0 <= i < |parts| ==> sep !in parts[i]
    ensures Split(Join(parts, sep), sep) == parts
  {
    if |parts| == 1 {
      SplitSingle(parts[0], sep);
    } else {
      SplitJoin(parts[1..], sep);
      SplitAfterSeparator(parts[0], Join(parts[1..], sep), sep);
    }
  }

  /**
   * The last component of `s` (what `componentsSeparatedByString(sep).last`
   * yields): it holds no `sep`, it ends `s`, it is preceded by `sep` unless
   * it is the whole of `s`, and it is the whole of `s` when `s` has no `sep`.
   */
  function LastComponent(s: string, sep: char): (r: string)
    ensures sep !in r
    ensures |r| <= |s| && s[|s| - |r|..] == r
    ensures |r| < |s| ==> s[|s| - |r| - 1] == sep
    ensures sep !in s ==> r == s
  {
    var parts := Split(s, sep);
    LastComponentShape(s, sep);
    parts[|parts| - 1]
  }

  /** Joining peels off the last component together with the separator before it. */
  lemma {:induction false} JoinLast(parts: seq<string>, sep: char)
    requires |parts| >= 2
    ensures Join(parts, sep) == Join(parts[..|parts| - 1], sep) + [sep] + parts[|parts| - 1]
  {
    if |parts| > 2 {
      JoinLast(parts[1..], sep);
      assert parts[1..][..|parts| - 2] == parts[..|parts| - 1][1..];
    }
  }

  lemma LastComponentShape(s: string, sep: char)
    ensures var parts := Split(s, sep);
      var r := parts[|parts| - 1];
      && |r| <= |s| && s[|s| - |r|..] == r
      && (|r| < |s| ==> s[|s| - |r| - 1] == sep)
  {
    var parts := Split(s, sep);
    var r := parts[|parts| - 1];
    JoinSplit(s, sep);
    if |parts| >= 2 {
      JoinLast(parts, sep);
      var front := Join(parts[..|parts| - 1], sep);
      assert s == (front + [sep]) + r;
      assert s[|s| - |r|..] == r;
      assert s[|s| - |r| - 1] == sep;
    }
  }

  // ---------------------------------------------------------------------
  // Decimal rendering of integers

  predicate IsDigit(c: char)
  {
    '0' <= c <= '9'
  }

  function DigitChar(d: nat): (c: char)
    requires d < 10
    ensures IsDigit(c)
  {
    ('0' as int + d) as char
  }

  function DigitValue(c: char): (d: nat)
    requires IsDigit(c)
    ensures d < 10 && DigitChar(d) == c
  {
    c as int - '0' as int
  }

  /** Base-10 digits of `n`, most significant first, without leading zeros. */
  function NatToDecimal(n: nat): (s: string)
    ensures |s| >= 1
    ensures forall i :: 0 <= i < |s| ==> IsDigit(s[i])
    ensures |s| > 1 ==> s[0] != '0'
  {
    if n < 10 then [DigitChar(n)] else NatToDecimal(n / 10) + [DigitChar(n % 10)]
  }

  /** Swift's `Int.description`: the digits, with a leading '-' when negative. */
  function IntToDecimal(i: int): (s: string)
    ensures |s| >= 1
    ensures s[0] == '-' <==> i < 0
  {
    if i < 0 then "-" + NatToDecimal(-i) else NatToDecimal(i)
  }

  /** The value of a non-empty string of digits. */
  function ParseNat(s: string): nat
    requires |s| >= 1 && forall i :: 0 <= i < |s| ==> IsDigit(s[i])
  {
    if |s| == 1 then DigitValue(s[0])
    else 10 * ParseNat(s[..|s| - 1]) + DigitValue(s[|s| - 1])
  }

  /** The value of an optionally signed string of digits. */
  function ParseInt(s: string): int
    requires |s| >= 1
    requires s[0] == '-' ==> |s| >= 2
    requires forall i :: (if s[0] == '-' then 1 else 0) <= i < |s| ==> IsDigit(s[i])
  {
    if s[0] == '-' then 0 - ParseNat(s[1..]) else ParseNat(s)
  }

  lemma {:induction false} ParseNatDecimal(n: nat)
    ensures ParseNat(NatToDecimal(n)) == n
  {
    if n >= 10 {
      var s := NatToDecimal(n);
      assert s[..|s| - 1] == NatToDecimal(n / 10);
      ParseNatDecimal(n / 10);
    }
  }

  /** Rendering an integer loses nothing: parsing it back gives the integer. */
  lemma ParseIntDecimal(i: int)
    ensures var s := IntToDecimal(i);
      |s| >= 1 && (s[0] == '-' ==> |s| >= 2) &&
      (forall k :: (if s[0] == '-' then 1 else 0) <= k < |s| ==> IsDigit(s[k])) &&
      ParseInt(s) == i
  {
    var s := IntToDecimal(i);
    if i < 0 {
      var digits := NatToDecimal(-i);
      assert s == "-" + digits;
      assert s[1..] == digits;
      assert forall k :: 1 <= k < |s| ==> s[k] == digits[k - 1];
      ParseNatDecimal(-i);
    } else {
      ParseNatDecimal(i);
    }
  }
}
