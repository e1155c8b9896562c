/**
 * The few pieces of Python string behaviour the admission layer relies on:
 * `str.lower()`, the `in` substring test, `str(int)` for chat-window keys,
 * and `str.split(sep)` with its inverse `sep.join(parts)`.
 */
module Strings {

  /** `str.lower()` on one character; only ASCII letters are folded. */
  function LowerChar(c: char): char
  {
    if 'A' <= c <= 'Z' then (c as int + 32) as char else c
  }

  /** `s.lower()`, character by character. */
  function Lower(s: string): (r: string)
    ensures |r| == |s|
    ensures forall i :: 0 <= i < |s| ==> r[i] == LowerChar(s[i])
  {
    if s == [] then [] else [LowerChar(s[0])] + Lower(s[1..])
  }

  /** Folding twice is folding once, so a lower-cased name classifies like the original. */
  lemma LowerIdempotent(s: string)
    ensures Lower(Lower(s)) == Lower(s)
  {
    forall i | 0 <= i < |s|
      ensures Lower(Lower(s))[i] == Lower(s)[i]
    {
      var c := s[i];
      assert LowerChar(LowerChar(c)) == LowerChar(c);
    }
  }

  /** Python's `sub in s`: some window of `s` spells `sub`. */
  predicate Contains(s: string, sub: string)
    ensures Contains(s, sub) ==> |sub| <= |s|
    ensures sub == [] ==> Contains(s, sub)
    decreases |s|
  {
    |sub| <= |s| && (s[..|sub|] == sub || Contains(s[1..], sub))
  }

  /** `sub` is spelled out in `s` starting at offset `i`. */
  predicate OccursAt(s: string, sub: string, i: nat)
  {
    i + |sub| <= |s| && s[i..i + |sub|] == sub
  }

  /** Where `sub` occurs, each of its characters is found at the matching offset. */
  lemma OccursAtChar(s: string, sub: string, i: nat, k: nat)
    requires k < |sub|
    ensures OccursAt(s, sub, i) ==> i + k < |s| && s[i + k] == sub[k]
  {
    if OccursAt(s, sub, i) {
      assert s[i..i + |sub|][k] == s[i + k];
    }
  }

  /** An occurrence past the first character is an occurrence in the tail, one offset earlier. */
  lemma OccursShift(s: string, sub: string, i: nat)
    requires OccursAt(s, sub, i) && i > 0
    ensures OccursAt(s[1..], sub, i - 1)
  {
    var t := s[1..];
    forall k | 0 <= k < |sub|
      ensures t[i - 1 + k] == sub[k]
    {
      OccursAtChar(s, sub, i, k);
    }
    assert t[i - 1..i - 1 + |sub|] == sub;
  }

  /** `Contains` is exactly "`sub` occurs at some offset of `s`". */
  lemma {:induction false} ContainsIffOccurs(s: string, sub: string)
    ensures Contains(s, sub) <==> exists i: nat :: OccursAt(s, sub, i)
    decreases |s|
  {
    if |sub| <= |s| {
      if s[..|sub|] == sub {
        assert OccursAt(s, sub, 0);
      } else if |s| > 0 {
        ContainsIffOccurs(s[1..], sub);
        if Contains(s, sub) {
          var j: nat :| OccursAt(s[1..], sub, j);
          assert s[j + 1..j + 1 + |sub|] == s[1..][j..j + |sub|];
          assert OccursAt(s, sub, j + 1);
        } else {
          forall i: nat | OccursAt(s, sub, i)
            ensures false
          {
            OccursShift(s, sub, i);
          }
        }
      }
    } else {
      forall i: nat | OccursAt(s, sub, i)
        ensures false
      {
      }
    }
  }

  function DigitChar(d: nat): char
    requires d < 10
  {
    "0123456789"[d]
  }

  function DigitValue(c: char): nat
  {
    if '0' <= c <= '9' then c as int - '0' as int else 0
  }

  /** The decimal digits of a natural number, most significant first, no leading zeros. */
  function Digits(n: nat): (r: string)
    ensures |r| >= 1
    ensures forall i :: 0 <= i < |r| ==> '0' <= r[i] <= '9'
    decreases n
  {
    if n < 10 then [DigitChar(n)] else Digits(n / 10) + [DigitChar(n % 10)]
  }

  /** The number a string of decimal digits denotes. */
  function DigitsValue(s: string): nat
    decreases |s|
  {
    if s == [] then 0 else 10 * DigitsValue(s[..|s| - 1]) + DigitValue(s[|s| - 1])
  }

  lemma {:induction false} DigitsRoundTrip(n: nat)
    ensures DigitsValue(Digits(n)) == n
    decreases n
  {
    if n >= 10 {
      DigitsRoundTrip(n / 10);
      var s := Digits(n);
      LastDigit(n);
      DigitCharValue(n % 10);
      assert DigitsValue(s) == 10 * (n / 10) + n % 10;
    } else {
      DigitCharValue(n);
    }
  }

  /** The last character of the digits of `n` is its lowest digit; the rest are the digits of `n / 10`. */
  lemma LastDigit(n: nat)
    requires n >= 10
    ensures var s := Digits(n); s[..|s| - 1] == Digits(n / 10) && s[|s| - 1] == DigitChar(n % 10)
  {
  }

  /** Reading a digit character gives back the digit. */
  lemma DigitCharValue(d: nat)
    requires d < 10
    ensures DigitValue(DigitChar(d)) == d
  {
  }

  /** Python's `str(n)` for an integer. */
  function DecimalString(n: int): (r: string)
    ensures |r| >= 1
    ensures r[0] == '-' <==> n < 0
  {
    if n < 0 then "-" + Digits(-n) else Digits(n)
  }

  /** Reading `str(n)` back gives `n`. */
  function ParseDecimal(s: string): int
  {
    if |s| > 0 && s[0] == '-' then -(DigitsValue(s[1..]) as int) else DigitsValue(s)
  }

  lemma DecimalRoundTrip(n: int)
    ensures ParseDecimal(DecimalString(n)) == n
  {
    if n < 0 {
      NegativeRoundTrip(n);
    } else {
      NonNegativeRoundTrip(n);
    }
  }

  /** The digits of a natural number read back as that number: they do not start with a minus sign. */
  lemma NonNegativeRoundTrip(n: nat)
    ensures ParseDecimal(DecimalString(n)) == n
  {
    var r := Digits(n);
    assert DecimalString(n) == r;
    assert '0' <= r[0] <= '9';
    DigitsRoundTrip(n);
  }

  /** A negative number prints as a minus sign followed by the digits of its magnitude, and reads back. */
  lemma NegativeRoundTrip(n: int)
    requires n < 0
    ensures ParseDecimal(DecimalString(n)) == n
  {
    var m: nat := -n;
    var d := Digits(m);
    DigitsRoundTrip(m);
    ParseAfterMinus(d);
    assert DecimalString(n) == ['-'] + d;
  }

  /** A string that starts with a minus sign reads as the negated value of the rest. */
  lemma ParseAfterMinus(d: string)
    ensures ParseDecimal(['-'] + d) == -(DigitsValue(d) as int)
  {
    assert (['-'] + d)[1..] == d;
  }

  /** Distinct integers never print the same, so distinct integer chat ids key distinct windows. */
  lemma DecimalStringInjective(m: int, n: int)
    requires DecimalString(m) == DecimalString(n)
    ensures m == n
  {
    DecimalRoundTrip(m);
    DecimalRoundTrip(n);
  }

  /** Python's `s.split(sep)` for a one-character separator. */
  function Split(s: string, sep: char): (parts: seq<string>)
    ensures |parts| >= 1
    ensures forall i :: 0 <= i < |parts| ==> sep !in parts[i]
    decreases |s|
  {
    if s == [] then [""]
    else
      var rest := Split(s[1..], sep);
      if s[0] == sep then [""] + rest
      else [[s[0]] + rest[0]] + rest[1..]
  }

  /** Python's `sep.join(parts)`. */
  function Join(parts: seq<string>, sep: char): string
    decreases |parts|
  {
    if |parts| == 0 then ""
    else if |parts| == 1 then parts[0]
    else parts[0] + [sep] + Join(parts[1..], sep)
  }

  /** Splitting loses nothing: joining the parts back rebuilds the string. */
  lemma {:induction false} JoinSplit(s: string, sep: char)
    ensures Join(Split(s, sep), sep) == s
    decreases |s|
  {
    if s != [] {
      var rest := Split(s[1..], sep);
      JoinSplit(s[1..], sep);
      if s[0] == sep {
        assert Split(s, sep)[1..] == rest;
      } else {
        var parts := Split(s, sep);
        if |rest| == 1 {
          assert parts == [[s[0]] + rest[0]];
        } else {
          assert parts[1..] == rest[1..];
          assert Join(rest, sep) == rest[0] + [sep] + Join(rest[1..], sep);
        }
      }
    }
  }

  /**
   * The first part of a split is the text before the first separator; when a
   * separator follows it, the remaining parts are the split of what comes after.
   */
  lemma {:induction false} SplitFirst(s: string, sep: char)
    ensures var p := Split(s, sep);
      && |p[0]| <= |s| && s[..|p[0]|] == p[0]
      && (|p[0]| < |s| ==> s[|p[0]|] == sep && Split(s[|p[0]| + 1..], sep) == p[1..])
      && (|p[0]| == |s| ==> |p| == 1)
    decreases |s|
  {
    if s != [] {
      var rest := Split(s[1..], sep);
      SplitFirst(s[1..], sep);
      if s[0] != sep {
        var p := Split(s, sep);
        assert p[0] == [s[0]] + rest[0];
        if |rest[0]| < |s[1..]| {
          assert s[1..][|rest[0]| + 1..] == s[|p[0]| + 1..];
        }
      }
    }
  }

  /** The last part of a split is a suffix of the string, preceded by the separator unless it is the whole string. */
  predicate LastIsSuffix(s: string, sep: char)
  {
    var p := Split(s, sep); var last := p[|p| - 1];
    && |last| <= |s| && s[|s| - |last|..] == last
    && (|last| < |s| ==> s[|s| - |last| - 1] == sep)
  }

  /** The last part of a split is the text after the last separator. */
  lemma {:induction false} SplitLast(s: string, sep: char)
    ensures LastIsSuffix(s, sep)
    decreases |s|
  {
    if s != [] {
      var t := s[1..];
      SplitLast(t, sep);
      if s[0] == sep || |Split(t, sep)| > 1 {
        if s[0] != sep {
          ShorterLast(t, sep);
        }
        LastFromTail(s, sep);
      } else {
        LastWhole(s, sep);
      }
    }
  }

  /**
   * When the first character is the separator, or the tail splits into
   * several parts whose last part is shorter than the tail, the last part of
   * `s` is the last part of its tail.
   */
  lemma LastFromTail(s: string, sep: char)
    requires s != [] && LastIsSuffix(s[1..], sep)
    requires var rest := Split(s[1..], sep);
      s[0] == sep || (|rest| > 1 && |rest[|rest| - 1]| < |s| - 1)
    ensures LastIsSuffix(s, sep)
  {
    var t := s[1..];
    var rest := Split(t, sep);
    var p := Split(s, sep);
    var last := rest[|rest| - 1];
    if s[0] == sep {
      assert p == [""] + rest;
    } else {
      assert p == [[s[0]] + rest[0]] + rest[1..];
    }
    assert p[|p| - 1] == last;
    assert s[|s| - |last|..] == t[|t| - |last|..];
  }

  /** A split into several parts ends with a part shorter than the string. */
  lemma ShorterLast(s: string, sep: char)
    requires LastIsSuffix(s, sep) && |Split(s, sep)| > 1
    ensures var p := Split(s, sep); |p[|p| - 1]| < |s|
  {
    if sep !in s {
      SplitNoSep(s, sep);
    }
    var p := Split(s, sep);
    var last := p[|p| - 1];
    assert s[|s| - |last|..] == last;
  }

  /** When the tail holds no separator and `s` does not start with one, the split is `s` itself. */
  lemma LastWhole(s: string, sep: char)
    requires s != [] && s[0] != sep && |Split(s[1..], sep)| == 1
    ensures LastIsSuffix(s, sep)
  {
    var t := s[1..];
    var rest := Split(t, sep);
    JoinSplit(t, sep);
    var p := Split(s, sep);
    assert p == [[s[0]] + rest[0]];
    assert s == [s[0]] + t;
    assert p[|p| - 1] == s;
  }

  /** A string without the separator splits into itself. */
  lemma {:induction false} SplitNoSep(s: string, sep: char)
    requires sep !in s
    ensures Split(s, sep) == [s]
    decreases |s|
  {
    if s != [] {
      assert s[0] in s;
      assert forall c :: c in s[1..] ==> c in s;
      SplitNoSep(s[1..], sep);
      assert s == [s[0]] + s[1..];
    }
  }

  /** Splitting at a separator splits both sides independently. */
  lemma {:induction false} SplitAppend(a: string, b: string, sep: char)
    ensures Split(a + [sep] + b, sep) == Split(a, sep) + Split(b, sep)
    decreases |a|
  {
    var s := a + [sep] + b;
    if a == [] {
      assert s[1..] == b;
    } else {
      assert s[1..] == a[1..] + [sep] + b;
      SplitAppend(a[1..], b, sep);
    }
  }
}
