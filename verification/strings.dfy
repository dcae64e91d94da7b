/**
 * The JavaScript string operations the application relies on, stated over
 * `seq<char>`: `includes`, `toLowerCase` (ASCII letters only), `trim`,
 * `join`, `split` on one character, the `/\D/g` digit filter, `Number(text)`
 * for decimal text and `String(n)` for integers.
 */
module Strings {
  import Arrays

  // ---------------------------------------------------------------- includes

  /** `s.includes(t)`; the empty string occurs in every string. */
  predicate Contains(s: string, t: string)
    decreases |s|
  {
    t <= s || (s != [] && Contains(s[1..], t))
  }

  lemma ContainsEmpty(s: string)
    ensures Contains(s, "")
  {
  }

  /** A string contains every contiguous piece of itself. */
  lemma {:induction false} ContainsAt(s: string, t: string, i: nat)
    requires i + |t| <= |s| && s[i..i + |t|] == t
    ensures Contains(s, t)
    decreases i
  {
    if i == 0 {
      assert t <= s;
    } else {
      assert s[1..][i - 1..i - 1 + |t|] == t;
      ContainsAt(s[1..], t, i - 1);
    }
  }

  /** A string that lacks the first character of `t` does not contain `t`. */
  lemma {:induction false} ContainsFirstChar(s: string, t: string)
    requires t != [] && t[0] !in s
    ensures !Contains(s, t)
    decreases |s|
  {
    if s != [] {
      assert forall c :: c in s[1..] ==> c in s;
      ContainsFirstChar(s[1..], t);
    }
  }

  // ------------------------------------------------------------- toLowerCase

  function LowerChar(c: char): char
  {
    if 'A' <= c <= 'Z' then (c as int + 32) as char else c
  }

  /** `s.toLowerCase()` restricted to the ASCII letters. */
  function Lower(s: string): string
  {
    seq(|s|, i requires 0 <= i < |s| => LowerChar(s[i]))
  }

  // -------------------------------------------------------------------- trim

  /** The characters JavaScript's `trim` removes (WhiteSpace and LineTerminator). */
  predicate IsWhitespace(c: char)
  {
    c == ' ' || c == '\t' || c == '\n' || c == '\r' || c == '\U{B}' || c == '\U{C}'
    || c == '\U{A0}' || c == '\U{1680}' || ('\U{2000}' <= c <= '\U{200A}')
    || c == '\U{2028}' || c == '\U{2029}' || c == '\U{202F}' || c == '\U{205F}'
    || c == '\U{3000}' || c == '\U{FEFF}'
  }

  predicate IsBlank(s: string)
  {
    forall i :: 0 <= i < |s| ==> IsWhitespace(s[i])
  }

  function TrimStart(s: string): (r: string)
    ensures |r| <= |s| && r == s[|s| - |r|..]
    ensures r == [] || !IsWhitespace(r[0])
    ensures IsBlank(s[..|s| - |r|])
    decreases |s|
  {
    if s != [] && IsWhitespace(s[0]) then
      var r := TrimStart(s[1..]);
      assert s[..|s| - |r|] == [s[0]] + s[1..][..|s| - 1 - |r|];
      r
    else s
  }

  function TrimEnd(s: string): (r: string)
    ensures |r| <= |s| && r == s[..|r|]
    ensures r == [] || !IsWhitespace(r[|r| - 1])
    ensures IsBlank(s[|r|..])
    decreases |s|
  {
    if s != [] && IsWhitespace(s[|s| - 1]) then
      var r := TrimEnd(s[..|s| - 1]);
      assert s[|r|..] == s[..|s| - 1][|r|..] + [s[|s| - 1]];
      r
    else s
  }

  /**
   * `s.trim()`: the result has no whitespace at either end, is a piece of `s`,
   * and is empty exactly when `s` is blank. `TrimCuts` pins it down further.
   */
  function Trim(s: string): (r: string)
    ensures r == [] || (!IsWhitespace(r[0]) && !IsWhitespace(r[|r| - 1]))
    ensures Contains(s, r)
    ensures r == [] <==> IsBlank(s)
  {
    var e := TrimEnd(s);
    var r := TrimStart(e);
    TrimPiece(s, e, r);
    TrimBlank(s, e, r);
    r
  }

  lemma TrimPiece(s: string, e: string, r: string)
    requires e == TrimEnd(s) && r == TrimStart(e)
    ensures Contains(s, r)
  {
    var i := |e| - |r|;
    assert r == s[i..|e|] by {
      assert e == s[..|e|];
      assert r == e[i..];
    }
    ContainsAt(s, r, i);
  }

  /** `trim` cuts a blank prefix and a blank suffix off `s` and keeps what lies between. */
  lemma TrimCuts(s: string) returns (i: nat)
    ensures i + |Trim(s)| <= |s| && Trim(s) == s[i..i + |Trim(s)|]
    ensures IsBlank(s[..i]) && IsBlank(s[i + |Trim(s)|..])
  {
    var e := TrimEnd(s);
    var r := TrimStart(e);
    i := |e| - |r|;
    assert e == s[..|e|];
    assert r == e[i..];
    assert s[..i] == e[..i];
    assert s[i + |r|..] == s[|e|..];
  }

  lemma TrimBlank(s: string, e: string, r: string)
    requires e == TrimEnd(s) && r == TrimStart(e)
    ensures r == [] <==> IsBlank(s)
  {
    if r == [] {
      assert IsBlank(e) by {
        assert e[..|e| - |r|] == e;
      }
      forall i | 0 <= i < |s| ensures IsWhitespace(s[i]) {
        if i >= |e| {
          assert s[i] == s[|e|..][i - |e|];
        }
      }
    }
  }

  /** Text with no whitespace at its ends is left as it is by `trim`. */
  lemma TrimTrimmed(s: string)
    requires s == [] || (!IsWhitespace(s[0]) && !IsWhitespace(s[|s| - 1]))
    ensures Trim(s) == s
  {
  }

  /** A leading space makes no difference once the text is trimmed. */
  lemma TrimLeadingSpace(t: string)
    ensures Trim(" " + t) == Trim(t)
  {
    if !IsBlank(t) {
      TrimEndLeadingSpace(t);
      assert (" " + TrimEnd(t))[1..] == TrimEnd(t);
    } else {
      assert IsBlank(" " + t) by {
        forall i | 0 <= i < |" " + t| ensures IsWhitespace((" " + t)[i]) {
          if i > 0 {
            assert (" " + t)[i] == t[i - 1];
          }
        }
      }
    }
  }

  lemma {:induction false} TrimEndLeadingSpace(t: string)
    requires !IsBlank(t)
    ensures TrimEnd(" " + t) == " " + TrimEnd(t)
    decreases |t|
  {
    var u := " " + t;
    if IsWhitespace(t[|t| - 1]) {
      var t' := t[..|t| - 1];
      assert !IsBlank(t') by {
        var i :| 0 <= i < |t| && !IsWhitespace(t[i]);
        assert t'[i] == t[i];
      }
      assert u[..|u| - 1] == " " + t';
      TrimEndLeadingSpace(t');
    }
  }

  // -------------------------------------------------------------- join/split

  /** `xs.join(sep)`; joining no strings gives the empty string. */
  function Join(xs: seq<string>, sep: string): string
    decreases |xs|
  {
    if xs == [] then ""
    else if |xs| == 1 then xs[0]
    else xs[0] + sep + Join(xs[1..], sep)
  }

  /** `s.split(c)` for a one-character separator; splitting "" gives [""]. */
  function Split(s: string, c: char): (r: seq<string>)
    ensures |r| >= 1
    decreases |s|
  {
    if s == [] then [""]
    else
      var rest := Split(s[1..], c);
      if s[0] == c then [""] + rest
      else [[s[0]] + rest[0]] + rest[1..]
  }

  /** The number of occurrences of `c` in `s`. */
  function Count(s: string, c: char): nat
    decreases |s|
  {
    if s == [] then 0 else (if s[0] == c then 1 else 0) + Count(s[1..], c)
  }

  lemma {:induction false} CountConcat(a: string, b: string, c: char)
    ensures Count(a + b, c) == Count(a, c) + Count(b, c)
    decreases |a|
  {
    if a != [] {
      assert (a + b)[0] == a[0];
      assert (a + b)[1..] == a[1..] + b;
      CountConcat(a[1..], b, c);
      assert Count(a + b, c) == (if a[0] == c then 1 else 0) + Count(a[1..] + b, c);
    } else {
      assert a + b == b;
    }
  }

  lemma {:induction false} CountAbsent(s: string, c: char)
    requires c !in s
    ensures Count(s, c) == 0
    decreases |s|
  {
    if s != [] {
      assert forall x :: x in s[1..] ==> x in s;
      CountAbsent(s[1..], c);
    }
  }

  /** Splitting yields one more piece than there are separators. */
  lemma {:induction false} SplitCount(s: string, c: char)
    ensures |Split(s, c)| == Count(s, c) + 1
    decreases |s|
  {
    if s != [] {
      SplitCount(s[1..], c);
    }
  }

  /** A piece without the separator, followed by the separator, splits off as one element. */
  lemma {:induction false} SplitPiece(a: string, c: char, b: string)
    requires c !in a
    ensures Split(a + [c] + b, c) == [a] + Split(b, c)
    decreases |a|
  {
    if a == [] {
      assert a + [c] + b == [c] + b;
      assert ([c] + b)[1..] == b;
    } else {
      assert (a + [c] + b)[1..] == a[1..] + [c] + b;
      SplitPiece(a[1..], c, b);
      assert [a[0]] + a[1..] == a;
    }
  }

  lemma {:induction false} SplitWhole(a: string, c: char)
    requires c !in a
    ensures Split(a, c) == [a]
    decreases |a|
  {
    if a != [] {
      SplitWhole(a[1..], c);
      assert [a[0]] + a[1..] == a;
    }
  }

  /** `join` then `split` on the same character gives the pieces back when none holds it. */
  lemma {:induction false} SplitJoin(xs: seq<string>, c: char)
    requires |xs| >= 1
    requires forall i :: 0 <= i < |xs| ==> c !in xs[i]
    ensures Split(Join(xs, [c]), c) == xs
    decreases |xs|
  {
    if |xs| == 1 {
      SplitWhole(xs[0], c);
    } else {
      SplitJoin(xs[1..], c);
      SplitPiece(xs[0], c, Join(xs[1..], [c]));
      assert [xs[0]] + xs[1..] == xs;
    }
  }

  /** The separators of a join add up with those inside the pieces. */
  lemma {:induction false} CountJoin(xs: seq<string>, c: char)
    requires |xs| >= 1
    ensures Count(Join(xs, [c]), c) == CountAll(xs, c) + |xs| - 1
    decreases |xs|
  {
    if |xs| > 1 {
      CountJoin(xs[1..], c);
      CountConcat(xs[0] + [c], Join(xs[1..], [c]), c);
      CountConcat(xs[0], [c], c);
      assert Count([c], c) == 1 by { assert [c][1..] == []; }
    }
  }

  function CountAll(xs: seq<string>, c: char): nat
    decreases |xs|
  {
    if xs == [] then 0 else Count(xs[0], c) + CountAll(xs[1..], c)
  }

  lemma {:induction false} CountAllAbsent(xs: seq<string>, c: char)
    requires forall i :: 0 <= i < |xs| ==> c !in xs[i]
    ensures CountAll(xs, c) == 0
    decreases |xs|
  {
    if xs != [] {
      CountAbsent(xs[0], c);
      CountAllAbsent(xs[1..], c);
    }
  }

  // ---------------------------------------------------------- digits, numbers

  predicate IsDigit(c: char)
  {
    '0' <= c <= '9'
  }

  predicate AllDigits(s: string)
  {
    forall i :: 0 <= i < |s| ==> IsDigit(s[i])
  }

  /**
   * `s.replace(/\D/g, '')`: exactly the decimal digits of `s`, in order. Every
   * digit occurs in the result as often as in `s`, and no other character does.
   */
  function Digits(s: string): (r: string)
    ensures AllDigits(r)
    ensures Arrays.IsSubsequence(r, s)
    ensures forall c :: multiset(r)[c] == if IsDigit(c) then multiset(s)[c] else 0
    ensures AllDigits(s) ==> r == s
  {
    DigitCounts(s);
    Arrays.Filter(s, IsDigit)
  }

  lemma DigitCounts(s: string)
    ensures forall c :: multiset(Arrays.Filter(s, IsDigit))[c] == if IsDigit(c) then multiset(s)[c] else 0
  {
    forall c ensures multiset(Arrays.Filter(s, IsDigit))[c] == if IsDigit(c) then multiset(s)[c] else 0 {
      Arrays.FilterMultiplicity(s, IsDigit, c);
    }
  }

  function DigitChar(d: nat): char
    requires d < 10
  {
    (48 + d) as char
  }

  /** `String(n)` for a natural number. */
  function NatToString(n: nat): (r: string)
    ensures r != [] && AllDigits(r)
    decreases n
  {
    if n < 10 then [DigitChar(n)] else NatToString(n / 10) + [DigitChar(n % 10)]
  }

  /** `String(i)` for an integer. */
  function IntToString(i: int): (r: string)
    ensures r != [] && ',' !in r && '\n' !in r
  {
    var r := if i < 0 then "-" + NatToString(-i) else NatToString(i);
    assert forall k :: 0 <= k < |r| ==> r[k] == '-' || IsDigit(r[k]);
    r
  }

  /** The value of a non-empty run of decimal digits. */
  function DigitsValue(s: string): nat
    requires AllDigits(s)
    decreases |s|
  {
    if s == [] then 0 else DigitsValue(s[..|s| - 1]) * 10 + (s[|s| - 1] as int - 48)
  }

  /**
   * `Number(s)` for the text a numeric input field holds, restricted to an
   * optional minus sign and decimal digits. Number("") is 0. Any other text is
   * also taken as 0 here: both the exponent notation and fractions a number
   * field accepts (which JavaScript reads as numbers, `Number("1e3")` being
   * 1000) and text JavaScript reads as NaN.
   */
  function NumberOf(s: string): int
  {
    if s != [] && AllDigits(s) then DigitsValue(s) as int
    else if |s| > 1 && s[0] == '-' && AllDigits(s[1..]) then -(DigitsValue(s[1..]) as int)
    else 0
  }

  lemma {:induction false} DigitsValueOfNat(n: nat)
    ensures DigitsValue(NatToString(n)) == n
    decreases n
  {
    if n >= 10 {
      DigitsValueOfNat(n / 10);
      var s := NatToString(n);
      assert s[..|s| - 1] == NatToString(n / 10);
    }
  }

  /** `Number(String(i)) == i`: printing an integer and reading it back is lossless. */
  lemma NumberOfIntToString(i: int)
    ensures NumberOf(IntToString(i)) == i
  {
    if i < 0 {
      var s := IntToString(i);
      assert s[1..] == NatToString(-i);
      assert !IsDigit(s[0]);
      DigitsValueOfNat(-i);
    } else {
      DigitsValueOfNat(i);
    }
  }
}
