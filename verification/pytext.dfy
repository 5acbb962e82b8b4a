/**
 * The pieces of Python's text handling that the thermostat client relies on:
 * `str.isdigit` and `int()` on digit strings, `str()` of a value,
 * `str.split(',')`, and `int()` of an arbitrary value.
 *
 * Only ASCII is modelled: a digit is '0'..'9' and whitespace is the six
 * ASCII whitespace characters.
 */
module PyText {
  import opened Wrappers
  import opened Json

  predicate IsDigit(c: char)
  {
    '0' <= c <= '9'
  }

  predicate AllDigits(s: string)
  {
    forall i :: 0 <= i < |s| ==> IsDigit(s[i])
  }

  /** `s.isdigit()` for ASCII text: non-empty and nothing but digits. */
  predicate IsDigits(s: string)
  {
    |s| > 0 && AllDigits(s)
  }

  function DigitValue(c: char): (d: nat)
    requires IsDigit(c)
    ensures d < 10
  {
    (c as int) - ('0' as int)
  }

  function DigitChar(d: nat): (c: char)
    requires d < 10
    ensures IsDigit(c) && DigitValue(c) == d
  {
    (('0' as int) + d) as char
  }

  /** `int(s)` for a string of decimal digits, most significant first. */
  function DigitsValue(s: string): (n: nat)
    requires AllDigits(s)
    decreases |s|
  {
    if s == [] then 0 else 10 * DigitsValue(s[..|s| - 1]) + DigitValue(s[|s| - 1])
  }

  /** Digit text without superfluous leading zeros, as `str()` writes numbers. */
  predicate Canonical(s: string)
  {
    IsDigits(s) && (|s| == 1 || s[0] != '0')
  }

  /** `str(n)` for a natural number. */
  function NatToDecimal(n: nat): (s: string)
    ensures Canonical(s)
  {
    if n < 10 then [DigitChar(n)] else NatToDecimal(n / 10) + [DigitChar(n % 10)]
  }

  /** `str(i)` for any integer. */
  function IntToDecimal(i: int): (s: string)
    ensures |s| > 0
    ensures i >= 0 <==> IsDigits(s)
    ensures i < 0 <==> s[0] == '-'
  {
    if i < 0 then
      var s := "-" + NatToDecimal(-i);
      assert !IsDigit(s[0]);
      s
    else NatToDecimal(i)
  }

  /** Reading back what `str(n)` wrote gives `n`. */
  lemma {:induction false} DecimalRoundTrip(n: nat)
    ensures DigitsValue(NatToDecimal(n)) == n
  {
    if n >= 10 {
      var s := NatToDecimal(n);
      assert s[..|s| - 1] == NatToDecimal(n / 10);
      DecimalRoundTrip(n / 10);
    }
  }

  lemma {:induction false} LeadingNonZeroPositive(s: string)
    requires IsDigits(s) && s[0] != '0'
    ensures DigitsValue(s) >= 1
    decreases |s|
  {
    if |s| > 1 {
      LeadingNonZeroPositive(s[..|s| - 1]);
    }
  }

  /** Writing back the value of canonical digit text reproduces that text. */
  lemma {:induction false} CanonicalRoundTrip(s: string)
    requires Canonical(s)
    ensures NatToDecimal(DigitsValue(s)) == s
    decreases |s|
  {
    var last := s[|s| - 1];
    assert DigitChar(DigitValue(last)) == last;
    if |s| > 1 {
      var init := s[..|s| - 1];
      assert init[0] == s[0];
      LeadingNonZeroPositive(init);
      CanonicalRoundTrip(init);
      assert s == init + [last];
    }
  }

  /** Occurrences of `c` in `s`. */
  function Count(s: string, c: char): (n: nat)
    ensures n <= |s|
    ensures n == 0 <==> c !in s
  {
    if s == [] then 0 else (if s[0] == c then 1 else 0) + Count(s[1..], c)
  }

  /** `s.split(sep)` for a one-character separator. */
  function Split(s: string, sep: char): (r: seq<string>)
    ensures |r| >= 1
    ensures forall i :: 0 <= i < |r| ==> sep !in r[i]
  {
    if s == [] then [""]
    else
      var rest := Split(s[1..], sep);
      if s[0] == sep then [""] + rest
      else [[s[0]] + rest[0]] + rest[1..]
  }

  /** `sep.join(parts)`. */
  function Join(parts: seq<string>, sep: string): (r: string)
  {
    if parts == [] then ""
    else if |parts| == 1 then parts[0]
    else parts[0] + sep + Join(parts[1..], sep)
  }

  /** Splitting on a character yields one more piece than there are separators. */
  lemma {:induction false} SplitCount(s: string, sep: char)
    ensures |Split(s, sep)| == Count(s, sep) + 1
  {
    if s != [] {
      SplitCount(s[1..], sep);
    }
  }

  /** Joining the pieces back with the separator restores the text. */
  lemma {:induction false} JoinSplit(s: string, sep: char)
    ensures Join(Split(s, sep), [sep]) == s
  {
    if s != [] {
      var rest := Split(s[1..], sep);
      JoinSplit(s[1..], sep);
      if s[0] != sep && |rest| > 1 {
        assert Join(rest, [sep]) == rest[0] + [sep] + Join(rest[1..], [sep]);
      }
    }
  }

  lemma {:induction false} SplitAfterPiece(t: string, sep: char, u: string)
    requires sep !in t
    ensures Split(t + [sep] + u, sep) == [t] + Split(u, sep)
  {
    if t == [] {
      assert (t + [sep] + u)[1..] == u;
    } else {
      assert (t + [sep] + u)[0] == t[0] != sep;
      assert (t + [sep] + u)[1..] == t[1..] + [sep] + u;
      SplitAfterPiece(t[1..], sep, u);
      assert [t[0]] + t[1..] == t;
    }
  }

  lemma {:induction false} SplitPiece(t: string, sep: char)
    requires sep !in t
    ensures Split(t, sep) == [t]
  {
    if t != [] {
      assert t[0] != sep;
      SplitPiece(t[1..], sep);
      assert [t[0]] + t[1..] == t;
    }
  }

  /** Splitting pieces that were joined with the separator gives the pieces back. */
  lemma {:induction false} SplitJoin(parts: seq<string>, sep: char)
    requires |parts| >= 1
    requires forall i :: 0 <= i < |parts| ==> sep !in parts[i]
    ensures Split(Join(parts, [sep]), sep) == parts
  {
    if |parts| == 1 {
      SplitPiece(parts[0], sep);
    } else {
      SplitJoin(parts[1..], sep);
      SplitAfterPiece(parts[0], sep, Join(parts[1..], [sep]));
    }
  }

  /**
   * `str(v)` (when `quoted` is false) and `repr(v)` (when it is true) of a value:
   * None, True, False, decimal integers, text as is or in single quotes, and
   * lists and dicts written with ", " between entries.
   */
  function Show(v: Value, quoted: bool): (r: string)
    ensures v.JArr? ==> |r| >= 2 && r[0] == '['
    ensures v.JObj? ==> |r| >= 2 && r[0] == '{'
    ensures v.JStr? && !quoted ==> r == v.s
    ensures v.JInt? ==> r == IntToDecimal(v.i)
  {
    match v
    case JNull => "None"
    case JBool(b) => if b then "True" else "False"
    case JInt(i) => IntToDecimal(i)
    case JStr(s) => if quoted then "'" + s + "'" else s
    case JArr(items) =>
      "[" + Join(seq(|items|, k requires 0 <= k < |items| => Show(items[k], true)), ", ") + "]"
    case JObj(fs) =>
      "{" + Join(seq(|fs|, k requires 0 <= k < |fs| =>
                       match fs[k] case (key, val) => "'" + key + "': " + Show(val, true)), ", ") + "}"
  }

  /** `str(v)`. */
  function Str(v: Value): (r: string)
  {
    Show(v, false)
  }

  predicate IsSpace(c: char)
  {
    c == ' ' || c == '\t' || c == '\n' || c == '\r' || c == '\U{B}' || c == '\U{C}'
  }

  /** `s.lstrip()`: the suffix left after dropping leading whitespace. */
  function StripStart(s: string): (r: string)
    ensures |r| <= |s| && r == s[|s| - |r|..]
    ensures forall i :: 0 <= i < |s| - |r| ==> IsSpace(s[i])
    ensures r == [] || !IsSpace(r[0])
  {
    if s != [] && IsSpace(s[0]) then StripStart(s[1..]) else s
  }

  /** `s.rstrip()`: the prefix left after dropping trailing whitespace. */
  function StripEnd(s: string): (r: string)
    ensures |r| <= |s| && r == s[..|r|]
    ensures forall i :: |r| <= i < |s| ==> IsSpace(s[i])
    ensures r == [] || !IsSpace(r[|r| - 1])
  {
    if s != [] && IsSpace(s[|s| - 1]) then StripEnd(s[..|s| - 1]) else s
  }

  /**
   * An optionally signed run of digits, the literal `int()` accepts once
   * stripped: a '+' keeps the value of the digits, a '-' negates it.
   */
  function SignedValue(t: string): (r: Option<int>)
    ensures r.Some? <==> IsDigits(t) || (|t| > 1 && (t[0] == '+' || t[0] == '-') && IsDigits(t[1..]))
    ensures IsDigits(t) ==> r == Some(DigitsValue(t))
    ensures |t| > 1 && t[0] == '+' && IsDigits(t[1..]) ==> r == Some(DigitsValue(t[1..]))
    ensures |t| > 1 && t[0] == '-' && IsDigits(t[1..]) ==> r == Some(0 - DigitsValue(t[1..]))
  {
    if |t| > 0 && (t[0] == '+' || t[0] == '-') then
      if IsDigits(t[1..]) then
        var magnitude: int := DigitsValue(t[1..]);
        Some(if t[0] == '-' then -magnitude else magnitude)
      else None
    else if IsDigits(t) then Some(DigitsValue(t))
    else None
  }

  /** The outcome of `int(v)`: a number, a TypeError or a ValueError. */
  datatype IntConversion = IntValue(n: int) | WrongType | BadLiteral

  /** `int(v)` for an integer, a boolean or a text value; anything else has the wrong type. */
  function IntOf(v: Value): (r: IntConversion)
    ensures v.JInt? ==> r == IntValue(v.i)
    ensures r.WrongType? <==> !(v.JInt? || v.JBool? || v.JStr?)
  {
    match v
    case JInt(i) => IntValue(i)
    case JBool(b) => IntValue(if b then 1 else 0)
    case JStr(s) =>
      (match SignedValue(StripEnd(StripStart(s)))
       case Some(n) => IntValue(n)
       case None => BadLiteral)
    case _ => WrongType
  }

  lemma StripUnpadded(s: string)
    requires |s| > 0 && !IsSpace(s[0]) && !IsSpace(s[|s| - 1])
    ensures StripEnd(StripStart(s)) == s
  {
  }

  lemma SignedDecimal(i: int)
    ensures SignedValue(IntToDecimal(i)) == Some(i)
  {
    var s := IntToDecimal(i);
    if i < 0 {
      assert s[1..] == NatToDecimal(-i);
      DecimalRoundTrip(-i);
    } else {
      DecimalRoundTrip(i);
    }
  }

  /** Text that passes `isdigit()` always converts: `int(s)` is the value of its digits. */
  lemma IsDigitsConverts(s: string)
    requires IsDigits(s)
    ensures IntOf(JStr(s)) == IntValue(DigitsValue(s))
  {
    assert !IsSpace(s[0]) && !IsSpace(s[|s| - 1]);
    StripUnpadded(s);
  }

  /** `int(str(i)) == i`: text written by `str` converts back to the same integer. */
  lemma IntOfDecimal(i: int)
    ensures IntOf(JStr(IntToDecimal(i))) == IntValue(i)
  {
    var s := IntToDecimal(i);
    assert !IsSpace(s[0]) && !IsSpace(s[|s| - 1]);
    StripUnpadded(s);
    SignedDecimal(i);
  }
}
