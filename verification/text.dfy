/**
 * The pieces of the .NET base library that the request builders rely on:
 * `string.Join`, `Int32.ToString` under the invariant culture,
 * `Boolean.ToString` and `String.ToLowerInvariant`. Two reference inverses,
 * which the builders never call, stand beside them: `Split` on one separator
 * is the partner `Join` is proved against, and `ParseDecimal`, the reading of
 * an invariant-culture integer back into a number, is the partner that
 * `InvariantDecimal` is proved against.
 */
module Text {
  import opened Wrappers

  /** `string.Join(sep, parts)`: the parts in order, `sep` between neighbours. */
  function Join(parts: seq<string>, sep: string): (r: string)
    ensures |parts| > 0 ==> parts[0] <= r
  {
    if |parts| == 0 then ""
    else if |parts| == 1 then parts[0]
    else parts[0] + sep + Join(parts[1..], sep)
  }

  /** The pieces between separators, empty pieces kept, never no piece (as `s.Split(sep)` would give). */
  function Split(s: string, sep: char): (pieces: seq<string>)
    ensures |pieces| >= 1
  {
    if |s| == 0 then [""]
    else
      var rest := Split(s[1..], sep);
      if s[0] == sep then [""] + rest
      else [[s[0]] + rest[0]] + rest[1..]
  }

  lemma {:induction false} SplitWithoutSeparator(a: string, sep: char)
    requires sep !in a
    ensures Split(a, sep) == [a]
  {
    if |a| > 0 {
      SplitWithoutSeparator(a[1..], sep);
      assert [a[0]] + a[1..] == a;
    }
  }

  lemma {:induction false} SplitAfterPiece(a: string, sep: char, b: string)
    requires sep !in a
    ensures Split(a + [sep] + b, sep) == [a] + Split(b, sep)
  {
    var s := a + [sep] + b;
    if |a| == 0 {
      assert s == [sep] + b;
      assert s[1..] == b;
    } else {
      assert s[0] == a[0] && s[1..] == a[1..] + [sep] + b;
      SplitAfterPiece(a[1..], sep, b);
      assert [a[0]] + a[1..] == a;
    }
  }

  /** Splitting a join on its separator gives back the parts, when no part holds the separator. */
  lemma {:induction false} SplitJoin(parts: seq<string>, sep: char)
    requires |parts| >= 1
    requires forall i :: 0 <= i < |parts| ==> sep !in parts[i]
    ensures Split(Join(parts, [sep]), sep) == parts
  {
    if |parts| == 1 {
      SplitWithoutSeparator(parts[0], sep);
    } else {
      SplitJoin(parts[1..], sep);
      SplitAfterPiece(parts[0], sep, Join(parts[1..], [sep]));
      assert [parts[0]] + parts[1..] == parts;
    }
  }

  predicate IsDigit(c: char) { '0' <= c <= '9' }

  predicate AllDigits(s: string) { forall i :: 0 <= i < |s| ==> IsDigit(s[i]) }

  function DigitChar(d: nat): (c: char)
    requires d < 10
    ensures IsDigit(c) && c as int - '0' as int == d
  {
    (d + '0' as int) as char
  }

  /** The decimal digits of `n`, most significant first, without leading zeros. */
  function Digits(n: nat): (s: string)
    ensures |s| >= 1 && AllDigits(s)
  {
    if n < 10 then [DigitChar(n)] else Digits(n / 10) + [DigitChar(n % 10)]
  }

  /** The number a non-empty run of decimal digits denotes. */
  function DigitsValue(s: string): nat
    requires AllDigits(s)
  {
    if |s| == 0 then 0
    else DigitsValue(s[..|s| - 1]) * 10 + (s[|s| - 1] as int - '0' as int)
  }

  lemma {:induction false} DigitsValueOfDigits(n: nat)
    ensures DigitsValue(Digits(n)) == n
  {
    if n >= 10 {
      var s := Digits(n);
      assert s[..|s| - 1] == Digits(n / 10);
      DigitsValueOfDigits(n / 10);
    }
  }

  /** `n.ToString(CultureInfo.InvariantCulture)`: a minus sign for negatives, then the digits. */
  function InvariantDecimal(n: int): (s: string)
    ensures |s| >= 1
    ensures forall i :: 0 <= i < |s| ==> s[i] == '-' || IsDigit(s[i])
  {
    if n < 0 then "-" + Digits(-n) else Digits(n)
  }

  /** Reads an invariant-culture integer: an optional leading minus and at least one digit. */
  function ParseDecimal(s: string): Option<int>
  {
    if |s| > 1 && s[0] == '-' && AllDigits(s[1..]) then Some(0 - DigitsValue(s[1..]) as int)
    else if |s| > 0 && AllDigits(s) then Some(DigitsValue(s))
    else None
  }

  /** The invariant-culture rendering of an integer reads back as the same integer. */
  lemma DecimalRoundTrip(n: int)
    ensures ParseDecimal(InvariantDecimal(n)) == Some(n)
  {
    var s := InvariantDecimal(n);
    if n < 0 {
      assert s[1..] == Digits(-n);
      DigitsValueOfDigits(-n);
    } else {
      assert !IsDigit('-');
      assert s[0] != '-';
      DigitsValueOfDigits(n);
    }
  }

  /** `Boolean.ToString()`. */
  function BoolToString(b: bool): string
  {
    if b then "True" else "False"
  }

  /** `Char.ToLowerInvariant` on the ASCII letters; every other character is kept. */
  function LowerChar(c: char): char
  {
    if 'A' <= c <= 'Z' then (c as int - 'A' as int + 'a' as int) as char else c
  }

  /** `String.ToLowerInvariant` on ASCII text. */
  function ToLowerInvariant(s: string): string
  {
    if |s| == 0 then "" else [LowerChar(s[0])] + ToLowerInvariant(s[1..])
  }

  /** Lower-casing keeps the length and lowers each character in place. */
  lemma {:induction false} ToLowerInvariantAt(s: string)
    ensures |ToLowerInvariant(s)| == |s|
    ensures forall i :: 0 <= i < |s| ==> ToLowerInvariant(s)[i] == LowerChar(s[i])
  {
    if |s| > 0 {
      ToLowerInvariantAt(s[1..]);
    }
  }

  /** What `b.ToString().ToLowerInvariant()` renders: always one of two lower-case words. */
  lemma LowerBoolWords(b: bool)
    ensures ToLowerInvariant(BoolToString(b)) == if b then "true" else "false"
  {
    ToLowerInvariantAt(BoolToString(b));
  }
}
