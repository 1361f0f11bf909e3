/**
 * Rust's `usize` as far as the build script uses it: `str::parse::<usize>`
 * (which reads `BUILD_REV_COUNT`) and the `Display` of a `usize` (which
 * `format!` uses to write `VERSION_BUILD_REV`).
 *
 * Values are unbounded `nat`s; the width of `usize` is the constant
 * USIZE_MAX, that of a 64-bit target.
 */
module RustUsize {
  import opened Wrappers

  /** `usize::MAX` on a 64-bit target. */
  const USIZE_MAX: nat := 0xFFFF_FFFF_FFFF_FFFF

  predicate IsDigit(c: char) {
    '0' <= c <= '9'
  }

  predicate AllDigits(s: string) {
    forall i :: 0 <= i < |s| ==> IsDigit(s[i])
  }

  function DigitValue(c: char): (d: nat)
    requires IsDigit(c)
    ensures d < 10
  {
    c as int - '0' as int
  }

  function DigitChar(d: nat): (c: char)
    requires d < 10
    ensures IsDigit(c) && DigitValue(c) == d
  {
    ('0' as int + d) as char
  }

  /** The number a string of decimal digits denotes, most significant digit first. */
  function Value(s: string): nat
    requires AllDigits(s)
  {
    if s == [] then 0 else 10 * Value(s[..|s| - 1]) + DigitValue(s[|s| - 1])
  }

  /**
   * The digit loop of `usize::from_str_radix(_, 10)`, left to right: a
   * character that is not an ASCII digit fails, and so does an accumulator
   * whose `checked_mul(10)` or `checked_add(digit)` overflows.
   */
  function Accumulate(acc: nat, s: string): (r: Option<nat>)
    requires acc <= USIZE_MAX
    ensures r.Some? ==> acc <= r.value <= USIZE_MAX
    decreases |s|
  {
    if s == [] then Some(acc)
    else if !IsDigit(s[0]) then None
    else if 10 * acc > USIZE_MAX then None
    else if 10 * acc + DigitValue(s[0]) > USIZE_MAX then None
    else Accumulate(10 * acc + DigitValue(s[0]), s[1..])
  }

  /**
   * `s.parse::<usize>()`: an empty string fails; a lone sign fails; one
   * leading `+` is skipped; a leading `-` is left in place, where it fails
   * as a non-digit, since `usize` is unsigned.
   */
  function ParseUsize(s: string): (r: Option<nat>)
    ensures r.Some? ==> r.value <= USIZE_MAX
  {
    if s == [] then None
    else if (s[0] == '+' || s[0] == '-') && |s| == 1 then None
    else if s[0] == '+' then Accumulate(0, s[1..])
    else Accumulate(0, s)
  }

  /** The text after one optional leading `+`. */
  function Digits(s: string): string {
    if |s| > 0 && s[0] == '+' then s[1..] else s
  }

  /** What `str::parse::<usize>` accepts: `+`?, then one or more ASCII digits, denoting at most USIZE_MAX. */
  predicate IsUsizeText(s: string) {
    var d := Digits(s);
    |d| > 0 && AllDigits(d) && Value(d) <= USIZE_MAX
  }

  /** `Display` of a `usize`: the shortest decimal text, without sign or leading zero. */
  function DecimalText(n: nat): (s: string)
    ensures |s| > 0 && AllDigits(s)
    ensures s[0] == '0' ==> n == 0
  {
    if n < 10 then [DigitChar(n)] else DecimalText(n / 10) + [DigitChar(n % 10)]
  }

  /** Canonical decimal text: digits only, and no leading zero unless the text is "0". */
  predicate IsCanonical(s: string) {
    |s| > 0 && AllDigits(s) && (s[0] == '0' ==> |s| == 1)
  }

  function StripLeadingZeros(s: string): string {
    if |s| > 1 && s[0] == '0' then StripLeadingZeros(s[1..]) else s
  }

  lemma {:induction false} AllDigitsSplit(p: string, t: string)
    ensures AllDigits(p + t) <==> AllDigits(p) && AllDigits(t)
  {
    if AllDigits(p + t) {
      forall i | 0 <= i < |p| ensures IsDigit(p[i]) { assert p[i] == (p + t)[i]; }
      forall i | 0 <= i < |t| ensures IsDigit(t[i]) { assert t[i] == (p + t)[|p| + i]; }
    }
  }

  /** Appending a digit on the right multiplies by ten and adds it. */
  lemma AppendDigit(p: string, c: char)
    requires AllDigits(p) && IsDigit(c)
    ensures AllDigits(p + [c]) && Value(p + [c]) == 10 * Value(p) + DigitValue(c)
  {
  }

  /** Appending digits never makes a number smaller. */
  lemma {:induction false} ValueGrows(p: string, t: string)
    requires AllDigits(p + t)
    ensures AllDigits(p) && Value(p) <= Value(p + t)
    decreases |t|
  {
    AllDigitsSplit(p, t);
    if t == [] {
      assert p + t == p;
    } else {
      var t' := t[..|t| - 1];
      assert t == t' + [t[|t| - 1]];
      assert p + t == (p + t') + [t[|t| - 1]];
      AllDigitsSplit(t', [t[|t| - 1]]);
      AllDigitsSplit(p, t');
      AppendDigit(p + t', t[|t| - 1]);
      ValueGrows(p, t');
    }
  }

  /**
   * The checked digit loop, started on the value of the digits `p` already
   * read, yields the value of all the digits read, and fails exactly when a
   * character is not a digit or that value exceeds USIZE_MAX.
   */
  lemma {:induction false} AccumulateValue(p: string, s: string)
    requires AllDigits(p) && Value(p) <= USIZE_MAX
    ensures Accumulate(Value(p), s)
            == if AllDigits(p + s) && Value(p + s) <= USIZE_MAX then Some(Value(p + s)) else None
    decreases |s|
  {
    AllDigitsSplit(p, s);
    if s == [] {
      assert p + s == p;
    } else if !IsDigit(s[0]) {
      assert !AllDigits(s);
    } else {
      var p' := p + [s[0]];
      AppendDigit(p, s[0]);
      assert p + s == p' + s[1..];
      if 10 * Value(p) + DigitValue(s[0]) > USIZE_MAX {
        if AllDigits(p + s) {
          ValueGrows(p', s[1..]);
        }
      } else {
        AccumulateValue(p', s[1..]);
      }
    }
  }

  /** `str::parse::<usize>` succeeds exactly on IsUsizeText, with the value its digits denote. */
  lemma ParseUsizeSpec(s: string)
    ensures ParseUsize(s).Some? <==> IsUsizeText(s)
    ensures ParseUsize(s).Some? ==> ParseUsize(s).value == Value(Digits(s))
  {
    assert Value([]) == 0;
    AccumulateValue([], Digits(s));
    assert [] + Digits(s) == Digits(s);
  }

  lemma {:induction false} ValueOfDecimalText(n: nat)
    ensures Value(DecimalText(n)) == n
  {
    if n >= 10 {
      ValueOfDecimalText(n / 10);
      AppendDigit(DecimalText(n / 10), DigitChar(n % 10));
    }
  }

  /** Round trip: the decimal text of any usize parses back to it. */
  lemma ParseDecimalText(n: nat)
    requires n <= USIZE_MAX
    ensures ParseUsize(DecimalText(n)) == Some(n)
  {
    ValueOfDecimalText(n);
    ParseUsizeSpec(DecimalText(n));
  }

  /** A canonical decimal text is the Display of the number it denotes. */
  lemma {:induction false} DecimalTextOfValue(s: string)
    requires IsCanonical(s)
    ensures DecimalText(Value(s)) == s
    decreases |s|
  {
    if |s| > 1 {
      var init, last := s[..|s| - 1], s[|s| - 1];
      assert s == init + [last];
      AllDigitsSplit(init, [last]);
      AppendDigit(init, last);
      ValueGrows([init[0]], init[1..]);
      assert [init[0]] + init[1..] == init;
      assert Value([init[0]]) == DigitValue(init[0]) by {
        assert [init[0]][..0] == [];
      }
      DecimalTextOfValue(init);
      var n := Value(s);
      assert n / 10 == Value(init) && n % 10 == DigitValue(last);
      assert DigitChar(DigitValue(last)) == last;
    } else {
      assert s[..0] == [];
      assert Value(s) == DigitValue(s[0]);
      assert [DigitChar(Value(s))] == s;
    }
  }

  /** A leading zero does not change the value of a digit string. */
  lemma {:induction false} LeadingZero(t: string)
    requires AllDigits(t)
    ensures AllDigits("0" + t) && Value("0" + t) == Value(t)
    decreases |t|
  {
    AllDigitsSplit("0", t);
    if t == [] {
      assert ("0" + t)[..0] == [];
    } else {
      var init, last := t[..|t| - 1], t[|t| - 1];
      assert t == init + [last];
      AllDigitsSplit(init, [last]);
      LeadingZero(init);
      assert "0" + t == ("0" + init) + [last];
      AppendDigit("0" + init, last);
      AppendDigit(init, last);
    }
  }

  /** Stripping leading zeros keeps the value and leaves canonical text. */
  lemma {:induction false} StripLeadingZerosSpec(s: string)
    requires |s| > 0 && AllDigits(s)
    ensures IsCanonical(StripLeadingZeros(s)) && Value(StripLeadingZeros(s)) == Value(s)
    decreases |s|
  {
    if |s| > 1 && s[0] == '0' {
      assert s == "0" + s[1..];
      AllDigitsSplit("0", s[1..]);
      LeadingZero(s[1..]);
      StripLeadingZerosSpec(s[1..]);
    }
  }

  /**
   * What `format!` writes for a parsed revision count is its canonical
   * decimal: the accepted text without its `+` and without leading zeros.
   */
  lemma ParsedThenDisplayed(s: string)
    requires ParseUsize(s).Some?
    ensures DecimalText(ParseUsize(s).value) == StripLeadingZeros(Digits(s))
  {
    ParseUsizeSpec(s);
    StripLeadingZerosSpec(Digits(s));
    DecimalTextOfValue(StripLeadingZeros(Digits(s)));
  }

  /** "+007" is accepted and displayed as "7". */
  lemma PlusAndLeadingZeros()
    ensures ParseUsize("+007") == Some(7) && DecimalText(7) == "7"
  {
  }
}
