/**
 * The string helpers the client relies on, written as the Python built-ins
 * they stand for: `str.startswith`, `str.replace(old, "")`, formatting of an
 * optional value with an f-string, and `str(int)`.
 */
module Text {
  import opened Wrappers

  /** `s.startswith(prefix)`. */
  predicate StartsWith(s: string, prefix: string) {
    |prefix| <= |s| && s[..|prefix|] == prefix
  }

  /** `p in s`: `p` occurs in `s` as a contiguous piece. */
  predicate Occurs(s: string, p: string)
    ensures Occurs(s, p) ==> |p| <= |s|
    decreases |s|
  {
    StartsWith(s, p) || (|s| > 0 && Occurs(s[1..], p))
  }

  /**
   * `s.replace(p, "")`: scan from the left, drop each occurrence of `p`
   * that is found and resume the scan just after it. One pass only, so
   * the result may contain `p` again.
   */
  function RemoveAll(s: string, p: string): (r: string)
    requires |p| > 0
    ensures |r| <= |s|
    ensures !Occurs(s, p) ==> r == s
    ensures Occurs(s, p) ==> |r| <= |s| - |p|
    decreases |s|
  {
    if |s| < |p| then s
    else if s[..|p|] == p then RemoveAll(s[|p|..], p)
    else [s[0]] + RemoveAll(s[1..], p)
  }

  /** A leading occurrence of the pattern is dropped and the scan resumes after it. */
  lemma RemoveAllLeading(p: string, s: string)
    requires |p| > 0
    ensures RemoveAll(p + s, p) == RemoveAll(s, p)
  {
  }

  /**
   * One pass at its leftmost occurrence: when no occurrence of `p` starts
   * inside `x`, the text before `p` is kept, `p` is dropped and the scan
   * goes on with what follows.
   */
  lemma {:induction false} RemoveAllLeftmost(x: string, y: string, p: string)
    requires |p| > 0
    requires !Occurs(x + p[..|p| - 1], p)
    ensures RemoveAll(x + p + y, p) == x + RemoveAll(y, p)
    decreases |x|
  {
    var q := p[..|p| - 1];
    if x == [] {
      assert x + p + y == p + y;
      RemoveAllLeading(p, y);
    } else {
      var s := x + p + y;
      var xq := x + q;
      assert !StartsWith(xq, p) && !Occurs(xq[1..], p);
      assert xq[1..] == x[1..] + q;
      assert |s| >= |p| && s[..|p|] != p by {
        assert |xq| >= |p|;
        assert forall i :: 0 <= i < |p| ==> s[i] == xq[i];
      }
      calc {
        RemoveAll(s, p);
        [s[0]] + RemoveAll(s[1..], p);
        { assert s[0] == x[0]; assert s[1..] == x[1..] + p + y; }
        [x[0]] + RemoveAll(x[1..] + p + y, p);
        { RemoveAllLeftmost(x[1..], y, p); }
        [x[0]] + (x[1..] + RemoveAll(y, p));
        { assert [x[0]] + x[1..] == x; }
        x + RemoveAll(y, p);
      }
    }
  }

  /** Characters that differ from the pattern's first character cannot start an occurrence. */
  lemma {:induction false} OccursSkip(a: string, s: string, p: string)
    requires |p| > 0
    requires forall i :: 0 <= i < |a| ==> a[i] != p[0]
    ensures Occurs(a + s, p) == Occurs(s, p)
    decreases |a|
  {
    if |a| > 0 {
      assert (a + s)[0] == a[0];
      assert !StartsWith(a + s, p);
      assert (a + s)[1..] == a[1..] + s;
      OccursSkip(a[1..], s, p);
    } else {
      assert a + s == s;
    }
  }

  /** f"{x}" for an optional string: Python renders `None` as "None". */
  function Show(x: Option<string>): string {
    match x
    case Some(s) => s
    case None => "None"
  }

  /** The character for a decimal digit. */
  function DigitChar(d: nat): (c: char)
    requires d < 10
    ensures '0' <= c <= '9' && (c as int) - ('0' as int) == d
  {
    (('0' as int) + d) as char
  }

  predicate IsDigits(s: string) {
    forall i :: 0 <= i < |s| ==> '0' <= s[i] <= '9'
  }

  /** `str(n)` for a natural number: its digits, most significant first, no leading zero. */
  function NatToDecimal(n: nat): (s: string)
    ensures |s| > 0 && IsDigits(s)
    ensures |s| > 1 ==> s[0] != '0'
    decreases n
  {
    if n < 10 then [DigitChar(n)] else NatToDecimal(n / 10) + [DigitChar(n % 10)]
  }

  /** `str(n)` for any integer: a minus sign in front of a negative number. */
  function IntToDecimal(n: int): string {
    if n < 0 then "-" + NatToDecimal(-n) else NatToDecimal(n)
  }

  /** The number a string of digits denotes. */
  function DecimalValue(s: string): nat
    requires IsDigits(s)
  {
    if s == [] then 0
    else DecimalValue(s[..|s| - 1]) * 10 + ((s[|s| - 1] as int) - ('0' as int))
  }

  /** `int(s)` for the strings `IntToDecimal` produces. */
  function ParseInt(s: string): int {
    if |s| > 0 && s[0] == '-' && IsDigits(s[1..]) then 0 - DecimalValue(s[1..]) as int
    else if IsDigits(s) then DecimalValue(s)
    else 0
  }

  lemma {:induction false} NatToDecimalRoundTrip(n: nat)
    ensures DecimalValue(NatToDecimal(n)) == n
    decreases n
  {
    if n >= 10 {
      NatToDecimalRoundTrip(n / 10);
      var s := NatToDecimal(n);
      assert s[..|s| - 1] == NatToDecimal(n / 10);
    }
  }

  /** Rendering an integer in decimal loses nothing: parsing gives it back. */
  lemma IntToDecimalRoundTrip(n: int)
    ensures ParseInt(IntToDecimal(n)) == n
  {
    if n < 0 {
      NatToDecimalRoundTrip(-n);
      var s := IntToDecimal(n);
      assert s[1..] == NatToDecimal(-n);
    } else {
      NatToDecimalRoundTrip(n);
    }
  }
}
