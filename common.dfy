/** Small building blocks shared by the modules of the RSS reader model:
    optional values, results with an error, JavaScript's `||` on optional
    strings, and the decimal rendering of numbers inside template strings. */
module Common {

  /** A value that may be absent (`undefined`/`null` in the source). */
  datatype Option<+T> = None | Some(value: T)

  /** The outcome of something that may throw: a value, or the error it throws. */
  datatype Result<+T, +E> = Ok(value: T) | Err(error: E)

  /** JavaScript truthiness of an optional string: absent and `''` are falsy. */
  predicate Truthy(s: Option<string>) {
    s.Some? && s.value != ""
  }

  /** `s || fallback` where `s` is an optional string. */
  function OrElse(s: Option<string>, fallback: string): (r: string)
    ensures Truthy(s) ==> r == s.value
    ensures !Truthy(s) ==> r == fallback
    ensures r == "" ==> fallback == ""
  {
    if Truthy(s) then s.value else fallback
  }

  predicate IsDigit(c: char) {
    '0' <= c <= '9'
  }

  function Digit(d: nat): (c: char)
    requires d < 10
    ensures IsDigit(c)
  {
    (('0' as int) + d) as char
  }

  /** The decimal text of a non-negative integer, as `${n}` renders it. */
  function NatToString(n: nat): (s: string)
    ensures |s| >= 1
    ensures n < 10 <==> |s| == 1
    ensures forall i :: 0 <= i < |s| ==> IsDigit(s[i])
  {
    if n < 10 then [Digit(n)] else NatToString(n / 10) + [Digit(n % 10)]
  }

  /** Different numbers render as different texts. */
  lemma {:induction false} NatToStringInjective(a: nat, b: nat)
    requires NatToString(a) == NatToString(b)
    ensures a == b
  {
    if a >= 10 && b >= 10 {
      var sa, sb := NatToString(a), NatToString(b);
      assert NatToString(a / 10) == sa[..|sa| - 1];
      assert NatToString(b / 10) == sb[..|sb| - 1];
      NatToStringInjective(a / 10, b / 10);
      assert Digit(a % 10) == sa[|sa| - 1] == Digit(b % 10);
    }
  }

  predicate NoDash(s: string) {
    forall i :: 0 <= i < |s| ==> s[i] != '-'
  }

  lemma NatToStringNoDash(n: nat)
    ensures NoDash(NatToString(n))
  {
  }

  /** Splitting `x + "-" + y` at its first dash is unique when `x` holds no dash. */
  lemma SplitAtDash(x1: string, y1: string, x2: string, y2: string)
    requires NoDash(x1) && NoDash(x2)
    requires x1 + "-" + y1 == x2 + "-" + y2
    ensures x1 == x2 && y1 == y2
  {
    var s := x1 + "-" + y1;
    assert s[|x1|] == '-' && s[|x2|] == '-';
    assert x1 == s[..|x1|] == x2;
    assert y1 == s[|x1| + 1..] == y2;
  }
}
