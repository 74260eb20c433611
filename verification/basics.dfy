/** Shared value types of the provisioner: optional values, results, the
    outcome of one remote mutation, and the decimal rendering of numbers
    that the Worker interpolates into its messages. */
module Basics {

  datatype Option<+T> = None | Some(value: T)

  datatype Result<+T, +E> = Success(value: T) | Failure(error: E)

  /** What one awaited call produced: it completed (`Done`) or it threw an
      `Error` whose `message` is kept. */
  datatype Outcome = Done | Failed(message: string)

  /** JavaScript truthiness of an optional string field: present and non-empty. */
  predicate Present(o: Option<string>) {
    o.Some? && o.value != ""
  }

  predicate IsDigit(c: char) {
    '0' <= c <= '9'
  }

  function DigitChar(d: nat): (c: char)
    requires d < 10
    ensures IsDigit(c)
  {
    ['0', '1', '2', '3', '4', '5', '6', '7', '8', '9'][d]
  }

  function DigitValue(c: char): (d: nat)
    requires IsDigit(c)
    ensures d < 10
  {
    if c == '0' then 0 else if c == '1' then 1 else if c == '2' then 2
    else if c == '3' then 3 else if c == '4' then 4 else if c == '5' then 5
    else if c == '6' then 6 else if c == '7' then 7 else if c == '8' then 8
    else 9
  }

  /** Decimal rendering of a number, as a template literal prints a
      non-negative integer. */
  function NatToString(n: nat): (s: string)
    ensures s != []
    ensures forall k :: 0 <= k < |s| ==> IsDigit(s[k])
    ensures n != 0 ==> s[0] != '0'
  {
    if n < 10 then [DigitChar(n)] else NatToString(n / 10) + [DigitChar(n % 10)]
  }

  /** Value of a string of decimal digits, most significant first. */
  function DecimalValue(s: string): nat
    requires forall k :: 0 <= k < |s| ==> IsDigit(s[k])
  {
    if s == [] then 0 else 10 * DecimalValue(s[..|s| - 1]) + DigitValue(s[|s| - 1])
  }

  /** Reading back a rendered number gives the number: the rendering loses
      nothing, so distinct rule positions and statuses print differently. */
  lemma {:induction false} DecimalRoundTrip(n: nat)
    ensures DecimalValue(NatToString(n)) == n
  {
    if n >= 10 {
      var s := NatToString(n);
      assert s[..|s| - 1] == NatToString(n / 10);
      DecimalRoundTrip(n / 10);
    }
  }
}
