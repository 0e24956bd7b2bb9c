/** Small shared vocabulary: optional values, the `Math.max(1, _)` clamp the
    quantity pickers use, JavaScript's `a || b` on strings, ASCII case mapping
    and decimal rendering of status codes. */
module Common {

  datatype Option<+T> = None | Some(value: T)

  /** `Math.max(1, n)`: the quantity pickers never go below one. */
  function AtLeastOne(n: int): (r: int)
    ensures r >= 1 && r >= n
    ensures r == n || r == 1
  {
    if n < 1 then 1 else n
  }

  /** JavaScript's `s || fallback` for an optional string field: a missing
      field and the empty string are both falsy. */
  function OrElse(s: Option<string>, fallback: string): (r: string)
    ensures s.Some? && s.value != "" ==> r == s.value
    ensures s.None? || s.value == "" ==> r == fallback
  {
    if s.Some? && s.value != "" then s.value else fallback
  }

  function LowerChar(c: char): char
  {
    if 'A' <= c <= 'Z' then (c as int + 32) as char else c
  }

  function UpperChar(c: char): char
  {
    if 'a' <= c <= 'z' then (c as int - 32) as char else c
  }

  /** `String.prototype.toLowerCase`, restricted to ASCII letters. */
  function ToLower(s: string): (r: string)
    ensures |r| == |s|
    ensures forall k :: 0 <= k < |s| ==> r[k] == LowerChar(s[k])
  {
    if s == [] then [] else [LowerChar(s[0])] + ToLower(s[1..])
  }

  lemma {:induction false} ToLowerIdempotent(s: string)
    ensures ToLower(ToLower(s)) == ToLower(s)
  {
    if s != [] {
      ToLowerIdempotent(s[1..]);
      assert ToLower(s)[1..] == ToLower(s[1..]);
    }
  }

  function Digit(d: nat): (c: char)
    requires d < 10
    ensures c as int - '0' as int == d
  {
    "0123456789"[d]
  }

  /** Decimal rendering of a non-negative number, as a template literal
      `${n}` prints it. */
  function DecimalString(n: nat): (r: string)
    ensures |r| >= 1
    ensures forall k :: 0 <= k < |r| ==> '0' <= r[k] <= '9'
    ensures n >= 10 ==> r[0] != '0'
    decreases n
  {
    if n < 10 then [Digit(n)] else DecimalString(n / 10) + [Digit(n % 10)]
  }

  /** The value a decimal numeral stands for; the partner of DecimalString. */
  function DecimalValue(s: string): int
  {
    if s == [] then 0 else DecimalValue(s[..|s| - 1]) * 10 + (s[|s| - 1] as int - '0' as int)
  }

  lemma {:induction false} DecimalRoundTrip(n: nat)
    ensures DecimalValue(DecimalString(n)) == n
    decreases n
  {
    if n >= 10 {
      DecimalRoundTrip(n / 10);
      var r := DecimalString(n);
      assert r[..|r| - 1] == DecimalString(n / 10);
      assert r[|r| - 1] as int - '0' as int == n % 10;
      assert DecimalValue(r) == (n / 10) * 10 + n % 10;
    }
  }
}
