/**
 * Python values as the two GNS3 pages store them in their settings
 * dictionaries, and the `str()` rendering that `str.format` applies to them.
 */
module Values {

  /** A value held in a settings dictionary. */
  datatype Value = Str(s: string) | Int(i: int) | Bool(b: bool) | Null

  /** A settings dictionary (`dict` of field name to value). */
  type Dict = map<string, Value>

  datatype Option<T> = None | Some(value: T)

  /** The outcome of a Python operation that may raise `KeyError`. */
  datatype Result<T> = Ok(value: T) | KeyError(key: string)

  /** How a slot that returns nothing ended: normally, refused with a message, or by raising `KeyError`. */
  datatype Outcome = Done | Refused | Raised(key: string)

  predicate IsDigit(c: char)
  {
    '0' <= c <= '9'
  }

  /** The number a string of decimal digits denotes. */
  function DigitsValue(s: string): int
  {
    if s == [] then 0 else 10 * DigitsValue(s[..|s| - 1]) + (s[|s| - 1] as int - '0' as int)
  }

  /** Decimal digits of a natural number, as Python's `str(n)` writes them. */
  function NatDigits(n: nat): (r: string)
    ensures |r| > 0
    ensures forall k :: 0 <= k < |r| ==> IsDigit(r[k])
    ensures DigitsValue(r) == n
    decreases n
  {
    var d := [(('0' as int) + n % 10) as char];
    if n < 10 then d
    else
      var r := NatDigits(n / 10) + d;
      assert r[..|r| - 1] == NatDigits(n / 10);
      r
  }

  /** `str(i)` for an integer: a minus sign for a negative one, then the digits of its magnitude. */
  function Decimal(i: int): (r: string)
    ensures |r| > 0
    ensures (i < 0) == (r[0] == '-')
    ensures i < 0 ==> DigitsValue(r[1..]) == -i
    ensures i >= 0 ==> DigitsValue(r) == i
  {
    if i < 0 then
      var r := "-" + NatDigits(-i);
      assert r[1..] == NatDigits(-i);
      r
    else NatDigits(i)
  }

  /** `str(v)`: what `"{}".format(v)` inserts for a value. */
  function Render(v: Value): string
  {
    match v
    case Str(s) => s
    case Int(i) => Decimal(i)
    case Bool(b) => if b then "True" else "False"
    case Null => "None"
  }
}
