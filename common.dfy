/** Failure values and integer helpers shared by every engine of the generator. */
module Common {

  /** The exceptions the generator can raise, one constructor per cause. */
  datatype Error =
    | NegativeGateCount            // the assertion on the requested gate count
    | EmptyArgMax                  // numpy's argmax over an empty list of dead ends
    | ZeroStep                     // range() or randrange() with a step of zero
    | EmptyRange                   // randint() or randrange() over an empty range
    | NotCity                      // the statistics root element is not <city>
    | MissingSection(tag: string)  // a find() that returned None was used
    | MissingAttribute(name: string)  // attrib[...] on an absent key, or int(None)
    | NotAnInteger(name: string)   // int() of a text that is not a decimal integer
    | UnsupportedOperand           // a float added to a Decimal

  datatype Option<T> = None | Some(value: T)

  datatype Result<T> = Ok(value: T) | Err(error: Error)

  /** The result of a procedure that returns nothing unless it raises. */
  datatype Outcome = Pass | Fail(error: Error)

  /** Python's math.ceil on an exact real. */
  function Ceil(x: real): (c: int)
    ensures (c - 1) as real < x <= c as real
  {
    -((-x).Floor)
  }

  /** int() of a real: truncation toward zero. */
  function Trunc(x: real): (t: int)
    ensures 0.0 <= x ==> 0 <= t && t as real <= x < (t + 1) as real
    ensures x < 0.0 ==> t <= 0 && (t - 1) as real < x <= t as real
  {
    if x >= 0.0 then x.Floor else -((-x).Floor)
  }

  /** Python's floor division a // b. */
  function FloorDiv(a: int, b: int): (q: int)
    requires b != 0
    ensures b > 0 ==> q * b <= a < q * b + b
    ensures b < 0 ==> q * b + b < a <= q * b
  {
    if b > 0 then a / b else (-a) / (-b)
  }

  /** The ceiling of a / b for a positive divisor and a non-negative dividend. */
  function CeilDiv(a: nat, b: nat): (c: nat)
    requires b > 0
    ensures (c - 1) * b < a <= c * b
  {
    (a + b - 1) / b
  }
}
