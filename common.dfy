/**
 * Vocabulary shared by every service of the marketplace backend: optional
 * values, operation results, the exception kinds the services raise, clock
 * constants and the decimal rendering of numbers.
 */
module Common {

  datatype Option<T> = None | Some(value: T)

  /** The exception kinds raised by the service layer, with the message passed to them. */
  datatype Error =
    | NotFound(message: string)
    | BadRequest(message: string)
    | Forbidden(message: string)
    | Unauthorized(message: string)
    | Conflict(message: string)
    | InternalServerError(message: string)
    | Failure(message: string)        // a plain `new Error(message)`
    | TypeError(message: string)      // a property read on `undefined` or `null`

  datatype Result<T> = Ok(value: T) | Err(error: Error)

  /** The clock is a number of milliseconds; these are the spans the services add to it. */
  const MsPerHour: int := 3600000
  const MsPerDay: int := 86400000

  function Digit(d: nat): (c: char)
    requires d < 10
    ensures '0' <= c <= '9'
  {
    ('0' as int + d) as char
  }

  function DigitValue(c: char): int
  {
    c as int - '0' as int
  }

  /** The decimal text of `n`, as `Number.prototype.toString` writes a non-negative integer. */
  function DecimalString(n: nat): (s: string)
    ensures |s| >= 1
    ensures forall i :: 0 <= i < |s| ==> '0' <= s[i] <= '9'
    decreases n
  {
    if n < 10 then [Digit(n)] else DecimalString(n / 10) + [Digit(n % 10)]
  }

  /** `Number.prototype.toString` of an integer. */
  function IntString(n: int): (s: string)
    ensures |s| >= 1
    ensures n >= 0 ==> s == DecimalString(n)
  {
    if n >= 0 then DecimalString(n) else "-" + DecimalString(-n)
  }

  /** The value of a string of decimal digits, read most significant digit first. */
  function DecimalValue(s: string): int
  {
    if |s| == 0 then 0 else DecimalValue(s[..|s| - 1]) * 10 + DigitValue(s[|s| - 1])
  }

  /** Reading back the decimal text of a number gives that number. */
  lemma {:induction false} DecimalRoundTrip(n: nat)
    ensures DecimalValue(DecimalString(n)) == n
    decreases n
  {
    if n >= 10 {
      var s := DecimalString(n);
      assert s[..|s| - 1] == DecimalString(n / 10);
      assert DigitValue(s[|s| - 1]) == n % 10;
      DecimalRoundTrip(n / 10);
      assert (n / 10) * 10 + n % 10 == n;
    }
  }

  function Pow10(n: nat): (r: nat)
    ensures r >= 1
    ensures n >= 1 ==> r >= 10
  {
    if n == 0 then 1 else 10 * Pow10(n - 1)
  }

  /** A number shifted left by `n` decimal places stays a natural number. */
  lemma ShiftedIsNatural(x: nat, n: nat)
    ensures x * Pow10(n) >= 0
  {
  }

  /** Reading two digit strings written one after the other: the first is shifted left by the second's length. */
  lemma {:induction false} DecimalValueConcat(s: string, t: string)
    ensures DecimalValue(s + t) == DecimalValue(s) * Pow10(|t|) + DecimalValue(t)
    decreases |t|
  {
    if |t| == 0 {
      assert s + t == s;
    } else {
      var t' := t[..|t| - 1];
      assert (s + t)[..|s + t| - 1] == s + t';
      assert (s + t)[|s + t| - 1] == t[|t| - 1];
      DecimalValueConcat(s, t');
      var d := DigitValue(t[|t| - 1]);
      calc {
        DecimalValue(s + t);
        DecimalValue(s + t') * 10 + d;
        (DecimalValue(s) * Pow10(|t'|) + DecimalValue(t')) * 10 + d;
        DecimalValue(s) * (Pow10(|t'|) * 10) + (DecimalValue(t') * 10 + d);
        DecimalValue(s) * Pow10(|t|) + DecimalValue(t);
      }
    }
  }

  /** ASCII lower-casing of one character; other characters are kept. */
  function LowerChar(c: char): char
  {
    if 'A' <= c <= 'Z' then (c as int + 32) as char else c
  }

  /**
   * `String.prototype.toLowerCase` restricted to ASCII letters. For the
   * comparisons made here against lower-case ASCII words this decides
   * membership exactly as the full Unicode mapping does.
   */
  function Lower(s: string): (r: string)
    ensures |r| == |s|
    ensures forall i :: 0 <= i < |s| ==> r[i] == LowerChar(s[i])
  {
    if |s| == 0 then [] else [LowerChar(s[0])] + Lower(s[1..])
  }

  /** A string without upper-case ASCII letters is its own lower-case form. */
  lemma LowerKeepsLowerCase(s: string)
    requires forall i :: 0 <= i < |s| ==> !('A' <= s[i] <= 'Z')
    ensures Lower(s) == s
  {
  }

  /** `s` with every element equal to `x` removed, order kept (`Array.prototype.filter`). */
  function Without(s: seq<string>, x: string): (r: seq<string>)
    ensures forall y :: y in r <==> y in s && y != x
    ensures |r| <= |s|
  {
    if |s| == 0 then []
    else if s[0] == x then Without(s[1..], x)
    else [s[0]] + Without(s[1..], x)
  }
}
