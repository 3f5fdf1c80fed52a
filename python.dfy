/** The Python values, string tests and failures the two scripts deal in. */
module Python {

  /** One element of a bytearray. */
  type byte = b: int | 0 <= b < 0x100

  /** A value that may be Python's None. */
  datatype Option<T> = None | Some(value: T)

  /** The Python exceptions the core can raise, and sys.exit. */
  datatype Fault =
    | IndexError       // a bytearray index past its end
    | TypeError        // bytearray.fromhex given None instead of text
    | ValueError       // text that is not hexadecimal, or not a decimal integer
    | StructError      // struct.unpack given a buffer of the wrong size
    | Exit(code: int)  // sys.exit(code), which raises SystemExit

  /** `except Exception` catches every fault except SystemExit. */
  predicate IsException(f: Fault) {
    !f.Exit?
  }

  datatype Result<T> = Ok(value: T) | Err(fault: Fault)

  predicate IsDigitChar(c: char) {
    '0' <= c <= '9'
  }

  predicate AllDigits(s: string) {
    forall i :: 0 <= i < |s| ==> IsDigitChar(s[i])
  }

  /** str.isdigit(): at least one character, and every character a digit. */
  predicate IsDigit(s: string) {
    |s| > 0 && AllDigits(s)
  }

  function Pow10(k: nat): (r: nat)
    ensures r >= 1
  {
    if k == 0 then 1 else 10 * Pow10(k - 1)
  }

  /** int(s) for a string of decimal digits: the digits read most significant first. */
  function DecimalValue(s: string): (v: nat)
    requires AllDigits(s)
    ensures v < Pow10(|s|)
  {
    if s == [] then 0
    else 10 * DecimalValue(s[..|s| - 1]) + (s[|s| - 1] - '0') as int
  }

  function DigitChar(d: nat): (c: char)
    requires d < 10
    ensures IsDigitChar(c)
  {
    '0' + d as char
  }

  /** str(n) for a non-negative integer: its shortest decimal spelling. */
  function Decimal(n: nat): (s: string)
    ensures IsDigit(s)
  {
    if n < 10 then [DigitChar(n)] else Decimal(n / 10) + [DigitChar(n % 10)]
  }

  /** int(str(n)) == n. */
  lemma {:induction false} DecimalRoundTrip(n: nat)
    ensures DecimalValue(Decimal(n)) == n
  {
    var s := Decimal(n);
    if n >= 10 {
      DecimalRoundTrip(n / 10);
      assert s[..|s| - 1] == Decimal(n / 10);
    }
  }

  /** int(s): a ValueError unless s is a string of digits. */
  function IntOf(s: string): (r: Result<nat>)
    ensures r.Ok? <==> IsDigit(s)
    ensures r.Err? ==> r.fault == ValueError
    ensures r.Ok? ==> r.value < Pow10(|s|)
  {
    if IsDigit(s) then Ok(DecimalValue(s)) else Err(ValueError)
  }
}
