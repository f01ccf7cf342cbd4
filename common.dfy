/** Shared vocabulary of the CRM API model: optional values, the errors the
    services throw, and two small arithmetic helpers (ceiling division and the
    decimal rendering of a number inside an error message). */
module Common {

  /** Record identifiers (the store's uuids). */
  type Id = string

  /** Instants, in milliseconds since the epoch (`Date.now()`). */
  type Time = int

  datatype Option<+T> = None | Some(value: T) {
    function GetOr(default: T): T {
      match this
      case Some(v) => v
      case None => default
    }
  }

  /** The exceptions the services raise. The first four are the framework's
      HTTP exceptions (their status is fixed by the kind); `StoreFailure` is an
      error thrown by the persistence layer, which is not an HTTP exception. */
  datatype Error =
    | Conflict(message: string)
    | Unauthorized(message: string)
    | Forbidden(message: string)
    | NotFound(message: string)
    | StoreFailure(message: string)
  {
    function Status(): int {
      match this
      case Conflict(_) => 409
      case Unauthorized(_) => 401
      case Forbidden(_) => 403
      case NotFound(_) => 404
      case StoreFailure(_) => 500
    }
  }

  datatype Result<+T> = Ok(value: T) | Err(error: Error)

  /** One operation of a service on the table it changes: what the caller
      receives and the table afterwards. */
  datatype Step<+T, +S> = Step(result: Result<T>, state: S)

  /** A JavaScript optional string used as a filter or a reference: it only
      takes part when it is truthy, that is present and not "". */
  predicate Given(o: Option<string>) {
    o.Some? && o.value != ""
  }

  /** `Math.ceil(n / d)` for a non-negative numerator and positive divisor. */
  function CeilDiv(n: nat, d: nat): (q: nat)
    requires d > 0
    ensures (q - 1) * d < n <= q * d
  {
    var q := (n + d - 1) / d;
    assert q * d <= n + d - 1 < q * d + d;
    q
  }

  lemma {:induction false} CeilDivUnique(n: nat, d: nat, q: int)
    requires d > 0
    requires (q - 1) * d < n <= q * d
    ensures q == CeilDiv(n, d)
  {
    var c := CeilDiv(n, d);
    if q < c {
      assert q * d <= (c - 1) * d by { MulMonotone(q, c - 1, d); }
      assert false;
    } else if q > c {
      assert c * d <= (q - 1) * d by { MulMonotone(c, q - 1, d); }
      assert false;
    }
  }

  lemma MulMonotone(a: int, b: int, d: nat)
    requires a <= b
    ensures a * d <= b * d
  {
    assert b * d - a * d == (b - a) * d;
  }

  function DigitChar(d: nat): (c: char)
    requires d < 10
    ensures '0' <= c <= '9' && c as int - '0' as int == d
  {
    ('0' as int + d) as char
  }

  /** `${n}` for a non-negative integer: its decimal digits, no leading zero. */
  function DecimalString(n: nat): (s: string)
    decreases n
  {
    if n < 10 then [DigitChar(n)] else DecimalString(n / 10) + [DigitChar(n % 10)]
  }

  /** The value of a string of decimal digits. */
  function DecimalValue(s: string): nat
    requires forall i :: 0 <= i < |s| ==> '0' <= s[i] <= '9'
    decreases |s|
  {
    if s == [] then 0 else 10 * DecimalValue(s[..|s| - 1]) + (s[|s| - 1] as int - '0' as int)
  }

  /** The rendering of a number can be read back: `${n}` names n. */
  lemma {:induction false} DecimalRoundTrip(n: nat)
    ensures |DecimalString(n)| >= 1
    ensures forall i :: 0 <= i < |DecimalString(n)| ==> '0' <= DecimalString(n)[i] <= '9'
    ensures DecimalValue(DecimalString(n)) == n
  {
    if n >= 10 {
      DecimalRoundTrip(n / 10);
      var s := DecimalString(n);
      assert s[..|s| - 1] == DecimalString(n / 10);
    }
  }
}
