/** Values shared by every part of the model: bytes, optional values,
    results that carry an error instead of raising it, and the rendering
    of integers that Python's f-strings and exception texts use. */
module Common {

  /** One byte of a file's content. */
  newtype byte = x: int | 0 <= x < 256

  /** A value that may be absent (Python's `None`). */
  datatype Option<+T> = None | Some(value: T)

  /** The outcome of an operation that either returns or raises. */
  datatype Result<+T, +E> = Ok(value: T) | Err(error: E)

  /** FastAPI's `HTTPException(status_code, detail)`. */
  datatype HttpError = HttpError(status: int, detail: string)

  /** The decimal digit for `d`. */
  function Digit(d: nat): (c: char)
    requires d < 10
    ensures '0' <= c <= '9'
    ensures c as int - '0' as int == d
  {
    "0123456789"[d]
  }

  /** The number a string of decimal digits denotes, read left to right. */
  function DecimalValue(s: string): nat
    requires forall i :: 0 <= i < |s| ==> '0' <= s[i] <= '9'
  {
    if s == [] then 0
    else 10 * DecimalValue(s[..|s| - 1]) + (s[|s| - 1] as int - '0' as int)
  }

  /** Python's `str(n)` for an integer `n`. */
  function IntToString(n: int): (s: string)
    ensures |s| > 0
    ensures n >= 0 ==> forall i :: 0 <= i < |s| ==> '0' <= s[i] <= '9'
    ensures n >= 0 ==> DecimalValue(s) == n
    ensures n < 0 ==> s[0] == '-' && s[1..] == IntToString(-n)
    decreases if n < 0 then 1 - n else n
  {
    if n < 0 then "-" + IntToString(-n)
    else if n < 10 then
      var s := [Digit(n)];
      assert s[..0] == [];
      s
    else
      var high := IntToString(n / 10);
      var s := high + [Digit(n % 10)];
      assert s[..|s| - 1] == high;
      s
  }

  /** The status codes the handlers raise render as their three digits. */
  lemma StatusTexts()
    ensures IntToString(400) == "400" && IntToString(404) == "404" && IntToString(500) == "500"
  {
    assert IntToString(4) == "4" && IntToString(5) == "5";
    assert IntToString(40) == "40" && IntToString(50) == "50";
  }

  /** Starlette's `str()` of an `HTTPException`: the status, a colon, the detail. */
  function HttpErrorText(e: HttpError): string
  {
    IntToString(e.status) + ": " + e.detail
  }

  /** The text of a 500 is `"500: "` followed by its detail. */
  lemma HttpErrorText500(detail: string)
    ensures HttpErrorText(HttpError(500, detail)) == "500: " + detail
  {
    StatusTexts();
  }
}
