/** utils/appError.js: the operational error raised by the handlers, and the
    error objects (from Mongoose, the JWT library or the JavaScript runtime)
    that reach the global error handler. */
module AppErrors {
  import opened Common

  /** The fields of a JavaScript error object that the error handler reads.
      `statusCode`, `status` and `code` are `None` when undefined;
      `path`/`value` are a CastError's; `fieldMessages` are the messages of a
      ValidationError's `errors`, in order. */
  datatype Error = Error(
    name: string,
    message: string,
    statusCode: Option<int>,
    status: Option<string>,
    isOperational: bool,
    code: Option<int>,
    path: string,
    value: string,
    fieldMessages: seq<string>)

  function DigitChar(d: nat): char
    requires d < 10
  {
    "0123456789"[d]
  }

  /** Decimal text of a natural number, most significant digit first. */
  function Digits(n: nat): (s: string)
    ensures |s| >= 1
  {
    if n < 10 then [DigitChar(n)] else Digits(n / 10) + [DigitChar(n % 10)]
  }

  /** `${n}` for an integer. */
  function DecimalText(n: int): string
  {
    if n < 0 then "-" + Digits(-n) else Digits(n)
  }

  /** `${statusCode}`: an undefined code prints as "undefined". */
  function CodeText(code: Option<int>): string
  {
    match code
    case None => "undefined"
    case Some(n) => DecimalText(n)
  }

  /** The `status` the AppError constructor derives from its code. */
  function StatusFor(code: Option<int>): string
  {
    if StartsWith(CodeText(code), "4") then "fail" else "error"
  }

  /** `new AppError(message, statusCode)`. */
  function NewAppError(message: string, statusCode: Option<int>): (e: Error)
    ensures e.message == message && e.statusCode == statusCode
    ensures e.isOperational
    ensures e.status == Some(StatusFor(statusCode))
  {
    Error("Error", message, statusCode, Some(StatusFor(statusCode)), true, None, "", "", [])
  }

  /** An exception the JavaScript runtime throws (a TypeError, a
      ReferenceError): no status code, not operational. */
  function Thrown(name: string, message: string): (e: Error)
    ensures e.name == name && e.message == message
    ensures !e.isOperational && e.statusCode.None? && e.code.None?
  {
    Error(name, message, None, None, false, None, "", "", [])
  }

  /** The most significant decimal digit of `n`. */
  function LeadingDigit(n: nat): (d: nat)
    ensures d < 10
  {
    if n < 10 then n else LeadingDigit(n / 10)
  }

  lemma {:induction false} DigitsHead(n: nat)
    ensures Digits(n)[0] == DigitChar(LeadingDigit(n))
  {
    if n >= 10 {
      DigitsHead(n / 10);
    }
  }

  /** `status` is "fail" exactly when the code is a non-negative number whose
      leading decimal digit is 4; an undefined code gives "error". */
  lemma StatusIsFailIff(code: Option<int>)
    ensures StatusFor(code) == "fail" <==> code.Some? && code.value >= 0 && LeadingDigit(code.value) == 4
  {
    match code
    case None =>
      assert CodeText(code)[..1] == "u";
    case Some(n) =>
      if n < 0 {
        assert CodeText(code)[..1] == "-";
      } else {
        DigitsHead(n);
        assert CodeText(code)[..1] == [DigitChar(LeadingDigit(n))];
      }
  }

  /** For a three-digit HTTP code, "fail" means a 4xx client error. */
  lemma StatusOfHttpCode(c: int)
    requires 100 <= c <= 999
    ensures StatusFor(Some(c)) == "fail" <==> 400 <= c <= 499
  {
    StatusIsFailIff(Some(c));
    var t := c / 10;
    assert 10 <= t < 100;
    assert t / 10 == c / 100;
    assert LeadingDigit(t / 10) == t / 10;
    assert LeadingDigit(t) == LeadingDigit(t / 10);
    assert LeadingDigit(c) == LeadingDigit(t);
  }

  /** What callers see of `new AppError(m, code)`: a 4xx code gives "fail",
      a 5xx code or an undefined code gives "error". */
  lemma AppErrorStatus(message: string, code: Option<int>)
    ensures code.Some? && 400 <= code.value <= 499 ==> NewAppError(message, code).status == Some("fail")
    ensures code.Some? && 500 <= code.value <= 599 ==> NewAppError(message, code).status == Some("error")
    ensures code.None? ==> NewAppError(message, code).status == Some("error")
  {
    if code.Some? && 100 <= code.value <= 999 {
      StatusOfHttpCode(code.value);
    }
    StatusIsFailIff(code);
  }
}
