/**
 * The operational error of the API (api/utils/app-error.js): an error with a
 * message, an HTTP status code defaulting to 500, and a status word derived
 * from the decimal form of the code it was given.
 */
module AppErrors {
  import opened JsValues

  /** The fields an AppError carries besides its stack trace. */
  datatype AppErrorFields = AppErrorFields(message: string, statusCode: int, status: string, isOperational: bool)

  /** `${statusCode}` for a code that may be missing. */
  function CodeString(statusCode: Option<int>): string {
    if statusCode.Some? then IntToString(statusCode.value) else "undefined"
  }

  /** The leading decimal digit of a natural number. */
  function LeadingDigit(n: nat): (d: nat)
    ensures d < 10
    ensures n > 0 ==> d > 0
    decreases n
  {
    if n < 10 then n else LeadingDigit(n / 10)
  }

  /** `new AppError(message, statusCode)`, field by field. */
  function NewAppError(message: string, statusCode: Option<int>): (e: AppErrorFields)
    ensures e.message == message && e.isOperational
    ensures statusCode.Some? && statusCode.value != 0 ==> e.statusCode == statusCode.value
    ensures statusCode.None? || statusCode.value == 0 ==> e.statusCode == 500
    ensures e.status == "fail" || e.status == "error"
    ensures e.status == "fail" <==> StartsWith(CodeString(statusCode), "4")
  {
    AppErrorFields(
      message,
      if statusCode.Some? && statusCode.value != 0 then statusCode.value else 500,
      if StartsWith(CodeString(statusCode), "4") then "fail" else "error",
      true)
  }

  lemma {:induction false} NatToStringHead(n: nat)
    ensures NatToString(n)[0] == DigitChar(LeadingDigit(n))
    decreases n
  {
    if n >= 10 {
      NatToStringHead(n / 10);
      assert NatToString(n) == NatToString(n / 10) + [DigitChar(n % 10)];
    }
  }

  /** The status is 'fail' exactly for a non-negative code whose leading digit is 4. */
  lemma {:induction false} StatusFailIff(statusCode: Option<int>)
    ensures NewAppError("", statusCode).status == "fail" <==>
              statusCode.Some? && statusCode.value >= 0 && LeadingDigit(statusCode.value) == 4
  {
    var s := CodeString(statusCode);
    if statusCode.Some? {
      var n := statusCode.value;
      if n >= 0 {
        NatToStringHead(n);
        assert s[0] == DigitChar(LeadingDigit(n));
        assert StartsWith(s, "4") <==> s[0] == '4';
      } else {
        assert s[0] == '-';
      }
    } else {
      assert s[0] == 'u';
    }
  }

  /** Among three-digit HTTP codes, exactly the 4xx codes give 'fail'; a missing code gives 500 and 'error'. */
  lemma {:induction false} StatusOfHttpCodes(code: int)
    requires 100 <= code < 1000
    ensures NewAppError("", Some(code)).status == "fail" <==> 400 <= code < 500
    ensures NewAppError("", None) == AppErrorFields("", 500, "error", true)
  {
    StatusFailIff(Some(code));
    StatusFailIff(None);
    assert LeadingDigit(code) == code / 100 by {
      assert code / 10 >= 10;
      assert LeadingDigit(code) == LeadingDigit(code / 10) == LeadingDigit(code / 10 / 10);
      assert code / 10 / 10 == code / 100;
    }
  }

  /** An AppError as an object: its constructor assigns the fields once. */
  class AppError {
    const message: string
    const statusCode: int
    const status: string
    const isOperational: bool
    /** The stack trace the runtime records at construction. */
    const stack: string

    function Fields(): AppErrorFields {
      AppErrorFields(message, statusCode, status, isOperational)
    }

    constructor(message: string, statusCode: Option<int>, stack: string)
      ensures Fields() == NewAppError(message, statusCode)
      ensures this.stack == stack
    {
      this.message := message;
      this.statusCode := if statusCode.Some? && statusCode.value != 0 then statusCode.value else 500;
      this.status := if StartsWith(CodeString(statusCode), "4") then "fail" else "error";
      this.isOperational := true;
      this.stack := stack;
    }
  }
}
