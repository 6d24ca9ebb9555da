/**
 * The error values that travel from a handler to the global error handler:
 * the API's own `AppError` and the errors thrown by the database layer, the
 * token library and the runtime, all seen through the fields the handler reads.
 */
module AppErrors {
  import opened Js

  /** A thrown error as the global error handler sees it. `statusCode`,
      `status` and `operational` are absent (None / false) on errors that
      were not built as an `AppError`; `path` and `value` are only read for a
      `CastError`. */
  datatype ErrorValue = ErrorValue(
    name: string,
    message: string,
    statusCode: Option<int>,
    status: Option<string>,
    operational: bool,
    path: string,
    value: string)

  /** `${statusCode}`.startsWith("4") ? "fail" : "error" */
  function StatusText(statusCode: int): string
  {
    if DecimalText(statusCode)[0] == '4' then "fail" else "error"
  }

  /** `new AppError(message, statusCode)`: the code is kept as given, the
      status text is derived from it, and the error is always operational. */
  function NewAppError(message: string, statusCode: int): (e: ErrorValue)
    ensures e.name == "Error" && e.message == message
    ensures e.statusCode == Some(statusCode)
    ensures e.status == Some(StatusText(statusCode))
    ensures e.operational
  {
    ErrorValue("Error", message, Some(statusCode), Some(StatusText(statusCode)), true, "undefined", "undefined")
  }

  /** An error thrown by code other than the API's own (`operational` unset). */
  function ForeignError(name: string, message: string): (e: ErrorValue)
    ensures e.name == name && e.message == message
    ensures e.statusCode.None? && e.status.None? && !e.operational
  {
    ErrorValue(name, message, None, None, false, "undefined", "undefined")
  }

  /** For a code of k + 1 digits the status is "fail" exactly when the code
      lies in [4 * 10^k, 5 * 10^k): 4, 40-49, 400-499, 4000-4999, ... */
  lemma StatusFailRange(statusCode: int, k: nat)
    requires Pow10(k) <= statusCode < 10 * Pow10(k)
    ensures StatusText(statusCode) == "fail" <==> 4 * Pow10(k) <= statusCode < 5 * Pow10(k)
  {
    DigitsStartWithLeadDigit(statusCode);
    LeadDigitFour(statusCode, k);
    assert DecimalText(statusCode) == Digits(statusCode);
    var d := LeadDigit(statusCode);
    assert DigitChar(d) == '4' <==> d == 4 by {
      assert "0123456789"[d] == '4' <==> d == 4;
    }
  }

  /** Zero and negative codes never count as client failures: their text
      starts with '0' or '-'. */
  lemma StatusOfNonPositive(statusCode: int)
    requires statusCode <= 0
    ensures StatusText(statusCode) == "error"
  {
    if statusCode == 0 {
      assert Digits(0) == "0";
    }
  }

  /** The codes the API raises, and the edge cases of the prefix test. */
  lemma StatusExamples()
    ensures StatusText(400) == "fail" && StatusText(401) == "fail" && StatusText(404) == "fail"
    ensures StatusText(4) == "fail" && StatusText(4000) == "fail"
    ensures StatusText(500) == "error" && StatusText(20) == "error" && StatusText(204) == "error"
  {
    assert Pow10(1) == 10 && Pow10(2) == 100 && Pow10(3) == 1000;
    StatusFailRange(400, 2);
    StatusFailRange(401, 2);
    StatusFailRange(404, 2);
    StatusFailRange(4, 0);
    StatusFailRange(4000, 3);
    StatusFailRange(500, 2);
    StatusFailRange(20, 1);
    StatusFailRange(204, 2);
  }
}
