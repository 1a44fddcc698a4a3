/** Model of customError.go: the reusable error definition `{Code, Message, Retryable}`. */
module CustomError {

  /** A structured error definition. Callers hold it by pointer, and its fields are public,
      so it is an object whose fields may be assigned. */
  class CustomErr {
    var Code: string       // the code an API response reports
    var Message: string    // the human-readable message
    var Retryable: bool    // advisory hint for callers; never interpreted here

    /** The composite literal `&CustomErr{Code: code, Message: msg, Retryable: retryable}`. */
    constructor (code: string, msg: string, retryable: bool)
      ensures Code == code && Message == msg && Retryable == retryable
    {
      Code := code;
      Message := msg;
      Retryable := retryable;
    }
  }

  /** Builds a definition: total over all strings, no validation, always a new object. */
  method GetCustomErr(code: string, msg: string, retryable: bool) returns (c: CustomErr)
    ensures fresh(c)
    ensures c.Code == code && c.Message == msg && c.Retryable == retryable
  {
    c := new CustomErr(code, msg, retryable);
  }
}
