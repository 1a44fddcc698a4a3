/** Model of appError.go: the composite error value, its fluent accessors and mutators, and the
    factory `GetAppErr`. `D` stands for the opaque `data` payload. */
module AppErrors {
  import opened Base
  import opened CustomError
  import opened TraceContext

  /** Everything an `AppError` holds, as a value: the underlying failure, the owned copy of the
      definition (code, message, retry hint), the code history, the HTTP status and the payload. */
  datatype ErrState<D> = ErrState(
    actualErr: Option<Failure>,
    code: string,
    message: string,
    retryable: bool,
    codes: seq<string>,
    httpCode: int,
    data: Option<D>)

  function Last(s: seq<string>): string
    requires s != []
  {
    s[|s| - 1]
  }

  /** The coupling the code keeps between the primary code and its history: the primary code is
      the latest entry of the history, and with an empty history it is still the empty default. */
  predicate CodeMatchesHistory<D>(s: ErrState<D>)
  {
    if s.codes == [] then s.code == "" else Last(s.codes) == s.code
  }

  /** The effect of one `AddErrCode(c)`: an empty code is ignored; any other becomes the primary
      code and is appended to the history. */
  function AddCode<D>(s: ErrState<D>, c: string): (r: ErrState<D>)
    ensures r.(code := s.code, codes := s.codes) == s
    ensures |s.codes| <= |r.codes| <= |s.codes| + 1
    ensures s.codes <= r.codes
    ensures CodeMatchesHistory(s) ==> CodeMatchesHistory(r)
  {
    if c == "" then s else s.(code := c, codes := s.codes + [c])
  }

  /** The effect of the chain `AddErrCode(cs[0]).AddErrCode(cs[1])...`, in call order. */
  function AddCodes<D>(s: ErrState<D>, cs: seq<string>): (r: ErrState<D>)
    ensures r.(code := s.code, codes := s.codes) == s
    ensures |s.codes| <= |r.codes| <= |s.codes| + |cs|
    decreases |cs|
  {
    if cs == [] then s else AddCodes(AddCode(s, cs[0]), cs[1..])
  }

  /** The non-empty entries of `cs`, in order. */
  function NonEmpty(cs: seq<string>): (r: seq<string>)
    ensures |r| <= |cs|
    ensures forall i :: 0 <= i < |r| ==> r[i] != ""
  {
    if cs == [] then []
    else (if cs[0] == "" then [] else [cs[0]]) + NonEmpty(cs[1..])
  }

  /** When no code of a chain is empty, none is skipped. */
  lemma {:induction false} NonEmptyKeepsNonEmptyCodes(cs: seq<string>)
    requires forall i :: 0 <= i < |cs| ==> cs[i] != ""
    ensures NonEmpty(cs) == cs
    decreases |cs|
  {
    if cs != [] {
      assert forall i :: 0 <= i < |cs[1..]| ==> cs[1..][i] == cs[i + 1];
      NonEmptyKeepsNonEmptyCodes(cs[1..]);
      assert cs == [cs[0]] + cs[1..];
    }
  }

  /** A chain of `AddErrCode` calls appends exactly its non-empty codes to the history, in call
      order; the primary code becomes the last of them (or stays as it was if there are none);
      nothing else changes. */
  lemma {:induction false} AddCodesHistory<D>(s: ErrState<D>, cs: seq<string>)
    ensures AddCodes(s, cs).codes == s.codes + NonEmpty(cs)
    ensures NonEmpty(cs) == [] ==> AddCodes(s, cs).code == s.code
    ensures NonEmpty(cs) != [] ==> AddCodes(s, cs).code == Last(NonEmpty(cs))
    ensures AddCodes(s, cs).(code := s.code, codes := s.codes) == s
    decreases |cs|
  {
    if cs != [] {
      var s' := AddCode(s, cs[0]);
      var head := if cs[0] == "" then [] else [cs[0]];
      AddCodesHistory(s', cs[1..]);
      assert NonEmpty(cs) == head + NonEmpty(cs[1..]);
      assert s'.codes == s.codes + head;
      assert AddCodes(s, cs).codes == s.codes + head + NonEmpty(cs[1..]);
      if NonEmpty(cs[1..]) != [] {
        assert Last(NonEmpty(cs)) == Last(NonEmpty(cs[1..]));
      }
    }
  }

  /** One more call at the end of a chain is one more `AddCode` step on the chain's result. */
  lemma {:induction false} AddCodesSnoc<D>(s: ErrState<D>, cs: seq<string>, c: string)
    ensures AddCodes(s, cs + [c]) == AddCode(AddCodes(s, cs), c)
    decreases |cs|
  {
    if cs == [] {
      assert [c][1..] == [];
    } else {
      assert (cs + [c])[1..] == cs[1..] + [c];
      AddCodesSnoc(AddCode(s, cs[0]), cs[1..], c);
    }
  }

  /** A chain of `AddErrCode` calls keeps the primary code equal to the latest history entry. */
  lemma AddCodesKeepMatch<D>(s: ErrState<D>, cs: seq<string>)
    requires CodeMatchesHistory(s)
    ensures CodeMatchesHistory(AddCodes(s, cs))
  {
    AddCodesHistory(s, cs);
    var ne := NonEmpty(cs);
    if ne != [] {
      assert Last(s.codes + ne) == Last(ne);
    }
  }

  /** `SetErrCode` does not touch the history, so any code other than the current one breaks the
      coupling that `AddErrCode` keeps. */
  lemma SetErrCodeBreaksMatch<D>(s: ErrState<D>, c: string)
    requires CodeMatchesHistory(s) && c != s.code
    ensures !CodeMatchesHistory(s.(code := c))
  {
  }

  /** The structured error. Its owned definition `CustomErr` is allocated by `GetAppErr` and
      never shared with the template it was copied from. */
  class AppError<D> {
    var ActualErr: Option<Failure>
    var CustomErr: CustomErr
    var ErrorCodes: seq<string>
    var httpCode: int
    var data: Option<D>

    /** The composite literal of `GetAppErr`: empty history, nil payload. */
    constructor (err: Option<Failure>, customErr: CustomErr, httpCode: int)
      ensures ActualErr == err && CustomErr == customErr && this.httpCode == httpCode
      ensures ErrorCodes == [] && data == None
    {
      ActualErr := err;
      CustomErr := customErr;
      this.httpCode := httpCode;
      ErrorCodes := [];
      data := None;
    }

    /** The value this object currently stands for. */
    ghost function State(): ErrState<D>
      reads this, CustomErr
    {
      ErrState(ActualErr, CustomErr.Code, CustomErr.Message, CustomErr.Retryable,
               ErrorCodes, httpCode, data)
    }

    /** The message of the underlying failure, or "" if there is none. It reads only the
        underlying failure, never the definition's message. */
    function Error(): (r: string)
      reads this`ActualErr
      ensures ActualErr.None? ==> r == ""
      ensures ActualErr.Some? ==> r == ActualErr.value.message
    {
      if ActualErr.None? then "" else ActualErr.value.message
    }

    function GetErr(): (r: Option<Failure>)
      reads this, CustomErr
      ensures r == State().actualErr
    {
      ActualErr
    }

    /** The owned definition's message, independent of the underlying failure. */
    function GetMsg(): (r: string)
      reads this, CustomErr
      ensures r == State().message
    {
      CustomErr.Message
    }

    function GetHTTPCode(): (r: int)
      reads this, CustomErr
      ensures r == State().httpCode
    {
      httpCode
    }

    function GetErrCode(): (r: string)
      reads this, CustomErr
      ensures r == State().code
    {
      CustomErr.Code
    }

    function GetErrCodes(): (r: seq<string>)
      reads this, CustomErr
      ensures r == State().codes
    {
      ErrorCodes
    }

    function GetData(): (r: Option<D>)
      reads this, CustomErr
      ensures r == State().data
    {
      data
    }

    /** Replaces the underlying failure and returns the new one. */
    method SetErr(err: Option<Failure>) returns (r: Option<Failure>)
      modifies this`ActualErr
      ensures r == err
      ensures State() == old(State()).(actualErr := err)
    {
      ActualErr := err;
      r := ActualErr;
    }

    /** Replaces the owned definition's message; returns this object for chaining. */
    method SetMsg(msg: string) returns (r: AppError<D>)
      modifies CustomErr`Message
      ensures r == this
      ensures State() == old(State()).(message := msg)
    {
      CustomErr.Message := msg;
      r := this;
    }

    method SetHTTPCode(httpCode: int) returns (r: AppError<D>)
      modifies this`httpCode
      ensures r == this
      ensures State() == old(State()).(httpCode := httpCode)
    {
      this.httpCode := httpCode;
      r := this;
    }

    /** Replaces the primary code without touching the history. */
    method SetErrCode(code: string) returns (r: AppError<D>)
      modifies CustomErr`Code
      ensures r == this
      ensures State() == old(State()).(code := code)
    {
      CustomErr.Code := code;
      r := this;
    }

    /** Adds a code: ignored if empty, otherwise it becomes the primary code and is appended to
        the history. Keeps the primary code equal to the latest history entry. */
    method AddErrCode(errorCode: string) returns (r: AppError<D>)
      modifies this`ErrorCodes, CustomErr`Code
      ensures r == this
      ensures State() == AddCode(old(State()), errorCode)
      ensures errorCode == "" ==> State() == old(State())
      ensures errorCode != "" ==> GetErrCode() == errorCode && GetErrCodes() == old(GetErrCodes()) + [errorCode]
      ensures CodeMatchesHistory(old(State())) ==> CodeMatchesHistory(State())
    {
      if errorCode != "" {
        CustomErr.Code := errorCode;
        ErrorCodes := ErrorCodes + [errorCode];
      }
      r := this;
    }

    /** Replaces the payload wholesale. */
    method SetData(data: Option<D>) returns (r: AppError<D>)
      modifies this`data
      ensures r == this
      ensures State() == old(State()).(data := data)
    {
      this.data := data;
      r := this;
    }
  }

  /** Builds an `AppError` from a non-nil failure, an optional template, a status and optional
      payloads, after appending the failure's message to the trace log carried by `ctx`. */
  method GetAppErr<D, V>(ctx: Ctx<V>, err: Failure, customErr: CustomErr?, httpCode: int, meta: seq<Option<D>>)
    returns (e: AppError<D>)
    modifies ctx.Footprint()
    ensures fresh(e) && fresh(e.CustomErr)
    ensures e.GetErr() == Some(err) && e.GetHTTPCode() == httpCode
    ensures e.Error() == err.message
    ensures e.GetData() == (if |meta| > 0 then meta[0] else None)
    ensures customErr != null ==>
      e.GetErrCode() == customErr.Code && e.GetMsg() == customErr.Message &&
      e.GetErrCodes() == [customErr.Code]
    ensures customErr == null ==>
      e.GetErrCode() == "" && e.GetMsg() == "" && e.GetErrCodes() == []
    ensures !e.CustomErr.Retryable
    ensures CodeMatchesHistory(e.State())
    ensures customErr != null ==>
      customErr.Code == old(customErr.Code) && customErr.Message == old(customErr.Message) &&
      customErr.Retryable == old(customErr.Retryable)
    ensures ctx.Ctx? && ctx.value.TraceMetaRef? ==>
      var t := ctx.value.meta;
      t.Error == old(t.Error) + [err.message] && t.Trace == old(t.Trace) &&
      t.IdentifierMappings == old(t.IdentifierMappings)
  {
    var _ := AddTraceLog(ctx, err.message);
    var owned := new CustomErr("", "", false);
    e := new AppError(Some(err), owned, httpCode);
    if |meta| > 0 {
      e.data := meta[0];
    }
    if customErr != null {
      e.CustomErr.Code := customErr.Code;
      e.CustomErr.Message := customErr.Message;
      e.ErrorCodes := e.ErrorCodes + [customErr.Code];
    }
  }

  /** A template construction followed by any chain of `AddErrCode` calls: the history is the
      template's code followed by the chain's non-empty codes, and the primary code is its
      latest entry. */
  method ChainAfterTemplate<D, V>(ctx: Ctx<V>, err: Failure, template: CustomErr, httpCode: int, cs: seq<string>)
    returns (e: AppError<D>)
    modifies ctx.Footprint()
    ensures e.GetErrCodes() == [template.Code] + NonEmpty(cs)
    ensures e.GetErrCode() == Last(e.GetErrCodes())
    ensures (forall i :: 0 <= i < |cs| ==> cs[i] != "") ==> e.GetErrCodes() == [template.Code] + cs
  {
    e := GetAppErr(ctx, err, template, httpCode, []);
    ghost var s0 := e.State();
    var i := 0;
    while i < |cs|
      invariant 0 <= i <= |cs|
      invariant fresh(e.CustomErr)
      invariant e.State() == AddCodes(s0, cs[..i])
    {
      AddCodesSnoc(s0, cs[..i], cs[i]);
      assert cs[..i + 1] == cs[..i] + [cs[i]];
      var r := e.AddErrCode(cs[i]);
      i := i + 1;
    }
    assert cs[..i] == cs;
    AddCodesHistory(s0, cs);
    AddCodesKeepMatch(s0, cs);
    if forall i :: 0 <= i < |cs| ==> cs[i] != "" {
      NonEmptyKeepsNonEmptyCodes(cs);
    }
  }

  /** Mutating the `AppError` returned by `GetAppErr` leaves the template it was built from
      untouched: the error owns a copy. */
  method MutationsSpareTemplate<D, V>(ctx: Ctx<V>, err: Failure, template: CustomErr, httpCode: int,
                                      msg: string, code: string, added: string)
    returns (e: AppError<D>)
    modifies ctx.Footprint()
    ensures e.CustomErr != template
    ensures template.Code == old(template.Code) && template.Message == old(template.Message) &&
      template.Retryable == old(template.Retryable)
    ensures e.GetMsg() == msg
    ensures e.GetErrCode() == (if added == "" then code else added)
  {
    e := GetAppErr(ctx, err, template, httpCode, []);
    var r := e.SetMsg(msg);
    r := r.SetErrCode(code);
    r := r.AddErrCode(added);
  }

  /** Mutating the template after `GetAppErr` leaves the `AppError` built from it untouched. */
  method TemplateMutationSparesError<D, V>(ctx: Ctx<V>, err: Failure, template: CustomErr, httpCode: int,
                                          code: string, msg: string)
    returns (e: AppError<D>)
    modifies ctx.Footprint(), template
    ensures template.Code == code && template.Message == msg
    ensures e.GetErrCode() == old(template.Code) && e.GetMsg() == old(template.Message)
    ensures e.GetErrCodes() == [old(template.Code)]
  {
    e := GetAppErr(ctx, err, template, httpCode, []);
    template.Code := code;
    template.Message := msg;
  }
}
