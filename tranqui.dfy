/** The result-normalising wrapper: the `TranquiResult` value, the `toError`
    normalisation, the `ok` and `fail` constructors and `tranqui` itself,
    which calls a callee and reports what it did as a `TranquiResult` carried
    by a promise that always fulfils. */
module Tranqui {
  import opened JsValues
  import opened Promises

  /** The object a call produces. Each field is what the matching member of
      the object literal yields: `value()` and `error()` (None standing for
      `null`), `hasError()`, the `ok` flag and the optional `errorValue`
      (None when the property is absent). The accessors are closures over
      values captured once, so they are plain fields here. */
  datatype TranquiResult<T> = TranquiResult(
    ok: bool,
    value: Option<T>,
    error: Option<JsError>,
    hasError: bool,
    errorValue: Option<JsError>)

  /** The invariant every result keeps: `hasError()` negates `ok`, exactly
      one of the payload and the error is present, chosen by `ok`, and
      `errorValue` is what `error()` returns. */
  predicate Consistent<T>(r: TranquiResult<T>): (b: bool)
    ensures b ==> (r.error.None? <==> !r.hasError) && (r.value.None? <==> r.hasError)
    ensures b ==> (r.ok ==> r.errorValue.None?) && (!r.ok ==> r.errorValue.Some?)
  {
    && r.hasError == !r.ok
    && (r.value.Some? <==> r.ok)
    && (r.error.None? <==> r.ok)
    && r.errorValue == r.error
  }

  /** `toError`: an Error is kept as it is; any other value becomes a new
      Error whose message is its string conversion. When that conversion
      itself throws, the error it throws is normalised in turn, so that
      `toError` never throws (see the findings in the README). */
  function ToError(e: JsValue): (err: JsError)
    ensures e.ErrorObject? ==> err == e.err
    ensures !e.ErrorObject? && Stringify(e).Normal? ==>
              err.name == "Error" && err.message == Stringify(e).value
    ensures Stringify(e).Abrupt? ==> err == NoPrimitiveConversion
    decreases if e.ErrorObject? then 0 else 1
  {
    if e.ErrorObject? then e.err
    else match Stringify(e)
      case Normal(s) => NewError(s)
      case Abrupt(x) => ToError(x)
  }

  /** Normalising twice is normalising once. */
  lemma ToErrorIdempotent(e: JsValue)
    ensures ToError(ErrorObject(ToError(e))) == ToError(e)
  {
  }

  /** `ok(v)`: a success carrying `v`, whatever `v` is (also `null`). */
  function Ok<T>(v: T): (r: TranquiResult<T>)
    ensures Consistent(r)
    ensures r.ok && !r.hasError
    ensures r.value == Some(v) && r.error == None && r.errorValue == None
  {
    TranquiResult(true, Some(v), None, false, None)
  }

  /** `fail(e)`: a failure whose `error()` and `errorValue` are both the
      normalised error and whose `value()` is null. */
  function Fail<T>(e: JsValue): (r: TranquiResult<T>)
    ensures Consistent(r)
    ensures !r.ok && r.hasError
    ensures r.value == None
    ensures r.error == Some(ToError(e)) && r.errorValue == Some(ToError(e))
  {
    var err := ToError(e);
    TranquiResult(false, None, Some(err), true, Some(err))
  }

  /** The invariant characterises the results `ok` and `fail` build: every
      consistent record is `ok` of its payload or `fail` of its error. */
  lemma ConsistentIsBuilt<T>(r: TranquiResult<T>)
    requires Consistent(r)
    ensures r.ok ==> r == Ok(r.value.value)
    ensures !r.ok ==> r == Fail(ErrorObject(r.error.value))
  {
  }

  /** What `tranqui` is handed as its first argument: something that is not
      a function, or a function that, applied to the arguments, returns a
      value (possibly a thenable) or throws. */
  datatype Callee<!A, T> =
    | NotAFunction(v: JsValue)
    | Function(call: A -> Completion<Returned<T>>)

  const InvalidFunction: JsError := NewError("Invalid function")

  /** `tranqui(fn, ...args)`, as the settlement of the promise it returns. */
  function Tranqui<A, T>(fn: Callee<A, T>, args: A): (p: Settlement<TranquiResult<T>>)
    ensures p.Fulfilled? && Consistent(p.value)
    ensures fn.NotAFunction? ==> p == Fulfilled(Fail(ErrorObject(InvalidFunction)))
  {
    match fn
    case NotAFunction(_) =>
      PromiseResolve(Plain(Fail<T>(ErrorObject(InvalidFunction))))
    case Function(call) =>
      match call(args)
      case Normal(out) =>
        Then(PromiseResolve(out),
             (v: T) => Normal(Plain(Ok(v))),
             (e: JsValue) => Normal(Plain(Fail<T>(e))))
      case Abrupt(x) =>
        PromiseResolve(Plain(Fail<T>(x)))
  }

  /** Reference definition of what the call did, without the promise
      chaining: the guard's failure, the synchronous throw, or how
      `Promise.resolve` of the returned value settles. */
  function CallSettlement<A, T>(fn: Callee<A, T>, args: A): Settlement<T> {
    match fn
    case NotAFunction(_) => Rejected(ErrorObject(InvalidFunction))
    case Function(call) =>
      match call(args)
      case Normal(out) => PromiseResolve(out)
      case Abrupt(x) => Rejected(x)
  }

  /** A settlement turned into a result: fulfilment into `ok`, rejection
      into `fail`. */
  function Reify<T>(s: Settlement<T>): (r: TranquiResult<T>)
    ensures Consistent(r)
    ensures r.ok <==> s.Fulfilled?
    ensures s.Fulfilled? ==> r.value == Some(s.value)
    ensures s.Rejected? ==> r.error == Some(ToError(s.reason))
  {
    match s
    case Fulfilled(v) => Ok(v)
    case Rejected(x) => Fail(x)
  }

  /** `tranqui` always fulfils, with the call's own settlement reified:
      whichever way the callee succeeded or failed, the result says so. */
  lemma TranquiReifiesCall<A, T>(fn: Callee<A, T>, args: A)
    ensures Tranqui(fn, args) == Fulfilled(Reify(CallSettlement(fn, args)))
  {
    match fn
    case NotAFunction(_) =>
    case Function(call) =>
      match call(args)
      case Normal(out) => {
        match PromiseResolve(out)
        case Fulfilled(v) =>
        case Rejected(x) =>
      }
      case Abrupt(x) =>
  }

  /** The guard: a non-function fails with exactly the message
      "Invalid function", the same whatever the arguments, since nothing is
      called. */
  lemma NotAFunctionFails<A, T>(v: JsValue, args1: A, args2: A)
    ensures var r := Tranqui<A, T>(NotAFunction(v), args1);
            r.Fulfilled? && !r.value.ok && r.value.hasError && r.value.value == None
            && r.value.error.Some? && r.value.error.value.message == "Invalid function"
    ensures Tranqui<A, T>(NotAFunction(v), args1) == Tranqui<A, T>(NotAFunction(v), args2)
  {
  }

  /** The success paths agree: a synchronous return of `v` and a thenable
      that fulfils with `v` both give `ok(v)`. */
  lemma SuccessPathsAgree<A, T>(call: A -> Completion<Returned<T>>, args: A, v: T)
    requires call(args) == Normal(Plain(v)) || call(args) == Normal(Thenable(Fulfilled(v)))
    ensures Tranqui(Function(call), args) == Fulfilled(Ok(v))
  {
    TranquiReifiesCall(Function(call), args);
  }

  /** The failure paths agree: a synchronous throw of `x` and a thenable
      that rejects with `x` both give `fail(x)`, with the same normalised
      error. */
  lemma FailurePathsAgree<A, T>(call: A -> Completion<Returned<T>>, args: A, x: JsValue)
    requires call(args) == Abrupt(x) || call(args) == Normal(Thenable(Rejected(x)))
    ensures Tranqui(Function(call), args) == Fulfilled(Fail(x))
    ensures Tranqui(Function(call), args).value.error == Some(ToError(x))
  {
    TranquiReifiesCall(Function(call), args);
  }

  /** Success exactly when the callee is a function that returned normally
      with something that fulfils; the payload is what it fulfilled with. */
  lemma TranquiOkIff<A, T>(fn: Callee<A, T>, args: A)
    ensures var r := Tranqui(fn, args).value;
            r.ok <==> (fn.Function? && fn.call(args).Normal?
                       && PromiseResolve(fn.call(args).value).Fulfilled?)
    ensures var r := Tranqui(fn, args).value;
            r.ok ==> r.value == Some(PromiseResolve(fn.call(args).value).value)
  {
    TranquiReifiesCall(fn, args);
  }
}
