/** `toError`, `fail` and `tranqui` exactly as src/index.ts writes them, where
    `String(e)` inside `toError` may throw. That throw is not caught: in the
    `catch` arm it escapes `tranqui` synchronously, and in the rejection arm
    of `.then` it rejects the promise `tranqui` returns. The model in module
    Tranqui normalises that throw instead; the lemmas here say exactly when
    the two differ. */
module TranquiAsWritten {
  import opened JsValues
  import opened Promises
  import T = Tranqui

  /** `toError` as written: it throws whatever `String(e)` throws. */
  function ToErrorAsWritten(e: JsValue): (c: Completion<JsError>)
    ensures c.Abrupt? <==> e == Obj(None)
    ensures c.Abrupt? ==> c.thrown == ErrorObject(NoPrimitiveConversion)
    ensures c.Normal? ==> c.value == T.ToError(e)
  {
    if e.ErrorObject? then Normal(e.err)
    else match Stringify(e)
      case Normal(s) => Normal(NewError(s))
      case Abrupt(x) => Abrupt(x)
  }

  /** `fail` as written: it throws when its `toError` call throws. */
  function FailAsWritten<U>(e: JsValue): (c: Completion<T.TranquiResult<U>>)
    ensures c.Abrupt? <==> e == Obj(None)
    ensures c.Normal? ==> c.value == T.Fail(e)
  {
    match ToErrorAsWritten(e)
    case Normal(err) => Normal(T.TranquiResult(false, None, Some(err), true, Some(err)))
    case Abrupt(x) => Abrupt(x)
  }

  /** The rejection handler `(e) => fail(e)`, given how its `fail(e)` call
      ended: it returns the failure as a plain value, never a thenable, and
      throws exactly what `fail` threw. */
  function Handler<U>(c: Completion<T.TranquiResult<U>>): (h: Completion<Returned<T.TranquiResult<U>>>)
    ensures h.Abrupt? <==> c.Abrupt?
    ensures h.Abrupt? ==> h.thrown == c.thrown
    ensures h.Normal? ==> h.value.Plain? && h.value.value == c.value
  {
    match c
    case Normal(r) => Normal(Plain(r))
    case Abrupt(x) => Abrupt(x)
  }

  /** `tranqui(fn, ...args)` as written: either it throws synchronously, or
      it returns a promise, given by how that promise settles. */
  function TranquiAsWritten<A, U>(fn: T.Callee<A, U>, args: A): (c: Completion<Settlement<T.TranquiResult<U>>>)
    ensures c.Abrupt? ==> fn.Function? && fn.call(args) == Abrupt(Obj(None))
  {
    match fn
    case NotAFunction(_) =>
      (match FailAsWritten<U>(ErrorObject(T.InvalidFunction))
       case Normal(r) => Normal(PromiseResolve(Plain(r)))
       case Abrupt(x) => Abrupt(x))
    case Function(call) =>
      match call(args)
      case Normal(out) =>
        Normal(Then(PromiseResolve(out),
                    (v: U) => Normal(Plain(T.Ok(v))),
                    (e: JsValue) => Handler(FailAsWritten<U>(e))))
      case Abrupt(x) =>
        match FailAsWritten<U>(x)
        case Normal(r) => Normal(PromiseResolve(Plain(r)))
        case Abrupt(y) => Abrupt(y)
  }

  /** The code as written behaves as the model exactly when the call does
      not fail with a value whose string conversion throws. */
  lemma AsWrittenAgreesUnlessUnconvertible<A, U>(fn: T.Callee<A, U>, args: A)
    ensures (TranquiAsWritten(fn, args) == Normal(T.Tranqui(fn, args)))
            <==> (T.CallSettlement(fn, args) != Rejected(Obj(None)))
  {
    T.TranquiReifiesCall(fn, args);
    match fn
    case NotAFunction(_) =>
    case Function(call) =>
      match call(args)
      case Normal(out) => {
        match PromiseResolve(out)
        case Fulfilled(v) =>
        case Rejected(x) =>
      }
      case Abrupt(x) =>
  }

  /** A callee that throws an object without a primitive conversion. */
  function ThrowsUnconvertible(): T.Callee<int, int> {
    T.Function((n: int) => Abrupt(Obj(None)))
  }

  /** A callee whose returned promise rejects with such an object. */
  function RejectsUnconvertible(): T.Callee<int, int> {
    T.Function((n: int) => Normal(Thenable(Rejected(Obj(None)))))
  }

  /** The counterexample: as written, `tranqui` throws the TypeError of the
      failed conversion for the first callee, and returns a promise that
      rejects with it for the second; the model fails with it instead. */
  lemma UnconvertibleEscapes()
    ensures TranquiAsWritten(ThrowsUnconvertible(), 0) == Abrupt(ErrorObject(NoPrimitiveConversion))
    ensures TranquiAsWritten(RejectsUnconvertible(), 0) == Normal(Rejected(ErrorObject(NoPrimitiveConversion)))
    ensures T.Tranqui(ThrowsUnconvertible(), 0) == Fulfilled(T.Fail(ErrorObject(NoPrimitiveConversion)))
    ensures T.Tranqui(RejectsUnconvertible(), 0) == Fulfilled(T.Fail(ErrorObject(NoPrimitiveConversion)))
  {
    T.FailurePathsAgree(ThrowsUnconvertible().call, 0, Obj(None));
    T.FailurePathsAgree(RejectsUnconvertible().call, 0, Obj(None));
  }
}
