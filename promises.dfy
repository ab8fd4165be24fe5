/** The part of the Promise machinery `tranqui` relies on, reduced to settled
    outcomes: what `Promise.resolve(out)` settles to and what the promise
    derived by `.then(onFulfilled, onRejected)` settles to. */
module Promises {
  import opened JsValues

  /** How a promise settles. */
  datatype Settlement<+T> = Fulfilled(value: T) | Rejected(reason: JsValue)

  /** What a callee or a handler returns: a plain value, or a thenable
      that has already settled. */
  datatype Returned<+T> = Plain(value: T) | Thenable(settles: Settlement<T>)

  /** `Promise.resolve(out)`: a plain value is fulfilled as it is, a thenable
      is adopted, so the promise settles as the thenable does. */
  function PromiseResolve<T>(out: Returned<T>): Settlement<T> {
    match out
    case Plain(v) => Fulfilled(v)
    case Thenable(s) => s
  }

  /** Resolving is idempotent: resolving with a promise that was itself
      resolved from `out` settles as resolving with `out` does. Only a
      thenable can make the promise reject. */
  lemma PromiseResolveIdempotent<T>(out: Returned<T>)
    ensures PromiseResolve(Thenable(PromiseResolve(out))) == PromiseResolve(out)
    ensures PromiseResolve(out).Rejected? ==> out.Thenable?
  {
  }

  /** The promise that `promise.then(onFulfilled, onRejected)` returns: the
      handler matching the settlement runs once; it rejects exactly when
      that handler throws (with what it threw) or returns a thenable that
      rejects; a thenable the handler returns is adopted. */
  function Then<T, U>(s: Settlement<T>,
                      onFulfilled: T -> Completion<Returned<U>>,
                      onRejected: JsValue -> Completion<Returned<U>>): (p: Settlement<U>)
    ensures var c := if s.Fulfilled? then onFulfilled(s.value) else onRejected(s.reason);
            p.Rejected? <==> (c.Abrupt? || (c.Normal? && c.value.Thenable? && c.value.settles.Rejected?))
    ensures var c := if s.Fulfilled? then onFulfilled(s.value) else onRejected(s.reason);
            c.Abrupt? ==> p == Rejected(c.thrown)
    ensures var c := if s.Fulfilled? then onFulfilled(s.value) else onRejected(s.reason);
            c.Normal? && c.value.Plain? ==> p == Fulfilled(c.value.value)
    ensures var c := if s.Fulfilled? then onFulfilled(s.value) else onRejected(s.reason);
            c.Normal? && c.value.Thenable? ==> p == c.value.settles
  {
    var c := match s
      case Fulfilled(v) => onFulfilled(v)
      case Rejected(x) => onRejected(x);
    match c
    case Normal(out) => PromiseResolve(out)
    case Abrupt(x) => Rejected(x)
  }
}
