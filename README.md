# tranqui, modelled in Dafny

tranqui is a TypeScript utility. `tranqui(fn, ...args)` calls `fn` and reports what happened as a
`TranquiResult`. It is meant never to throw or reject itself, though as written it can
(see "## Findings"). The call may return a value, throw,
or return a promise that fulfils or rejects. A `TranquiResult` is either a success carrying the
value or a failure carrying an `Error`. `ok` tells the two apart. `value()`, `error()`
and `hasError()` read what was captured. Anything thrown that is not an `Error` is
normalised by `toError` into `new Error(String(e))`. A first argument that is not a
function gives a failure with the message "Invalid function", and nothing is called.

The model is pure: datatypes, functions and lemmas, in five modules.

- `JsValues` (js_values.dfy): the values a callee can throw or reject with, `Error`
  objects, and `String(e)` (`Stringify`). `Stringify` throws a `TypeError` exactly for an
  object with no primitive conversion.
- `Promises` (promises.dfy): settled promises, `Promise.resolve` (`PromiseResolve`) and the
  promise derived by `.then(onFulfilled, onRejected)` (`Then`).
- `Tranqui` (tranqui.dfy): the `TranquiResult` record and its invariant `Consistent`,
  plus `ToError`, `Ok`, `Fail` and `Tranqui`. It also holds `CallSettlement`, a reference
  definition of what the callee did, and the lemmas that connect them.
- `TranquiAsWritten` (tranqui_as_written.dfy): `toError`, `fail` and `tranqui` exactly as
  written, where `String(e)` may throw. See "## Findings".
- `Scenarios` (scenarios.dfy): the callees of the repository's tests and what `tranqui`
  gives for each call the tests make.

A promise is represented by how it settles (`Settlement`). A callee is `NotAFunction(v)` or
`Function(call)`, where `call` maps the arguments to a normal return or a throw. A normal
return is a plain value or a thenable that has already settled. Where `value()` or `error()`
returns `null`, the model has `None`. `ok` is the discriminator, because `ok(v)` stores any
`v`, `null` included.

## Model

| member | source | states |
|---|---|---|
| JsValues.NewError | src/index.ts:9 | `new Error(m)` is an Error named "Error" with message `m`, which `String` shows as "Error: m" (or "Error" for an empty message) |
| JsValues.NatToDecimal | src/index.ts:9 | The digits that `String` gives for a natural number: non-empty, all decimal digits, and more than one digit exactly from 10 up |
| JsValues.NatToDecimalDenotes | src/index.ts:9 | The digits of `n` denote `n` and, from 10 up, have no leading zero: they are the canonical numeral of `n` |
| JsValues.NumberToString | src/index.ts:9 | `String(n)` for an integral number: a minus sign exactly when negative, then a canonical numeral (no leading zero) whose value is the magnitude of `n` |
| JsValues.NumberToStringInjective | src/index.ts:9 | Distinct numbers get distinct strings, so distinct thrown numbers give distinct error messages |
| JsValues.Stringify | src/index.ts:9 | `String(e)` throws exactly for an object without a primitive conversion, and then throws a TypeError; a string converts to itself and an object to its primitive |
| Promises.PromiseResolveIdempotent | src/index.ts:41 | Resolving with a promise already resolved from `out` settles as resolving with `out`; only a thenable can make `Promise.resolve` reject |
| Promises.Then | src/index.ts:41-44 | The promise derived by `.then` rejects exactly when the chosen handler throws (with the thrown value) or returns a rejecting thenable; a plain handler result fulfils it and a returned thenable is adopted |
| Tranqui.Consistent | src/index.ts:1-27 | The result invariant: `hasError()` negates `ok`, `error()` is null exactly when `hasError()` is false, `value()` is null exactly when it is true, and `errorValue` is present exactly on failure and equals `error()` |
| Tranqui.ToError | src/index.ts:9 | An Error is returned unchanged; any other value becomes an Error named "Error" whose message is its string conversion; a failing conversion yields the TypeError it throws |
| Tranqui.ToErrorIdempotent | src/index.ts:9 | Normalising an already-normalised error changes nothing |
| Tranqui.Ok | src/index.ts:11-16 | A success keeps the invariant: `ok`, no `hasError()`, `value()` is the stored value, `error()` null and no `errorValue` |
| Tranqui.Fail | src/index.ts:18-27 | A failure keeps the invariant: not `ok`, `hasError()`, `value()` null, and `error()` and `errorValue` both the normalised error |
| Tranqui.ConsistentIsBuilt | src/index.ts:1-27 | Every record that keeps the invariant is exactly `ok` of its payload or `fail` of its error, so the invariant characterises what `ok` and `fail` build |
| Tranqui.Tranqui | src/index.ts:29-49 | The returned promise always fulfils, with a result that keeps the invariant; a non-function gives `fail(new Error('Invalid function'))` |
| Tranqui.Reify | src/index.ts:41-43 | A fulfilment becomes a success with the fulfilled value, a rejection a failure with the normalised reason; success exactly for fulfilment |
| Tranqui.TranquiReifiesCall | src/index.ts:33-48 | `tranqui` fulfils with the reified settlement of the call, for every callee and argument list; the settlement (`CallSettlement`, a reference definition) is the guard's failure, the synchronous throw, or how `Promise.resolve` of the returned value settles |
| Tranqui.NotAFunctionFails | src/index.ts:33-37 | A non-function gives a failure with null value and message "Invalid function", the same result whatever the arguments, since nothing is called |
| Tranqui.SuccessPathsAgree | src/index.ts:40-42 | A synchronous return of `v` and a thenable that fulfils with `v` both give `ok(v)` |
| Tranqui.FailurePathsAgree | src/index.ts:43-47 | A synchronous throw of `x` and a thenable that rejects with `x` both give `fail(x)`, with error `toError(x)` |
| Tranqui.TranquiOkIff | src/index.ts:38-44 | The result is a success exactly when the callee is a function that returned something that fulfils, and its value is the fulfilled value |
| TranquiAsWritten.ToErrorAsWritten | src/index.ts:9 | `toError` as written throws exactly for an object without a primitive conversion, with a TypeError; otherwise it agrees with `Tranqui.ToError` |
| TranquiAsWritten.FailAsWritten | src/index.ts:18-27 | `fail` as written throws exactly when its `toError` does; otherwise it agrees with `Tranqui.Fail` |
| TranquiAsWritten.Handler | src/index.ts:43 | The rejection arm `(e) => fail(e)` returns the failure as a plain value and throws exactly what `fail` threw |
| TranquiAsWritten.TranquiAsWritten | src/index.ts:29-49 | `tranqui` as written throws synchronously only when the callee throws an object without a primitive conversion |
| TranquiAsWritten.AsWrittenAgreesUnlessUnconvertible | src/index.ts:38-48 | The code as written returns the model's promise exactly when the call does not fail with a value whose string conversion throws |
| TranquiAsWritten.UnconvertibleEscapes | src/index.ts:45-47 | Counterexample: as written, a throw of an unconvertible object escapes synchronously and a rejection with one rejects the returned promise; the model fails with the TypeError instead |
| Scenarios.Double | tests/tranqui.test.ts:4-7 | `double` throws "Negative not allowed" for a negative argument and otherwise returns twice it |
| Scenarios.FetchUserName | tests/tranqui.test.ts:9-12 | `fetchUserName` rejects with "User not found" for id 0 and otherwise fulfils with "User-" and the id |
| Scenarios.ThrowsBoom | tests/tranqui.test.ts:51-53 | The argument-less callee throws the string 'boom' |
| Scenarios.DoubleScenarios | tests/tranqui.test.ts:15-31 | `double(5)` gives `ok(10)`; `double(-5)` gives a failure with null value and error "Negative not allowed", also as `errorValue` |
| Scenarios.FetchUserNameScenarios | tests/tranqui.test.ts:33-48 | `fetchUserName(7)` gives `ok("User-7")`; `fetchUserName(0)` gives a failure with error "User not found" |
| Scenarios.NonErrorThrowIsNormalised | tests/tranqui.test.ts:50-58 | Throwing the string 'boom' gives a failure whose error is an Error with message "boom" |
| Scenarios.UndefinedIsNotAFunction | tests/tranqui.test.ts:81-90 | `tranqui(undefined)` gives a failure with null value and message "Invalid function" |

## Left out

- Scheduling is not modelled. The guarantee that `fn` runs synchronously, before `tranqui` returns (src/index.ts:39-41), is about the event loop. The model only has the settled outcome.
- Promises that never settle are not modelled. Every thenable here has already settled, so the case where the callee's promise never settles, and then neither does tranqui's, is outside the model.
- Nested thenables are not modelled. A thenable that fulfils with another thenable is flattened by `Awaited` and by promise adoption (src/index.ts:32, 41). The model treats the callee's value as already flat.
- `typeof fn !== 'function'` and `instanceof Error` (src/index.ts:9, 33) are constructor tests on the datatypes. Cross-realm Errors, which fail `instanceof Error`, are not distinguished.
- Numbers are the safe integers (magnitude at most 2^53 - 1), on which `String` prints the plain numeral. Larger numbers are left out: above 2^53 JavaScript prints a rounded numeral, and from 10^21 up an exponent form such as "1e+21". NaN, the infinities, fractions and -0 are left out too.
- An object's string conversion is carried as data: its primitive, or none when conversion throws. `toString`, `valueOf` and `Symbol.toPrimitive` are not modelled. A custom conversion that throws its own value is modelled as the TypeError case. Symbols, BigInts and functions convert without throwing, like an object with a primitive.
- Object identity is not modelled. `toError` returns the thrown Error itself, and the model returns an equal value. Stack traces and `cause` are not modelled.
- Accessor constancy holds by construction. `value()`, `error()` and `hasError()` are closures over values captured once (src/index.ts:13-15, 23-25), so the model has them as record fields. No separate lemma is needed.
- The argument list `...args` is one value of a type parameter.
- In JavaScript, `value()` returns `null` both for a failure and for `ok(null)`. The model keeps the stored value, so `Some` of it. Callers tell the two apart with `ok`, as the source intends.
- examples/try.ts, vitest.config.ts and tsup.config.ts are not part of this model: a console demo and build configuration.

## Findings

| source | as written | input that shows it | evidently intended | confidence | as-written member | corrected member |
|---|---|---|---|---|---|---|
| src/index.ts:9 | `toError` calls `String(e)` unguarded. A throw from it escapes the `catch` arm (src/index.ts:45-47) synchronously and rejects the promise from the `.then` rejection arm (src/index.ts:43) | a callee that throws, or rejects with, `Object.create(null)`; `String` of it throws a TypeError | `tranqui` never throws or rejects, and every failure carries an Error | not executed; high for the escape, the TypeError as the reported error is a choice | TranquiAsWritten.UnconvertibleEscapes | Tranqui.Tranqui |

The corrected `Tranqui.ToError` normalises the TypeError that the conversion throws, instead
of propagating it. `TranquiAsWritten.AsWrittenAgreesUnlessUnconvertible` proves that this
is the only difference: the code as written and the model agree on every other call.
