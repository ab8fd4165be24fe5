/** The callees of the repository's tests, and what `tranqui` gives for
    each of the calls those tests make. */
module Scenarios {
  import opened JsValues
  import opened Promises
  import opened Tranqui

  /** `double`: throws `new Error('Negative not allowed')` for a negative
      argument, otherwise returns twice it. */
  function Double(): (fn: Callee<int, int>)
    ensures fn.Function?
    ensures forall n :: n >= 0 ==> fn.call(n) == Normal(Plain(2 * n))
    ensures forall n :: n < 0 ==> fn.call(n) == Abrupt(ErrorObject(NewError("Negative not allowed")))
  {
    Function((n: int) =>
      if n < 0 then Abrupt(ErrorObject(NewError("Negative not allowed")))
      else Normal(Plain(n * 2)))
  }

  /** `fetchUserName`: an async function, so its promise rejects with
      `Error('User not found')` for id 0 and otherwise fulfils with
      "User-" followed by the id. */
  function FetchUserName(): (fn: Callee<int, string>)
    ensures fn.Function?
    ensures fn.call(0) == Normal(Thenable(Rejected(ErrorObject(NewError("User not found")))))
    ensures forall id :: id != 0 ==> fn.call(id) == Normal(Thenable(Fulfilled("User-" + NumberToString(id))))
  {
    Function((id: int) =>
      if id == 0 then Normal(Thenable(Rejected(ErrorObject(NewError("User not found")))))
      else Normal(Thenable(Fulfilled("User-" + NumberToString(id)))))
  }

  /** `() => { throw 'boom' }`. */
  function ThrowsBoom(): (fn: Callee<(), int>)
    ensures fn.Function? && fn.call(()) == Abrupt(Str("boom"))
  {
    Function((u: ()) => Abrupt(Str("boom")))
  }

  lemma DoubleScenarios()
    ensures Tranqui.Tranqui(Double(), 5) == Fulfilled(Ok(10))
    ensures var r := Tranqui.Tranqui(Double(), -5).value;
            !r.ok && r.hasError && r.value == None
            && r.error == Some(NewError("Negative not allowed")) && r.errorValue == r.error
  {
    SuccessPathsAgree(Double().call, 5, 10);
    FailurePathsAgree(Double().call, -5, ErrorObject(NewError("Negative not allowed")));
  }

  lemma FetchUserNameScenarios()
    ensures Tranqui.Tranqui(FetchUserName(), 7) == Fulfilled(Ok("User-7"))
    ensures var r := Tranqui.Tranqui(FetchUserName(), 0).value;
            !r.ok && r.hasError && r.value == None
            && r.error.Some? && r.error.value.message == "User not found"
  {
    assert NumberToString(7) == "7";
    assert "User-" + NumberToString(7) == "User-7";
    SuccessPathsAgree(FetchUserName().call, 7, "User-7");
    FailurePathsAgree(FetchUserName().call, 0, ErrorObject(NewError("User not found")));
  }

  lemma NonErrorThrowIsNormalised()
    ensures var r := Tranqui.Tranqui(ThrowsBoom(), ()).value;
            !r.ok && r.hasError && r.error == Some(JsError("Error", "boom"))
  {
    FailurePathsAgree(ThrowsBoom().call, (), Str("boom"));
  }

  lemma UndefinedIsNotAFunction()
    ensures var r := Tranqui.Tranqui<int, int>(NotAFunction(Undefined), 0).value;
            !r.ok && r.hasError && r.value == None
            && r.error.Some? && r.error.value.message == "Invalid function"
  {
  }
}
