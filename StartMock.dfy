/** The earlier start page: login and signup against the `{ success, error }` API, with only
    the gender checked on the client, and the same four-page guide. */
module StartMock {
  import opened Base
  import Start

  const GenderMissing: string := "성별을 선택해주세요"
  const LoginFallback: string := "로그인에 실패했습니다"
  const SignupFallback: string := "회원가입에 실패했습니다"
  const SignupDone: string := "회원가입 완료! 로그인해주세요."

  class MockStartPage {
    var isLogin: bool
    var currentPage: int
    var email: string
    var password: string
    var name: string
    var gender: string
    var error: string
    var loading: bool

    ghost predicate Valid()
      reads this
    {
      0 <= currentPage < Start.GuidePageCount
    }

    constructor ()
      ensures Valid() && isLogin && currentPage == 0 && !loading
      ensures email == "" && password == "" && name == "" && gender == "" && error == ""
    {
      isLogin := true;
      currentPage := 0;
      email, password, name, gender := "", "", "", "";
      error := "";
      loading := false;
    }

    /** handleLogin: a successful answer goes to the main page; otherwise the error shown is
        the answer's message or the fallback. */
    method HandleLogin(outcome: ApiOutcome) returns (route: Option<Route>)
      requires Valid()
      modifies this`error, this`loading
      ensures Valid() && !loading
      ensures route.Some? <==> outcome.Response? && outcome.success
      ensures route.Some? ==> route.value == MainRoute && error == ""
      ensures route.None? ==> error == FailureMessage(outcome, LoginFallback).value && error != ""
    {
      error := "";
      loading := true;
      route := None;
      match outcome {
        case Response(success, message) =>
          if success {
            route := Some(MainRoute);
          } else {
            error := OrElse(message, LoginFallback);
          }
        case Threw =>
          error := LoginFallback;
      }
      loading := false;
    }

    /** handleSignup: without a gender nothing is sent; a successful signup switches to login
        mode and alerts, keeping the typed fields; a failure shows the error. */
    method HandleSignup(outcome: ApiOutcome) returns (called: bool, alert: Option<string>)
      requires Valid()
      modifies this`error, this`loading, this`isLogin
      ensures Valid()
      ensures called <==> old(gender) != ""
      ensures !called ==> error == GenderMissing && alert == None && isLogin == old(isLogin) && loading == old(loading)
      ensures called ==> !loading
      ensures called && outcome.Response? && outcome.success ==> isLogin && error == "" && alert == Some(SignupDone)
      ensures called && FailureMessage(outcome, SignupFallback).Some? ==>
                isLogin == old(isLogin) && alert == None && error == FailureMessage(outcome, SignupFallback).value
    {
      error := "";
      alert := None;
      if gender == "" {
        error := GenderMissing;
        return false, None;
      }
      called := true;
      loading := true;
      match outcome {
        case Response(success, message) =>
          if success {
            isLogin := true;
            error := "";
            alert := Some(SignupDone);
          } else {
            error := OrElse(message, SignupFallback);
          }
        case Threw =>
          error := SignupFallback;
      }
      loading := false;
    }

    /** The "sign up" / "login" switch of this page: flips the mode and clears only the error. */
    method ToggleMode()
      requires Valid()
      modifies this`isLogin, this`error
      ensures Valid() && isLogin == !old(isLogin) && error == ""
    {
      isLogin := !isLogin;
      error := "";
    }

    /** The guide's previous button. */
    method GuidePrev()
      requires Valid()
      modifies this`currentPage
      ensures Valid() && currentPage == Start.PrevGuidePage(old(currentPage))
    {
      currentPage := Start.PrevGuidePage(currentPage);
    }

    /** The guide's next button. */
    method GuideNext()
      requires Valid()
      modifies this`currentPage
      ensures Valid() && currentPage == Start.NextGuidePage(old(currentPage))
    {
      currentPage := Start.NextGuidePage(currentPage);
    }

    /** The "Page n of 4" caption. */
    function PageCaption(): (n: int)
      reads this
      requires Valid()
      ensures 1 <= n <= Start.GuidePageCount
    {
      currentPage + 1
    }
  }
}
