/** The start page: login, signup with client-side validation, and the four-page guide. */
module Start {
  import opened Base

  /** A character matched by `\s` in a JavaScript regular expression. */
  predicate IsWhitespace(c: char) {
    var n := c as int;
    (0x09 <= n <= 0x0D) || n == 0x20 || n == 0xA0 || n == 0x1680 || (0x2000 <= n <= 0x200A)
    || n == 0x2028 || n == 0x2029 || n == 0x202F || n == 0x205F || n == 0x3000 || n == 0xFEFF
  }

  /** The position of the first `c` in `s`, or `|s|` when there is none. */
  function IndexOf(s: string, c: char): (r: nat)
    ensures r <= |s|
    ensures r < |s| ==> s[r] == c
    ensures forall k :: 0 <= k < r ==> s[k] != c
  {
    if s == [] then 0
    else if s[0] == c then 0
    else 1 + IndexOf(s[1..], c)
  }

  predicate NoWhitespace(s: string) {
    forall k :: 0 <= k < |s| ==> !IsWhitespace(s[k])
  }

  /** A '.' that is neither the first nor the last character. */
  predicate HasInnerDot(d: string) {
    exists k :: 0 < k < |d| - 1 && d[k] == '.'
  }

  /** The e-mail check by its parts: no whitespace, exactly one '@' (the first '@' has no
      other after it), a non-empty local part, and a domain with an inner '.'. */
  predicate IsValidEmail(s: string) {
    var at := IndexOf(s, '@');
    && NoWhitespace(s)
    && 0 < at < |s|
    && '@' !in s[at + 1..]
    && HasInnerDot(s[at + 1..])
  }

  /** A run of `[^\s@]` characters. */
  predicate Plain(run: string) {
    forall k :: 0 <= k < |run| ==> !IsWhitespace(run[k]) && run[k] != '@'
  }

  /** The language of `^[^\s@]+@[^\s@]+\.[^\s@]+$`: the string splits at an '@' (index i) and
      a later '.' (index j) into three non-empty `[^\s@]` runs. */
  ghost predicate MatchesEmailRegex(s: string) {
    exists i, j :: 0 < i && i + 1 < j && j + 1 < |s| && s[i] == '@' && s[j] == '.'
      && Plain(s[..i]) && Plain(s[i + 1..j]) && Plain(s[j + 1..])
  }

  /** The e-mail check accepts exactly the strings the signup regex matches. */
  lemma IsValidEmailMatchesRegex(s: string)
    ensures IsValidEmail(s) <==> MatchesEmailRegex(s)
  {
    if IsValidEmail(s) {
      ValidEmailMatches(s);
    }
    if MatchesEmailRegex(s) {
      var i, j :| 0 < i && i + 1 < j && j + 1 < |s| && s[i] == '@' && s[j] == '.'
        && Plain(s[..i]) && Plain(s[i + 1..j]) && Plain(s[j + 1..]);
      MatchIsValidEmail(s, i, j);
    }
  }

  lemma ValidEmailMatches(s: string)
    requires IsValidEmail(s)
    ensures MatchesEmailRegex(s)
  {
    var i := IndexOf(s, '@');
    var d := s[i + 1..];
    var k :| 0 < k < |d| - 1 && d[k] == '.';
    var j := i + 1 + k;
    assert s[j] == d[k];
    assert Plain(s[..i]) by {
      forall m | 0 <= m < i ensures !IsWhitespace(s[..i][m]) && s[..i][m] != '@' {
        assert s[..i][m] == s[m];
      }
    }
    var domain, suffix := s[i + 1..j], s[j + 1..];
    forall m | 0 <= m < |domain| ensures !IsWhitespace(domain[m]) && domain[m] != '@' {
      assert domain[m] == d[m];
    }
    forall m | 0 <= m < |suffix| ensures !IsWhitespace(suffix[m]) && suffix[m] != '@' {
      assert suffix[m] == d[k + 1 + m];
    }
    assert Plain(domain) && Plain(suffix);
  }

  lemma MatchIsValidEmail(s: string, i: int, j: int)
    requires 0 < i && i + 1 < j && j + 1 < |s| && s[i] == '@' && s[j] == '.'
    requires Plain(s[..i]) && Plain(s[i + 1..j]) && Plain(s[j + 1..])
    ensures IsValidEmail(s)
  {
    forall m | 0 <= m < |s| && m != i ensures !IsWhitespace(s[m]) && s[m] != '@' {
      if m < i {
        assert s[m] == s[..i][m];
      } else if i < m < j {
        assert s[m] == s[i + 1..j][m - i - 1];
      } else if m > j {
        assert s[m] == s[j + 1..][m - j - 1];
      }
    }
    assert NoWhitespace(s);
    var at := IndexOf(s, '@');
    assert at == i;
    var d := s[i + 1..];
    assert d[j - i - 1] == '.';
    assert HasInnerDot(d);
    forall m | 0 <= m < |d| ensures d[m] != '@' {
      assert d[m] == s[i + 1 + m];
    }
  }

  /** `s.length` in JavaScript: characters outside the Basic Multilingual Plane count twice. */
  function Utf16Length(s: string): (n: nat)
    ensures |s| <= n <= 2 * |s|
  {
    if s == [] then 0
    else (if s[0] as int > 0xFFFF then 2 else 1) + Utf16Length(s[1..])
  }

  const MissingField: string := "모든 항목을 입력해주세요"
  const ShortPassword: string := "비밀번호는 8자 이상이어야 합니다"
  const PasswordMismatch: string := "비밀번호가 일치하지 않습니다"
  const BadEmail: string := "올바른 이메일 형식이 아닙니다"
  const SignupDone: string := "회원가입이 완료되었습니다! 로그인해주세요."

  /** handleSignup's checks, in order; the first that fails gives the error and stops
      the signup. `None` means every check passed. */
  function SignupError(email: string, password: string, confirm: string, name: string, gender: string): (r: Option<string>)
    ensures r == None <==>
              && email != "" && password != "" && confirm != "" && name != "" && gender != ""
              && Utf16Length(password) >= 8 && password == confirm && IsValidEmail(email)
    ensures r == Some(MissingField) <==>
              email == "" || password == "" || confirm == "" || name == "" || gender == ""
    ensures r == Some(ShortPassword) <==>
              && email != "" && password != "" && confirm != "" && name != "" && gender != ""
              && Utf16Length(password) < 8
    ensures r == Some(PasswordMismatch) <==>
              && email != "" && password != "" && confirm != "" && name != "" && gender != ""
              && Utf16Length(password) >= 8 && password != confirm
    ensures r == Some(BadEmail) <==>
              && email != "" && password != "" && confirm != "" && name != "" && gender != ""
              && Utf16Length(password) >= 8 && password == confirm && !IsValidEmail(email)
    ensures r.Some? ==> r.value in {MissingField, ShortPassword, PasswordMismatch, BadEmail}
  {
    if email == "" || password == "" || confirm == "" || name == "" || gender == "" then Some(MissingField)
    else if Utf16Length(password) < 8 then Some(ShortPassword)
    else if password != confirm then Some(PasswordMismatch)
    else if !IsValidEmail(email) then Some(BadEmail)
    else None
  }

  /** What `signup` did. */
  datatype SignupOutcome = SignedUp | SignupFailed(message: Option<string>)

  /** What `login` did: the user's onboarding flag on success. */
  datatype LoginOutcome = LoggedIn(hasCompletedOnboarding: bool) | LoginFailed(message: Option<string>)

  /** Which handler the Enter key ran. */
  datatype KeyAction = NoAction | LoginSubmitted | SignupSubmitted

  /** Where a successful login goes. */
  function LoginRoute(hasCompletedOnboarding: bool): (r: Route)
    ensures r == MainRoute <==> hasCompletedOnboarding
    ensures r == OnboardingRoute <==> !hasCompletedOnboarding
  {
    if hasCompletedOnboarding then MainRoute else OnboardingRoute
  }

  /** The guide: four pages. */
  const GuidePageCount: nat := 4

  /** The guide's previous button: `Math.max(0, currentPage - 1)`. */
  function PrevGuidePage(page: int): (r: int)
    ensures 0 <= page < GuidePageCount ==> 0 <= r < GuidePageCount
    ensures page > 0 ==> r == page - 1
    ensures page <= 0 ==> r == 0
  {
    if page - 1 > 0 then page - 1 else 0
  }

  /** The guide's next button: `Math.min(guidePages.length - 1, currentPage + 1)`. */
  function NextGuidePage(page: int): (r: int)
    ensures 0 <= page < GuidePageCount ==> 0 <= r < GuidePageCount
    ensures page < GuidePageCount - 1 ==> r == page + 1
    ensures page >= GuidePageCount - 1 ==> r == GuidePageCount - 1
  {
    if page + 1 < GuidePageCount - 1 then page + 1 else GuidePageCount - 1
  }

  /** Paging back from any page reaches the first page and stays there. */
  lemma {:induction false} PrevReachesFirst(page: nat, clicks: nat)
    requires page <= clicks
    ensures Iterate(PrevGuidePage, page, clicks) == 0
    decreases clicks
  {
    if clicks > 0 {
      PrevReachesFirst(PrevGuidePage(page), clicks - 1);
    }
  }

  /** Paging forward from any page reaches the last page and stays there. */
  lemma {:induction false} NextReachesLast(page: nat, clicks: nat)
    requires page < GuidePageCount && page + clicks >= GuidePageCount - 1
    ensures Iterate(NextGuidePage, page, clicks) == GuidePageCount - 1
    decreases clicks
  {
    if clicks > 0 {
      NextReachesLast(NextGuidePage(page), clicks - 1);
    }
  }

  /** `n` clicks of the same button. */
  function Iterate(step: int -> int, page: int, n: nat): int
    decreases n
  {
    if n == 0 then page else Iterate(step, step(page), n - 1)
  }

  class StartPage {
    var isLogin: bool
    var currentPage: int
    var email: string
    var password: string
    var confirmPassword: string
    var name: string
    var gender: string
    var error: string
    var loading: bool

    ghost predicate Valid()
      reads this
    {
      0 <= currentPage < GuidePageCount
    }

    /** The five form fields and the error are all empty. */
    predicate FormCleared()
      reads this
    {
      email == "" && password == "" && confirmPassword == "" && name == "" && gender == "" && error == ""
    }

    constructor ()
      ensures Valid() && isLogin && currentPage == 0 && FormCleared() && !loading
    {
      isLogin := true;
      currentPage := 0;
      email, password, confirmPassword, name, gender := "", "", "", "", "";
      error := "";
      loading := false;
    }

    /** handleLogin: success routes by the onboarding flag; failure shows the error. */
    method HandleLogin(outcome: LoginOutcome) returns (route: Option<Route>)
      requires Valid()
      modifies this`error, this`loading
      ensures Valid() && !loading
      ensures outcome.LoggedIn? ==> route == Some(LoginRoute(outcome.hasCompletedOnboarding)) && error == ""
      ensures outcome.LoginFailed? ==> route == None && error == OrElse(outcome.message, "로그인에 실패했습니다")
    {
      error := "";
      loading := true;
      match outcome {
        case LoggedIn(onboarded) =>
          route := Some(LoginRoute(onboarded));
        case LoginFailed(message) =>
          route := None;
          error := OrElse(message, "로그인에 실패했습니다");
      }
      loading := false;
    }

    /** handleSignup: the first failing check sets its error and no request is made;
        a successful signup switches to login mode with the whole form cleared. */
    method HandleSignup(outcome: SignupOutcome) returns (called: bool, alert: Option<string>)
      requires Valid()
      modifies this`error, this`loading, this`isLogin, this`email, this`password,
               this`confirmPassword, this`name, this`gender
      ensures Valid()
      ensures var check := SignupError(old(email), old(password), old(confirmPassword), old(name), old(gender));
              && (called <==> check == None)
              && (check.Some? ==> error == check.value && isLogin == old(isLogin) && loading == old(loading)
                                  && email == old(email) && password == old(password)
                                  && confirmPassword == old(confirmPassword) && name == old(name)
                                  && gender == old(gender))
      ensures alert.Some? <==> called && outcome.SignedUp?
      ensures alert.Some? ==> alert.value == SignupDone
      ensures called && outcome.SignedUp? ==> isLogin && FormCleared() && !loading
      ensures called && outcome.SignupFailed? ==>
                && error == OrElse(outcome.message, "회원가입에 실패했습니다") && !loading
                && isLogin == old(isLogin) && email == old(email) && password == old(password)
                && confirmPassword == old(confirmPassword) && name == old(name) && gender == old(gender)
    {
      error := "";
      alert := None;
      var check := SignupError(email, password, confirmPassword, name, gender);
      if check.Some? {
        error := check.value;
        return false, None;
      }
      called := true;
      loading := true;
      match outcome {
        case SignedUp =>
          isLogin := true;
          error := "";
          email, password, confirmPassword, name, gender := "", "", "", "", "";
          alert := Some(SignupDone);
        case SignupFailed(message) =>
          error := OrElse(message, "회원가입에 실패했습니다");
      }
      loading := false;
    }

    /** handleKeyPress: Enter submits the form of the current mode; other keys do nothing. */
    method HandleKeyPress(key: string, login: LoginOutcome, signup: SignupOutcome)
      returns (action: KeyAction, route: Option<Route>, alert: Option<string>)
      requires Valid()
      modifies this`error, this`loading, this`isLogin, this`email, this`password,
               this`confirmPassword, this`name, this`gender
      ensures Valid()
      ensures key != "Enter" ==>
                && action == NoAction && route == None
                && error == old(error) && loading == old(loading) && isLogin == old(isLogin)
                && email == old(email) && password == old(password)
                && confirmPassword == old(confirmPassword) && name == old(name) && gender == old(gender)
      // Enter in login mode: exactly handleLogin, which leaves the form and the mode alone.
      ensures key == "Enter" && old(isLogin) ==>
                && action == LoginSubmitted && !loading && isLogin
                && email == old(email) && password == old(password)
                && confirmPassword == old(confirmPassword) && name == old(name) && gender == old(gender)
      ensures key == "Enter" && old(isLogin) && login.LoggedIn? ==>
                route == Some(LoginRoute(login.hasCompletedOnboarding)) && error == ""
      ensures key == "Enter" && old(isLogin) && login.LoginFailed? ==>
                route == None && error == OrElse(login.message, "로그인에 실패했습니다")
      // Enter in signup mode: exactly handleSignup.
      ensures key == "Enter" && !old(isLogin) ==> action == SignupSubmitted && route == None
      ensures alert.Some? <==>
                && key == "Enter" && !old(isLogin) && signup.SignedUp?
                && SignupError(old(email), old(password), old(confirmPassword), old(name), old(gender)).None?
      ensures alert.Some? ==> alert.value == SignupDone
      ensures key == "Enter" && !old(isLogin) ==>
                var check := SignupError(old(email), old(password), old(confirmPassword), old(name), old(gender));
                && (check.Some? ==> error == check.value && !isLogin && loading == old(loading)
                                    && email == old(email) && password == old(password)
                                    && confirmPassword == old(confirmPassword) && name == old(name)
                                    && gender == old(gender))
                && (check.None? && signup.SignedUp? ==> isLogin && FormCleared() && !loading)
                && (check.None? && signup.SignupFailed? ==>
                      && error == OrElse(signup.message, "회원가입에 실패했습니다") && !loading && !isLogin
                      && email == old(email) && password == old(password)
                      && confirmPassword == old(confirmPassword) && name == old(name) && gender == old(gender))
    {
      action, route, alert := NoAction, None, None;
      if key == "Enter" {
        if isLogin {
          action := LoginSubmitted;
          route := HandleLogin(login);
        } else {
          action := SignupSubmitted;
          var _, shown := HandleSignup(signup);
          alert := shown;
        }
      }
    }

    /** The "sign up" / "login" switch: flips the mode and clears the form and the error. */
    method ToggleMode()
      requires Valid()
      modifies this`isLogin, this`error, this`email, this`password, this`confirmPassword,
               this`name, this`gender
      ensures Valid() && isLogin == !old(isLogin) && FormCleared()
    {
      isLogin := !isLogin;
      error := "";
      email, password, confirmPassword, name, gender := "", "", "", "", "";
    }

    /** The guide's previous button. */
    method GuidePrev()
      requires Valid()
      modifies this`currentPage
      ensures Valid() && currentPage == PrevGuidePage(old(currentPage))
    {
      currentPage := PrevGuidePage(currentPage);
    }

    /** The guide's next button. */
    method GuideNext()
      requires Valid()
      modifies this`currentPage
      ensures Valid() && currentPage == NextGuidePage(old(currentPage))
    {
      currentPage := NextGuidePage(currentPage);
    }
  }
}
