/** `LoginComponent`: the login form's two field validators, the submit
    guard, the loading flag and the password-visibility toggle. The
    password rule is the regular expression
    `^(?=.*[A-Z])(?=.*\d)(?=.*[@$!%*?&])[A-Za-z\d@$!%*?&]+$`, modelled as a
    matcher that follows its structure, and proved equal to a plain
    statement of the rule. */
module Login {
  import opened Models
  import opened Effects
  import opened Auth

  const UsernameRequired: string := "Username is required"
  const PasswordRequired: string := "Password is required"
  const PasswordTooWeak: string :=
    "Password must contain at least one uppercase letter, one digit, and one special character"

  /** The special characters the rule asks for. */
  const Specials: string := "@$!%*?&"

  /** The character classes of the regular expression. */
  datatype CharClass = Upper | Digit | Special | PasswordChar

  predicate InClass(c: char, k: CharClass) {
    match k
    case Upper => 'A' <= c <= 'Z'
    case Digit => '0' <= c <= '9'
    case Special => c in Specials
    case PasswordChar => 'A' <= c <= 'Z' || 'a' <= c <= 'z' || '0' <= c <= '9' || c in Specials
  }

  /** The characters `.` does not match (no `s` flag). */
  predicate IsLineTerminator(c: char) {
    c == '\n' || c == '\r' || c == '\U{2028}' || c == '\U{2029}'
  }

  // ---- The regular expression, as a matcher ----

  /** `(?=.*[k])` at the start of `s`: a character of class `k` occurs, and
      `.*` has crossed no line terminator before it. */
  predicate LookaheadMatches(s: string, k: CharClass) {
    s != [] && (InClass(s[0], k) || (!IsLineTerminator(s[0]) && LookaheadMatches(s[1..], k)))
  }

  /** `[k]+$` at the start of `s`: one or more characters of class `k`, up
      to the end of the input (no `m` flag). */
  predicate PlusToEnd(s: string, k: CharClass) {
    s != [] && InClass(s[0], k) && (|s| == 1 || PlusToEnd(s[1..], k))
  }

  /** `passwordRegex.test(password)`: `^` anchors the match at position 0,
      where the three lookaheads and the character run must all match. */
  predicate PasswordRegexTest(s: string) {
    && LookaheadMatches(s, Upper)
    && LookaheadMatches(s, Digit)
    && LookaheadMatches(s, Special)
    && PlusToEnd(s, PasswordChar)
  }

  // ---- The rule, stated plainly ----

  predicate Contains(s: string, k: CharClass) {
    exists i :: 0 <= i < |s| && InClass(s[i], k)
  }

  predicate AllIn(s: string, k: CharClass) {
    forall i :: 0 <= i < |s| ==> InClass(s[i], k)
  }

  /** Non-empty, at least one A-Z, one 0-9 and one of `@$!%*?&`, and
      nothing outside `[A-Za-z0-9@$!%*?&]`. */
  predicate StrongPassword(p: string) {
    p != [] && Contains(p, Upper) && Contains(p, Digit) && Contains(p, Special) && AllIn(p, PasswordChar)
  }

  lemma {:induction false} PlusToEndIff(s: string, k: CharClass)
    ensures PlusToEnd(s, k) <==> s != [] && AllIn(s, k)
    decreases |s|
  {
    if |s| > 1 {
      PlusToEndIff(s[1..], k);
      if AllIn(s, k) {
        assert forall i :: 0 <= i < |s| - 1 ==> s[1..][i] == s[i + 1];
      }
      if InClass(s[0], k) && AllIn(s[1..], k) {
        forall i | 0 <= i < |s| ensures InClass(s[i], k) {
          if i > 0 { assert s[i] == s[1..][i - 1]; }
        }
      }
    }
  }

  /** On a string of password characters, which hold no line terminator,
      each lookahead holds exactly when the class occurs somewhere. */
  lemma {:induction false} LookaheadIff(s: string, k: CharClass)
    requires AllIn(s, PasswordChar)
    ensures LookaheadMatches(s, k) <==> Contains(s, k)
    decreases |s|
  {
    if s != [] {
      assert !IsLineTerminator(s[0]) by { assert InClass(s[0], PasswordChar); }
      assert AllIn(s[1..], PasswordChar) by {
        forall i | 0 <= i < |s[1..]| ensures InClass(s[1..][i], PasswordChar) {
          assert s[1..][i] == s[i + 1];
        }
      }
      LookaheadIff(s[1..], k);
      if Contains(s, k) && !InClass(s[0], k) {
        var i :| 0 <= i < |s| && InClass(s[i], k);
        assert s[1..][i - 1] == s[i];
      }
      if Contains(s[1..], k) {
        var i :| 0 <= i < |s[1..]| && InClass(s[1..][i], k);
        assert s[i + 1] == s[1..][i];
      }
    }
  }

  /** The regular expression accepts exactly the strong passwords. */
  lemma RegexMatchesRule(p: string)
    ensures PasswordRegexTest(p) <==> StrongPassword(p)
  {
    PlusToEndIff(p, PasswordChar);
    if AllIn(p, PasswordChar) {
      LookaheadIff(p, Upper);
      LookaheadIff(p, Digit);
      LookaheadIff(p, Special);
    }
  }

  /** `.*` cannot cross a line break, but a password that contains one is
      rejected by the character run anyway, so the restriction never
      changes the verdict: a line terminator anywhere means rejection. */
  lemma LineBreakRejected(p: string, i: nat)
    requires i < |p| && IsLineTerminator(p[i])
    ensures !PasswordRegexTest(p)
  {
    RegexMatchesRule(p);
    assert !InClass(p[i], PasswordChar);
  }

  // ---- The validators ----

  /** `validateUsername`: the error is set exactly when the username is
      empty (falsy), and cleared otherwise. */
  function UsernameError(username: string): (e: string)
    ensures e == "" <==> username != ""
    ensures e != "" ==> e == UsernameRequired
  {
    if username == "" then UsernameRequired else ""
  }

  /** `validatePassword`: an empty password is "required" before the
      strength rule is consulted; a non-empty one is accepted exactly when it
      is strong, and otherwise gets the strength message. */
  function PasswordError(password: string): (e: string)
    ensures password == "" ==> e == PasswordRequired
    ensures password != "" ==> (e == "" <==> StrongPassword(password))
    ensures password != "" && e != "" ==> e == PasswordTooWeak
  {
    if password == "" then PasswordRequired
    else
      RegexMatchesRule(password);
      if !PasswordRegexTest(password) then PasswordTooWeak else ""
  }

  /** The submit guard of `login`: both error strings empty. */
  predicate SubmitAllowed(username: string, password: string) {
    UsernameError(username) == "" && PasswordError(password) == ""
  }

  /** The form is submitted exactly when the username is non-empty and the
      password is strong. */
  lemma SubmitAllowedIff(username: string, password: string)
    ensures SubmitAllowed(username, password) <==> username != "" && StrongPassword(password)
  {
  }

  /** The pre-filled credentials pass both validators; `weak` fails the
      strength rule (it has no capital, digit or special character). */
  lemma DefaultCredentials()
    ensures UsernameError("admin") == ""
    ensures PasswordError("Admin@123") == ""
    ensures PasswordError("weak") == PasswordTooWeak
  {
    var good := "Admin@123";
    assert InClass(good[0], Upper) && InClass(good[6], Digit) && InClass(good[5], Special);
    assert StrongPassword(good);
    assert !Contains("weak", Upper);
  }

  // ---- The component ----

  class LoginComponent {
    var username: string
    var password: string
    var usernameError: string
    var passwordError: string
    var isLoading: bool
    var isShowPassword: bool
    const auth: AuthService
    const router: Router

    constructor (auth: AuthService, router: Router)
      ensures username == "admin" && password == "Admin@123"
      ensures usernameError == "" && passwordError == ""
      ensures !isLoading && !isShowPassword
      ensures this.auth == auth && this.router == router
    {
      username, password := "admin", "Admin@123";
      usernameError, passwordError := "", "";
      isLoading, isShowPassword := false, false;
      this.auth, this.router := auth, router;
    }

    method TogglePasswordVisibility()
      modifies this`isShowPassword
      ensures isShowPassword == !old(isShowPassword)
    {
      isShowPassword := !isShowPassword;
    }

    /** Writes the username error and nothing else. */
    method ValidateUsername()
      modifies this`usernameError
      ensures usernameError == UsernameError(username)
    {
      if username == "" {
        usernameError := UsernameRequired;
        return;
      }
      usernameError := "";
    }

    /** Writes the password error and nothing else. */
    method ValidatePassword()
      modifies this`passwordError
      ensures passwordError == PasswordError(password)
    {
      if password == "" {
        passwordError := PasswordRequired;
        return;
      }
      RegexMatchesRule(password);
      if !PasswordRegexTest(password) {
        passwordError := PasswordTooWeak;
        return;
      }
      passwordError := "";
    }

    /** `login`, up to the request: both fields are validated; with an error
        it returns without touching the loading flag; otherwise the flag is
        set and the credentials are handed to the auth service. */
    method Login() returns (sent: Option<Credentials>)
      modifies this`usernameError, this`passwordError, this`isLoading
      ensures usernameError == UsernameError(username) && passwordError == PasswordError(password)
      ensures sent.Some? <==> SubmitAllowed(username, password)
      ensures sent.Some? ==> sent.value == Credentials(username, password) && isLoading
      ensures sent.None? ==> isLoading == old(isLoading)
    {
      ValidateUsername();
      ValidatePassword();
      if usernameError != "" || passwordError != "" {
        return None;
      }
      isLoading := true;
      sent := Some(Credentials(username, password));
    }

    /** The login request settles: the auth service handles the outcome,
        on success the component also navigates home, and `finalize` clears
        the loading flag either way. */
    method LoginSettled(sent: Credentials, outcome: HttpResult<Option<User>>)
      requires router == auth.router
      modifies this`isLoading, auth, auth.storage, auth.toastr, router
      ensures !isLoading
      ensures outcome.Ok? ==> auth.currentUser == outcome.body
      ensures outcome.Ok? ==> auth.storage.items == old(auth.storage.items)[StorageKey := auth.codec.stringify(outcome.body)]
      ensures outcome.Ok? ==> router.navigations == old(router.navigations) + ["", ""]
      ensures outcome.Ok? ==> auth.toastr.shown == old(auth.toastr.shown) + [Toast(Success, LoginSucceeded, "Success")]
      ensures outcome.Failed? ==> auth.toastr.shown == old(auth.toastr.shown) + [Toast(Error, LoginErrorMessage(outcome.error), "Error")]
      ensures outcome.Failed? ==> auth.currentUser == old(auth.currentUser)
      ensures outcome.Failed? ==> auth.storage.items == old(auth.storage.items)
      ensures outcome.Failed? ==> router.navigations == old(router.navigations)
    {
      var _, _ := auth.Login(sent, outcome);
      if outcome.Ok? {
        router.Navigate("");
      }
      isLoading := false;
    }
  }

  /** A whole submission: an invalid form never reaches the auth service
      (session, store, toasts and navigation untouched, loading flag
      unchanged); a valid one ends with the loading flag cleared and the
      session, store, toasts and navigation following the outcome. The
      form's data are never changed. */
  method Submit(form: LoginComponent, outcome: HttpResult<Option<User>>)
    requires form.router == form.auth.router
    modifies form`usernameError, form`passwordError, form`isLoading
    modifies form.auth, form.auth.storage, form.auth.toastr, form.router
    ensures form.username == old(form.username) && form.password == old(form.password)
    ensures form.usernameError == UsernameError(form.username) && form.passwordError == PasswordError(form.password)
    ensures !SubmitAllowed(old(form.username), old(form.password)) ==>
      && form.isLoading == old(form.isLoading)
      && form.auth.currentUser == old(form.auth.currentUser)
      && form.auth.storage.items == old(form.auth.storage.items)
      && form.auth.toastr.shown == old(form.auth.toastr.shown)
      && form.router.navigations == old(form.router.navigations)
    ensures SubmitAllowed(old(form.username), old(form.password)) ==>
      && !form.isLoading
      && form.auth.currentUser == (if outcome.Ok? then outcome.body else old(form.auth.currentUser))
      && form.auth.storage.items ==
         (if outcome.Ok? then old(form.auth.storage.items)[StorageKey := form.auth.codec.stringify(outcome.body)]
          else old(form.auth.storage.items))
      && form.auth.toastr.shown == old(form.auth.toastr.shown) +
         (if outcome.Ok? then [Toast(Success, LoginSucceeded, "Success")]
          else [Toast(Error, LoginErrorMessage(outcome.error), "Error")])
      && form.router.navigations == old(form.router.navigations) + (if outcome.Ok? then ["", ""] else [])
  {
    var sent := form.Login();
    if sent.Some? {
      form.LoginSettled(sent.value, outcome);
    }
  }

  /** The pre-filled form submitted with a successful outcome logs the
      returned user in and clears the loading flag. */
  method SubmitDefaultForm(form: LoginComponent, user: User)
    requires form.router == form.auth.router
    requires form.username == "admin" && form.password == "Admin@123"
    modifies form`usernameError, form`passwordError, form`isLoading
    modifies form.auth, form.auth.storage, form.auth.toastr, form.router
    ensures form.auth.currentUser == Some(user) && !form.isLoading
    ensures form.usernameError == "" && form.passwordError == ""
  {
    DefaultCredentials();
    Submit(form, Ok(Some(user)));
  }
}
