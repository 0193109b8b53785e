/** The client-side checks of the register and login forms (auth.js).

    A submit first hides every error message, then runs each check in turn;
    a failed check shows its message and clears the `valid` flag, so every
    failed check is reported, not only the first. The request goes out only
    while the flag is still set. The request itself, the redirect and the
    stored token are not part of this model. */
module Auth {
  import opened Wrappers
  import opened JsText

  /** The error messages of the two forms, by element id. */
  datatype ErrorId = NameError | EmailError | PasswordError | LoginEmailError | LoginPasswordError

  /** The JSON body posted to `/api/register` and `/api/login`. */
  datatype RegisterRequest = RegisterRequest(name: string, email: string, password: string)
  datatype LoginRequest = LoginRequest(email: string, password: string)

  /** What the page shows after a submit, and the request it sends (None
      when validation failed). */
  datatype Submission<R> = Submission(shown: set<ErrorId>, request: Option<R>)

  /** The messages on display and the `valid` flag while the checks run. */
  datatype Checks = Checks(shown: set<ErrorId>, valid: bool)

  /** `hideErrors()`: every message is hidden, whatever was shown before. */
  function HideErrors(shown: set<ErrorId>): set<ErrorId> {
    {}
  }

  /** One `if (...) { showError(id); valid = false; }` block. */
  function Check(st: Checks, failed: bool, id: ErrorId): Checks {
    if failed then Checks(st.shown + {id}, false) else st
  }

  /** The register submit handler, auth.js lines 159-187. `shown` is what
      was on display before; `name`, `email` and `password` are the raw
      field values. */
  function SubmitRegister(shown: set<ErrorId>, name: string, email: string, password: string): (o: Submission<RegisterRequest>)
    ensures NameError in o.shown <==> !HasVisible(name)
    ensures EmailError in o.shown <==> '@' !in email
    ensures PasswordError in o.shown <==> Utf16Length(password) < 6
    ensures o.shown <= {NameError, EmailError, PasswordError}
    ensures o.request.Some? <==> HasVisible(name) && '@' in email && Utf16Length(password) >= 6
    ensures o.request.Some? <==> o.shown == {}
    ensures o.request.Some? ==> o.request.value == RegisterRequest(Trim(name), Trim(email), password)
  {
    TrimKeepsVisible(email, '@');
    var n := Trim(name);
    var e := Trim(email);
    var st := Checks(HideErrors(shown), true);
    var st := Check(st, |n| == 0, NameError);
    var st := Check(st, |e| == 0 || '@' !in e, EmailError);
    var st := Check(st, password == "" || Utf16Length(password) < 6, PasswordError);
    Submission(st.shown, if st.valid then Some(RegisterRequest(n, e, password)) else None)
  }

  /** The login submit handler, auth.js lines 228-249. */
  function SubmitLogin(shown: set<ErrorId>, email: string, password: string): (o: Submission<LoginRequest>)
    ensures LoginEmailError in o.shown <==> !HasVisible(email)
    ensures LoginPasswordError in o.shown <==> password == ""
    ensures o.shown <= {LoginEmailError, LoginPasswordError}
    ensures o.request.Some? <==> HasVisible(email) && password != ""
    ensures o.request.Some? <==> o.shown == {}
    ensures o.request.Some? ==> o.request.value == LoginRequest(Trim(email), password)
  {
    var e := Trim(email);
    var st := Checks(HideErrors(shown), true);
    var st := Check(st, |e| == 0, LoginEmailError);
    var st := Check(st, password == "", LoginPasswordError);
    Submission(st.shown, if st.valid then Some(LoginRequest(e, password)) else None)
  }

  /** Anything the register form accepts, the login form accepts too. */
  lemma {:induction false} RegisterAcceptedLoginAccepted(name: string, email: string, password: string)
    requires SubmitRegister({}, name, email, password).request.Some?
    ensures SubmitLogin({}, email, password).request.Some?
  {
    var i :| 0 <= i < |email| && email[i] == '@';
    assert !IsWhitespace(email[i]);
  }

  /** The converse fails: login does not look for an '@', and takes a
      one-character password. */
  lemma {:induction false} LoginSkipsRegisterChecks()
    ensures SubmitLogin({}, "ann", "x").request == Some(LoginRequest("ann", "x"))
    ensures SubmitRegister({}, "Ann", "ann", "x").shown == {EmailError, PasswordError}
  {
    assert !IsWhitespace("ann"[0]);
    assert !IsWhitespace("Ann"[0]);
    assert Trim("ann") == "ann" by {
      assert "ann"[0..3] == "ann";
    }
  }

  /** The password is taken as typed: six spaces pass the length check. The
      name is trimmed: a blank name is rejected even when the rest is
      fine. */
  lemma {:induction false} WhitespaceExamples()
    ensures SubmitRegister({}, "Ann", "a@b", "      ").request.Some?
    ensures SubmitRegister({PasswordError}, "   ", "a@b", "secret").shown == {NameError}
  {
    assert !IsWhitespace("Ann"[0]);
    assert "a@b"[1] == '@';
    assert !HasVisible("   ") by {
      assert forall i :: 0 <= i < |"   "| ==> "   "[i] == ' ';
    }
    assert "secret"[0] == 's';
  }
}
