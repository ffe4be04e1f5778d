/** The password-reset screen: its form state, the submit handler's guard
    clauses, the outcome-to-banner mapping, and the two Turnstile callbacks
    that feed the security-check token into the form. */
module ResetPassword {
  import opened Js
  import opened Http

  /** The guard clause that stopped a submission, in the order they run. */
  datatype GuardFailure = MissingToken | MissingPassword | MissingCheck {
    /** The error banner's text. */
    function Text(): string
    {
      match this
      case MissingToken => "Token required"
      case MissingPassword => "New password required"
      case MissingCheck => "Please complete the security check"
    }
  }

  const PasswordUpdated := "Password updated."
  const ResetFailed := "Reset failed"
  /** The `status` value the backend reports for a reset it accepted. */
  const StatusSuccess := "success"

  /** The body of `POST /auth/password-reset/confirm`:
      `{ token, newPassword, turnstile_token }`. */
  datatype ResetRequest = ResetRequest(token: string, newPassword: string, turnstileToken: Option<string>)

  /** The guard clauses, in the order the handler runs them: the first
      failing one's error text, or `None` when the backend may be called.
      `siteKey` is the configured Turnstile site key, `""` when unset. */
  function GuardError(token: string, password: string, siteKey: string, turnstileToken: Option<string>): (r: Option<GuardFailure>)
    ensures r == Some(MissingToken) <==> Blank(token)
    ensures r == Some(MissingPassword) <==> !Blank(token) && Blank(password)
    ensures r == Some(MissingCheck) <==> !Blank(token) && !Blank(password) && siteKey != "" && !Present(turnstileToken)
    ensures r.None? <==> !Blank(token) && !Blank(password) && (siteKey == "" || Present(turnstileToken))
  {
    if Blank(token) then Some(MissingToken)
    else if Blank(password) then Some(MissingPassword)
    else if siteKey != "" && !Present(turnstileToken) then Some(MissingCheck)
    else None
  }

  /** With no site key configured, the security-check token never matters. */
  lemma NoSiteKeyNoGate(token: string, password: string, turnstileToken: Option<string>)
    ensures GuardError(token, password, "", turnstileToken) == GuardError(token, password, "", None)
    ensures GuardError(token, password, "", turnstileToken).None? <==> !Blank(token) && !Blank(password)
  {
  }

  /** The banner for a call that passed the guards. The parsed body falls
      back to `{ message: 'Reset failed' }` when `response.json()` rejects;
      reading a property of a `null` body throws, which lands in the
      handler's `catch` like a network failure. */
  function ResetReply(o: Outcome): (r: Notice)
    ensures r.Success? <==>
              o.Received? && o.ok && o.parsed.Json? && o.parsed.body.Object?
              && o.parsed.body.status == Some(StatusSuccess)
    ensures r.Success? ==> r.text == OrElse(o.parsed.body.message, PasswordUpdated)
    ensures o.NetworkError? || (o.Received? && o.parsed == Json(Null)) ==> r == Error(NetworkErrorText)
    ensures o.Received? && o.parsed.Unparseable? ==> r == Error(ResetFailed)
    ensures o.Received? && o.parsed.Json? && o.parsed.body.Object? && r.Error? ==>
              r.text == OrElse(o.parsed.body.message, ResetFailed)
    ensures r.text != ""
  {
    match o
    case NetworkError => Error(NetworkErrorText)
    case Received(ok, parsed) =>
      var data := if parsed.Unparseable? then Object(Some(ResetFailed), None) else parsed.body;
      if ok && data.Null? then Error(NetworkErrorText)   // `data.status` throws
      else if ok && data.status == Some(StatusSuccess) then Success(OrElse(data.message, PasswordUpdated))
      else if data.Null? then Error(NetworkErrorText)    // `data.message` throws
      else Error(OrElse(data.message, ResetFailed))
  }

  /** The state of one `ResetPasswordContent` instance. */
  class ResetPasswordForm {
    var token: string
    var password: string
    var message: Option<Notice>
    var loading: bool
    var turnstileToken: Option<string>

    /** Mounting with the `token` query parameter, if any (`get('token') || ''`). */
    constructor (query: Option<string>)
      ensures token == OrElse(query, "") && password == ""
      ensures message.None? && !loading && turnstileToken.None?
    {
      token := OrElse(query, "");
      password := "";
      message := None;
      loading := false;
      turnstileToken := None;
    }

    method EditToken(v: string)
      modifies this`token
      ensures token == v
    {
      token := v;
    }

    method EditPassword(v: string)
      modifies this`password
      ensures password == v
    {
      password := v;
    }

    /** Turnstile's `onVerify`: the verified token replaces whatever was held. */
    method OnVerify(t: string)
      modifies this`turnstileToken
      ensures turnstileToken == Some(t)
    {
      turnstileToken := Some(t);
    }

    /** Turnstile's `onError`: the held token is dropped. */
    method OnError()
      modifies this`turnstileToken
      ensures turnstileToken.None?
    {
      turnstileToken := None;
    }

    /** `handleSubmit` up to the awaited `fetch`: the guards, then
        `setLoading(true)` and `setMessage(null)`. Returns the request that
        is sent, or `None` when a guard stops the handler (no call made). */
    method BeginSubmit(siteKey: string) returns (call: Option<ResetRequest>)
      modifies this`message, this`loading
      ensures var err := GuardError(token, password, siteKey, turnstileToken);
              if err.Some? then
                call.None? && message == Some(Error(err.value.Text())) && loading == old(loading)
              else
                call == Some(ResetRequest(token, password, turnstileToken)) && message.None? && loading
    {
      if Blank(token) {
        message := Some(Error(MissingToken.Text()));
        return None;
      }
      if Blank(password) {
        message := Some(Error(MissingPassword.Text()));
        return None;
      }
      if siteKey != "" && !Present(turnstileToken) {
        message := Some(Error(MissingCheck.Text()));
        return None;
      }
      loading := true;
      message := None;
      call := Some(ResetRequest(token, password, turnstileToken));
    }

    /** `handleSubmit` after the `fetch` settles, through `finally`. */
    method FinishSubmit(o: Outcome)
      modifies this`message, this`loading, this`password
      ensures message == Some(ResetReply(o)) && !loading
      ensures password == if ResetReply(o).Success? then "" else old(password)
    {
      match o {
        case NetworkError =>
          message := Some(Error(NetworkErrorText));
        case Received(ok, parsed) =>
          var data := if parsed.Unparseable? then Object(Some(ResetFailed), None) else parsed.body;
          if ok && data.Null? {
            message := Some(Error(NetworkErrorText));
          } else if ok && data.status == Some(StatusSuccess) {
            message := Some(Success(OrElse(data.message, PasswordUpdated)));
            password := "";
          } else if data.Null? {
            message := Some(Error(NetworkErrorText));
          } else {
            message := Some(Error(OrElse(data.message, ResetFailed)));
          }
      }
      loading := false;
    }

    /** The whole handler, with `o` the outcome of the call if one is made.
        The token and the security-check token are never touched. */
    method HandleSubmit(siteKey: string, o: Outcome) returns (call: Option<ResetRequest>)
      modifies this`message, this`loading, this`password
      ensures var err := GuardError(old(token), old(password), siteKey, old(turnstileToken));
              if err.Some? then
                call.None? && message == Some(Error(err.value.Text()))
                && loading == old(loading) && password == old(password)
              else
                call == Some(ResetRequest(old(token), old(password), old(turnstileToken)))
                && message == Some(ResetReply(o)) && !loading
                && password == (if ResetReply(o).Success? then "" else old(password))
    {
      call := BeginSubmit(siteKey);
      if call.Some? {
        FinishSubmit(o);
      }
    }
  }

  /** A blank token is reported first whatever else is wrong, and no call leaves. */
  method ScenarioBlankToken()
  {
    var form := new ResetPasswordForm(None);
    form.EditPassword("");
    var call := form.HandleSubmit("site-key", NetworkError);
    assert call.None? && form.message == Some(Error(MissingToken.Text())) && !form.loading;
  }

  /** A 400 response `{ message: 'token expired' }` is reported as is;
      the password is kept so the user can retry. */
  method ScenarioServerError()
  {
    var form := new ResetPasswordForm(Some("abc"));
    form.EditPassword("hunter22");
    form.OnVerify("proof");
    var call := form.HandleSubmit("site-key", Received(false, Json(Object(Some("token expired"), None))));
    assert call == Some(ResetRequest("abc", "hunter22", Some("proof")));
    assert form.message == Some(Error("token expired")) && form.password == "hunter22";
    assert form.turnstileToken == Some("proof");
  }
}
