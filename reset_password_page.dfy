/** The password-reset screen's wiring of the widget into the form:
    `onVerify={(token) => setTurnstileToken(token)}` and
    `onError={() => setTurnstileToken(null)}`. */
module ResetPasswordPage {
  import opened Js
  import opened Http
  import opened ResetPassword
  import opened Turnstile

  /** The provider's success callback reaches the form: the token it
      verified becomes the form's security-check token. */
  method DeliverVerify(w: TurnstileWidget, form: ResetPasswordForm, token: string)
    modifies form`turnstileToken
    ensures form.turnstileToken == Some(token)
  {
    var verified := w.SuccessCallback(token);
    form.OnVerify(verified);
  }

  /** The provider's error callback reaches the form when the host passed
      `onError` (this screen does): the held token is dropped. */
  method DeliverError(w: TurnstileWidget, form: ResetPasswordForm)
    modifies form`turnstileToken
    ensures form.turnstileToken == if w.hasOnError then None else old(form.turnstileToken)
  {
    var notified := w.ErrorCallback();
    if notified {
      form.OnError();
    }
  }

  /** With a site key configured, a filled-in form is held back until the
      widget verifies; the request then carries the verified token, and a
      later provider error sends the form back to waiting. */
  method ScenarioSecurityCheck(w: TurnstileWidget, form: ResetPasswordForm)
    requires w.siteKey != "" && w.hasOnError
    requires !Blank(form.token) && !Blank(form.password) && form.turnstileToken.None?
    modifies form
  {
    var call := form.HandleSubmit(w.siteKey, NetworkError);
    assert call.None? && form.message == Some(Error(MissingCheck.Text()));
    DeliverVerify(w, form, "proof");
    call := form.HandleSubmit(w.siteKey, NetworkError);
    assert call == Some(ResetRequest(form.token, form.password, Some("proof")));
    assert form.message == Some(Error(NetworkErrorText)) && !form.loading;
    DeliverError(w, form);
    call := form.HandleSubmit(w.siteKey, NetworkError);
    assert call.None?;
  }
}
