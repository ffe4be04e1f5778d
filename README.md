# W9 Mail frontend: submission handlers and the Turnstile controller

A Dafny model of the decision logic in the W9 Mail browser frontend:

- the password-reset screen (`ResetPasswordContent`): the guard clauses of
  its submit handler (token, then password, then the security check), the
  mapping of the backend's answer onto a success or error banner, the
  clearing of the password after a success, and the Turnstile callbacks that
  set and drop the security-check token;
- the composer screen (`Home`): the shape of the `POST /send` request
  (`cc`/`bcc` left out when empty), the banner for each outcome, the reset of
  every field but `from` after a successful send, the submit-enable rule and
  the "active accounts only" sender list;
- the `Turnstile` component: a controller that polls until
  `window.turnstile` exists, renders at most one widget into its `<div>`,
  resets the widget on expiry, and removes it when its effect is torn down.

Modules, one per source file plus two of shared vocabulary:

| file | module | models |
|---|---|---|
| `js.dfy` | `Js` | `null`able values, string truthiness, `a \|\| b`, `String.prototype.trim` |
| `http.dfy` | `Http` | the settled `fetch` (`Outcome`), the parsed body, the banner (`Notice`) |
| `reset_password.dfy` | `ResetPassword` | `frontend/app/reset-password/page.tsx` |
| `reset_password_page.dfy` | `ResetPasswordPage` | the `<Turnstile onVerify onError>` wiring of that page |
| `composer.dfy` | `Composer` | `frontend/app/page.tsx` |
| `turnstile.dfy` | `Turnstile` | `frontend/app/components/Turnstile.tsx` |

The network is an input. A settled `fetch` is `Received(ok, parsed)` or
`NetworkError`. The parsed body is either `Unparseable` (the promise from
`response.json()` rejected) or `Json(body)`. A body is an object with an
optional `message` and an optional `status`, or the JSON literal `null`.
Each handler is split where it awaits.
`BeginSubmit`/`BeginSend` run up to the `fetch` and return the request that
leaves (for the reset screen, `None` when a guard stops it: no call is made).
`FinishSubmit`/`FinishSend` apply the outcome and the `finally`.
`HandleSubmit` runs both in turn. The composer's `FinishSend` takes the
`formData` the handler closed over, because the source resets the form to
that snapshot's `from`, not to the current one.

Turnstile's provider is a `Provider` object. It records every
`render`/`reset`/`remove` call in `calls` and issues widget ids. The
controller's invariant `Valid()` ties `widgetIdRef.current` to the log of its
own calls. `Disciplined` says a render happens only with no widget live, and
a reset or remove only names the live widget. `LiveWidget` is the widget the
log leaves live. Timers are a count of pending `checkTurnstile` runs; `Tick`
fires one of them.

Where the source and the prose description of the system differ, the model
follows the source:

- recipients are not split on commas;
- the handlers have no re-entrancy guard (only the buttons are disabled);
- no minimum password length is checked in the handler;
- the security-check token is not cleared after an attempt;
- pending polls are not cancelled on teardown.

Three edge cases come straight from the JavaScript semantics:

- `!turnstileToken` also holds for an empty-string token (`Js.Present`);
- `data.message || fallback` falls back on an empty message (`Js.OrElse`);
- reading a property of a `null` JSON body throws a `TypeError` inside the
  `try`, so the `catch` reports it as "Network error. Please try again."

## Model

| member | source | states |
|---|---|---|
| `Js.TrimStart` | frontend/app/reset-password/page.tsx:25 | the result is a suffix of the input, does not start with whitespace, and only whitespace was dropped |
| `Js.TrimEnd` | frontend/app/reset-password/page.tsx:29 | the result is a prefix of the input, does not end with whitespace, and only whitespace was dropped |
| `Js.Trim` | frontend/app/reset-password/page.tsx:25-32 | `trim()` is empty exactly when every character is ECMAScript whitespace; otherwise both its ends are non-whitespace |
| `Js.BlankIsTrimEmpty` | frontend/app/reset-password/page.tsx:25-32 | the character-by-character `Blank` the guards use is exactly `!s.trim()` |
| `ResetPassword.GuardError` | frontend/app/reset-password/page.tsx:25-37 | the guards in order: a blank token always wins; a blank password is reported only for a non-blank token; the security check blocks only with a site key and no truthy token; the call proceeds exactly when none applies |
| `ResetPassword.NoSiteKeyNoGate` | frontend/app/reset-password/page.tsx:33-37 | with no site key the Turnstile token never affects the guards, and submission needs only a non-blank token and password |
| `ResetPassword.ResetReply` | frontend/app/reset-password/page.tsx:47-56 | success exactly for an ok response whose object body has status `success`; its text is `message` or "Password updated."; an unparseable body gives "Reset failed" even when ok; other object bodies give `message` or "Reset failed"; a network failure or `null` body gives the network-error text; the text is never empty |
| `ResetPassword.ResetPasswordForm.constructor` | frontend/app/reset-password/page.tsx:10-21 | the token starts as the `token` query parameter or `""`; no password, no banner, not loading, no Turnstile token |
| `ResetPassword.ResetPasswordForm.EditToken` | frontend/app/reset-password/page.tsx:70 | typing replaces the token and nothing else |
| `ResetPassword.ResetPasswordForm.EditPassword` | frontend/app/reset-password/page.tsx:78 | typing replaces the password and nothing else |
| `ResetPassword.ResetPasswordForm.OnVerify` | frontend/app/reset-password/page.tsx:84 | a verified token becomes the held Turnstile token; nothing else changes |
| `ResetPassword.ResetPasswordForm.OnError` | frontend/app/reset-password/page.tsx:85 | a widget error drops the held Turnstile token; nothing else changes |
| `ResetPassword.ResetPasswordForm.BeginSubmit` | frontend/app/reset-password/page.tsx:23-46 | a failing guard sets its error banner, sends nothing and leaves `loading`; otherwise `loading` is set, the banner cleared and the request `{token, newPassword, turnstile_token}` sent verbatim |
| `ResetPassword.ResetPasswordForm.FinishSubmit` | frontend/app/reset-password/page.tsx:47-59 | the banner is `ResetReply` of the outcome, `loading` is false, and the password is cleared exactly on success |
| `ResetPassword.ResetPasswordForm.HandleSubmit` | frontend/app/reset-password/page.tsx:23-60 | the whole handler: no call and `loading` untouched when a guard fails; otherwise one call, the mapped banner, `loading` false and the password cleared only on success; the token and the Turnstile token never change |
| `ResetPasswordPage.DeliverVerify` | frontend/app/reset-password/page.tsx:83-84 | the widget's success callback stores exactly the verified token in the form |
| `ResetPasswordPage.DeliverError` | frontend/app/reset-password/page.tsx:83-86 | the widget's error callback clears the form's token when `onError` was passed, and leaves it otherwise |
| `Composer.ActiveAccounts` | frontend/app/page.tsx:37 | the sender list holds exactly the fetched accounts that are active, and is no longer than the fetched list |
| `Composer.ActiveAccountsAppend` | frontend/app/page.tsx:37 | filtering distributes over concatenation, so the kept accounts keep their fetched order |
| `Composer.ActiveAccountsIdempotent` | frontend/app/page.tsx:37 | an all-active list is kept whole, and filtering twice equals filtering once |
| `Composer.ShapeRequest` | frontend/app/page.tsx:56-63 | `from`, `to`, `subject`, `body` sent verbatim (no splitting or trimming); `cc`/`bcc` left out exactly when they are `""` (whitespace is sent); the form can be read back from the request unchanged |
| `Composer.ShapeOfFormOf` | frontend/app/page.tsx:56-63 | the converse round trip: every request without an empty `cc`/`bcc` is the shape of the form read back from it |
| `Composer.CanSubmit` | frontend/app/page.tsx:220 | the button is enabled exactly when no send is in flight and `from`, `to`, `subject` and `body` are non-empty, untrimmed |
| `Composer.SubmitNeedsRequiredFields` | frontend/app/page.tsx:220 | an enabled submit sends non-empty required fields, and a form just reset after a success cannot be submitted again |
| `Composer.SendReply` | frontend/app/page.tsx:66-81 | success exactly for an ok response, with "Email sent successfully!" whatever the body; a non-ok response gives the body's non-empty `message` or "Failed to send email", also when the body is unparseable; a network failure gives the network-error text; the text is never empty |
| `Composer.Composer.constructor` | frontend/app/page.tsx:14-25 | no accounts, loading, not sending, no banner, every field empty |
| `Composer.Composer.FetchAccounts` | frontend/app/page.tsx:31-44 | only a readable ok response replaces the sender list, with its active accounts; any other outcome leaves it; loading ends in every case |
| `Composer.Composer.Edit` | frontend/app/page.tsx:126-210 | an `onChange` handler overwrites its own field and keeps the others |
| `Composer.Composer.BeginSend` | frontend/app/page.tsx:46-64 | `sending` is set and the banner cleared, then the shaped request leaves, with no guard |
| `Composer.Composer.FinishSend` | frontend/app/page.tsx:66-84 | the banner is `SendReply` of the outcome, `sending` is false; on an ok response the form is emptied except `from`, which keeps the submitted value; otherwise the form is unchanged |
| `Composer.Composer.HandleSubmit` | frontend/app/page.tsx:46-85 | the whole handler: exactly the shaped request of the form leaves; the banner is mapped; `sending` is false afterwards; only success resets the fields, keeping `from` |
| `Turnstile.Snoc` | frontend/app/components/Turnstile.tsx:34-35 | one more provider call advances the live widget, the discipline, and the render and remove counts by one step |
| `Turnstile.Rendered` | frontend/app/components/Turnstile.tsx:34-35 | a render made while no widget is live keeps the one-widget discipline and makes the new widget the live one |
| `Turnstile.AtMostOneLive` | frontend/app/components/Turnstile.tsx:34-35 | under the discipline, renders equal removes plus one exactly when a widget is live: at most one widget is live |
| `Turnstile.PollDecision` | frontend/app/components/Turnstile.tsx:34-51 | render exactly when the provider and the surface exist and no id is held; retry after 100 ms exactly while the provider is missing; stop otherwise |
| `Turnstile.WidgetHandle` | frontend/app/components/Turnstile.tsx:13 | the id the provider issues is a non-empty string, so a held id is truthy |
| `Turnstile.Provider.constructor` | frontend/app/components/Turnstile.tsx:7-16 | the provider starts loaded or not, with no calls made |
| `Turnstile.Provider.Load` | frontend/app/components/Turnstile.tsx:7 | the provider's script finishes loading and `window.turnstile` exists |
| `Turnstile.Provider.Render` | frontend/app/components/Turnstile.tsx:8-13 | `render` issues a fresh id and is logged |
| `Turnstile.Provider.Reset` | frontend/app/components/Turnstile.tsx:14 | `reset(id)` is logged |
| `Turnstile.Provider.Remove` | frontend/app/components/Turnstile.tsx:15 | `remove(id)` is logged |
| `Turnstile.TurnstileWidget.constructor` | frontend/app/components/Turnstile.tsx:25-28 | the `<div>` exists exactly when a site key is set; no widget id, no pending poll, no provider call |
| `Turnstile.TurnstileWidget.CheckTurnstile` | frontend/app/components/Turnstile.tsx:33-52 | one `checkTurnstile` run follows `PollDecision`: a render records its id and is the only new call; a retry schedules one more poll; otherwise nothing changes; the one-widget invariant holds after |
| `Turnstile.TurnstileWidget.RenderWidget` | frontend/app/components/Turnstile.tsx:34-35 | the render branch: one `render` call with a fresh id, that id stored in `widgetIdRef`, the one-widget invariant kept |
| `Turnstile.TurnstileWidget.RunEffect` | frontend/app/components/Turnstile.tsx:30-54 | with no site key or no surface the effect does nothing (so no render ever happens without a site key); otherwise it runs `checkTurnstile` once |
| `Turnstile.TurnstileWidget.Tick` | frontend/app/components/Turnstile.tsx:49-51 | a pending timer fires and runs `checkTurnstile`: it may render only if the surface still exists |
| `Turnstile.TurnstileWidget.SuccessCallback` | frontend/app/components/Turnstile.tsx:37-39 | the token is forwarded to `onVerify` unchanged |
| `Turnstile.TurnstileWidget.ErrorCallback` | frontend/app/components/Turnstile.tsx:40-42 | `onError` is called exactly when one was supplied |
| `Turnstile.TurnstileWidget.ExpiredCallback` | frontend/app/components/Turnstile.tsx:43-47 | expiry resets the held widget with its own id and makes no call when none is held; the widget is never removed or re-rendered |
| `Turnstile.TurnstileWidget.Teardown` | frontend/app/components/Turnstile.tsx:56-61 | with a held id exactly one `remove(id)` call is made and the id is cleared; with none, zero provider calls; pending polls are left alone |
| `Turnstile.TurnstileWidget.Unmount` | frontend/app/components/Turnstile.tsx:56-68 | leaving the page tears the effect down as above and detaches the `<div>`, so later polls never render |

The scenario methods (`ScenarioBlankToken`, `ScenarioSecurityCheck`,
`ScenarioSend`, `ScenarioRemount`, `ScenarioSlowProvider`,
`ScenarioNoSiteKey`) are clients proved from the contracts alone. They show
concrete runs: a later mount rendering a fresh widget after teardown, and two
pending polls still rendering only one widget.

## Left out

- `frontend/app/manage/page.tsx` (account CRUD), `frontend/app/docs/page.tsx`, `frontend/app/components/Nav.tsx`, `frontend/app/layout.tsx`: markup, navigation and pass-through calls with no decision logic.
- `backend/src/email.rs`: stub methods with no logic.
- `fetch`, JSON serialisation, `process.env` (the API base URL is left out; the site key is a parameter), `useSearchParams`/`Suspense`, styling, and the browser's own `type="email"` / `required` / `minLength` checks: these belong to foreign runtimes.
- Timing: a `setTimeout` is one pending poll and `Tick` fires one. React's effect scheduling is not modelled; the host calls `RunEffect`, `Teardown` and `Unmount` explicitly. A dependency change (fresh arrow callbacks on every render) is `Teardown` followed by `RunEffect`.
- Stale closures in general: an `onChange` handler, or a callback of a removed widget, acting on an older render's state. The one stale closure that decides an outcome is modelled: `FinishSend` resets to the submitted `from`.
- Edits made while `ResetPasswordForm.HandleSubmit` or `Composer.HandleSubmit` is awaiting: they can only be expressed with `BeginSubmit`/`FinishSubmit` and `BeginSend`/`FinishSend`, which allow them.
- Composer.Composer.FetchAccounts: does not model an ok response whose JSON is not an account list as more than `None` (the `filter` call throws and the `catch` logs it).
- JSON bodies whose `message` or `status` are not strings (numbers, objects): `Body` carries only string fields.
- Turnstile.Provider.Render: issues ids of the form `widget-<n>` in place of the provider's opaque handles. It does not model a provider returning an empty id, which the code would treat as no widget.
- Several widget instances sharing one provider at the same time: each controller's invariant covers only its own calls, assuming no other instance calls the provider meanwhile.
- `window.turnstile` disappearing again after it has loaded.
- `console.error` logging.
