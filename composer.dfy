/** The composer screen (`Home`): the sender list, the form, the
    submit-enable rule, and the send handler. */
module Composer {
  import opened Js
  import opened Http

  const SentText := "Email sent successfully!"
  const SendFailed := "Failed to send email"

  /** An entry of `GET /accounts`. */
  datatype Account = Account(id: string, email: string, displayName: string, isActive: bool)

  /** The composer's `formData`. */
  datatype EmailForm = EmailForm(from: string, to: string, cc: string, bcc: string, subject: string, body: string)

  /** The form fields an `onChange` handler may overwrite. */
  datatype Field = From | To | Cc | Bcc | Subject | Body

  /** The body of `POST /send`; an absent `cc` or `bcc` is a property
      `JSON.stringify` drops because its value is `undefined`. */
  datatype SendRequest = SendRequest(from: string, to: string, subject: string, body: string,
                                     cc: Option<string>, bcc: Option<string>)

  /** The outcome of `GET /accounts`: a response whose body, when it is
      read, is a list of accounts or something `filter` cannot run on
      (`None`), or a rejection. */
  datatype AccountsOutcome = Listed(ok: bool, data: Option<seq<Account>>) | ListFailed

  /** The sender list: the fetched accounts whose `isActive` is true, as
      `data.filter(acc => acc.isActive)` keeps them. */
  function ActiveAccounts(xs: seq<Account>): (r: seq<Account>)
    ensures |r| <= |xs|
    ensures forall a :: a in r <==> a in xs && a.isActive
  {
    if xs == [] then []
    else (if xs[0].isActive then [xs[0]] else []) + ActiveAccounts(xs[1..])
  }

  /** Filtering the concatenation of two lists filters each in turn: the
      relative order of the kept accounts is that of the fetched list. */
  lemma {:induction false} ActiveAccountsAppend(xs: seq<Account>, ys: seq<Account>)
    ensures ActiveAccounts(xs + ys) == ActiveAccounts(xs) + ActiveAccounts(ys)
  {
    if xs == [] {
      assert xs + ys == ys;
    } else {
      assert (xs + ys)[1..] == xs[1..] + ys;
      ActiveAccountsAppend(xs[1..], ys);
    }
  }

  /** A list of active accounts is kept whole, and filtering twice is filtering once. */
  lemma {:induction false} ActiveAccountsIdempotent(xs: seq<Account>)
    ensures (forall i :: 0 <= i < |xs| ==> xs[i].isActive) ==> ActiveAccounts(xs) == xs
    ensures ActiveAccounts(ActiveAccounts(xs)) == ActiveAccounts(xs)
  {
    if xs != [] {
      ActiveAccountsIdempotent(xs[1..]);
      var rest := ActiveAccounts(xs[1..]);
      if xs[0].isActive {
        var kept := [xs[0]] + rest;
        assert kept[0] == xs[0] && kept[1..] == rest;
        assert ActiveAccounts(kept) == [xs[0]] + ActiveAccounts(rest);
      } else {
        assert ActiveAccounts(xs) == rest;
      }
    }
  }

  /** `value || undefined`: an empty string is left out, anything else is sent as is. */
  function Optional(s: string): Option<string>
  {
    if s == "" then None else Some(s)
  }

  /** The request a form is sent as. */
  function ShapeRequest(f: EmailForm): (r: SendRequest)
    ensures r.from == f.from && r.to == f.to && r.subject == f.subject && r.body == f.body
    ensures r.cc.None? <==> f.cc == ""
    ensures r.bcc.None? <==> f.bcc == ""
    ensures FormOf(r) == f
  {
    SendRequest(f.from, f.to, f.subject, f.body, Optional(f.cc), Optional(f.bcc))
  }

  /** Reads a request back as a form, an absent `cc`/`bcc` as `""`. */
  function FormOf(r: SendRequest): EmailForm
  {
    EmailForm(r.from, r.to, OrElse(r.cc, ""), OrElse(r.bcc, ""), r.subject, r.body)
  }

  /** Every request that does not carry an empty `cc` or `bcc` is the shape of exactly one form. */
  lemma ShapeOfFormOf(r: SendRequest)
    requires r.cc != Some("") && r.bcc != Some("")
    ensures ShapeRequest(FormOf(r)) == r
  {
  }

  /** The submit button's `disabled` expression, negated: enabled exactly
      when no send is in flight and `from`, `to`, `subject` and `body` are
      non-empty strings (whitespace counts as content). */
  function CanSubmit(sending: bool, f: EmailForm): (r: bool)
    ensures r <==> !sending && |f.from| > 0 && |f.to| > 0 && |f.subject| > 0 && |f.body| > 0
  {
    !(sending || f.from == "" || f.to == "" || f.subject == "" || f.body == "")
  }

  /** The form after a successful send: only the sender survives. */
  function Cleared(from: string): EmailForm
  {
    EmailForm(from, "", "", "", "", "")
  }

  /** An enabled submit sends every required field non-empty; a freshly cleared form cannot be sent again. */
  lemma SubmitNeedsRequiredFields(sending: bool, f: EmailForm, from: string)
    ensures CanSubmit(sending, f) ==>
              var r := ShapeRequest(f); r.from != "" && r.to != "" && r.subject != "" && r.body != ""
    ensures !CanSubmit(sending, Cleared(from))
  {
  }

  /** The banner for a settled send. On an ok response the body is never
      read. Otherwise the parsed body falls back to
      `{ message: 'Failed to send email' }`; reading `message` of a `null`
      body throws, which the handler's `catch` reports as a network error. */
  function SendReply(o: Outcome): (r: Notice)
    ensures r.Success? <==> o.Received? && o.ok
    ensures r.Success? ==> r.text == SentText
    ensures o.Received? && !o.ok && o.parsed.Unparseable? ==> r == Error(SendFailed)
    ensures o.Received? && !o.ok && o.parsed.Json? && o.parsed.body.Object? ==>
              r == Error(OrElse(o.parsed.body.message, SendFailed))
    ensures o.NetworkError? || (o.Received? && !o.ok && o.parsed == Json(Null)) ==> r == Error(NetworkErrorText)
    ensures r.text != ""
  {
    match o
    case NetworkError => Error(NetworkErrorText)
    case Received(ok, parsed) =>
      if ok then Success(SentText)
      else
        var error := if parsed.Unparseable? then Object(Some(SendFailed), None) else parsed.body;
        if error.Null? then Error(NetworkErrorText) else Error(OrElse(error.message, SendFailed))
  }

  /** The state of one `Home` instance. */
  class Composer {
    var accounts: seq<Account>
    var loading: bool
    var sending: bool
    var message: Option<Notice>
    var form: EmailForm

    constructor ()
      ensures accounts == [] && loading && !sending && message.None?
      ensures form == EmailForm("", "", "", "", "", "")
    {
      accounts := [];
      loading := true;
      sending := false;
      message := None;
      form := EmailForm("", "", "", "", "", "");
    }

    /** `fetchAccounts`: only a readable ok response replaces the sender
        list; every other outcome is logged and leaves it. */
    method FetchAccounts(o: AccountsOutcome)
      modifies this`accounts, this`loading
      ensures accounts == if o.Listed? && o.ok && o.data.Some? then ActiveAccounts(o.data.value) else old(accounts)
      ensures !loading
    {
      if o.Listed? && o.ok && o.data.Some? {
        accounts := ActiveAccounts(o.data.value);
      }
      loading := false;
    }

    /** An `onChange` handler: `setFormData({ ...formData, [field]: v })`. */
    method Edit(field: Field, v: string)
      modifies this`form
      ensures form == match field
                      case From => old(form).(from := v)
                      case To => old(form).(to := v)
                      case Cc => old(form).(cc := v)
                      case Bcc => old(form).(bcc := v)
                      case Subject => old(form).(subject := v)
                      case Body => old(form).(body := v)
    {
      match field {
        case From => form := form.(from := v);
        case To => form := form.(to := v);
        case Cc => form := form.(cc := v);
        case Bcc => form := form.(bcc := v);
        case Subject => form := form.(subject := v);
        case Body => form := form.(body := v);
      }
    }

    /** `handleSubmit` up to the awaited `fetch`. There is no guard: the
        request always leaves, even with a send already in flight. */
    method BeginSend() returns (req: SendRequest)
      modifies this`sending, this`message
      ensures sending && message.None?
      ensures req == ShapeRequest(form)
    {
      sending := true;
      message := None;
      req := ShapeRequest(form);
    }

    /** `handleSubmit` after the `fetch` settles, through `finally`.
        `submitted` is the `formData` the handler closed over when it
        started, so a successful send resets the form to ITS sender. */
    method FinishSend(submitted: EmailForm, o: Outcome)
      modifies this`message, this`sending, this`form
      ensures message == Some(SendReply(o)) && !sending
      ensures form == if o.Received? && o.ok then Cleared(submitted.from) else old(form)
    {
      match o {
        case NetworkError =>
          message := Some(Error(NetworkErrorText));
        case Received(ok, parsed) =>
          if ok {
            message := Some(Success(SentText));
            form := EmailForm(submitted.from, "", "", "", "", "");
          } else {
            var error := if parsed.Unparseable? then Object(Some(SendFailed), None) else parsed.body;
            if error.Null? {
              message := Some(Error(NetworkErrorText));
            } else {
              message := Some(Error(OrElse(error.message, SendFailed)));
            }
          }
      }
      sending := false;
    }

    /** The whole handler, with `o` the outcome of its one call. */
    method HandleSubmit(o: Outcome) returns (req: SendRequest)
      modifies this`sending, this`message, this`form
      ensures req == ShapeRequest(old(form))
      ensures message == Some(SendReply(o)) && !sending
      ensures form == if o.Received? && o.ok then Cleared(old(form).from) else old(form)
    {
      var submitted := form;
      req := BeginSend();
      FinishSend(submitted, o);
    }
  }

  /** Two recipients in `to` travel as one string, `cc`/`bcc` are left out,
      and a success keeps only the sender. */
  method ScenarioSend(c: Composer)
    requires c.form == EmailForm("s@x.com", "a@x.com, b@x.com", "", "", "hi", "yo")
    modifies c
  {
    var req := c.HandleSubmit(Received(true, Unparseable));
    assert req == SendRequest("s@x.com", "a@x.com, b@x.com", "hi", "yo", None, None);
    assert c.form == Cleared("s@x.com") && c.message == Some(Success(SentText));
    SubmitNeedsRequiredFields(false, c.form, "s@x.com");
    assert !CanSubmit(c.sending, c.form);
  }
}
